/**
 * The task use case (`StartTaskUseCase`): choose the conversation to notify,
 * normalise the request, and after the task send one summary message.
 */
module StartTask {
  import opened Wrappers
  import PyStr
  import Decimal
  import Task
  import ChatState
  import TaskPresenter

  datatype StartError = LastChatNotAvailable

  /** `_MIN_REPORTED_EXECUTION_SECONDS`. */
  const MinReportedExecutionSeconds: real := 0.01

  const DefaultRepositoryName: string := "unknown-repository"
  const SuccessStatus: string := "Termin\U{00E9}"
  const FailureStatus: string := "Fall\U{00F3}"

  /** The configured repository name, stripped, or the default when blank. */
  function ConfiguredRepositoryName(name: string): (r: string)
    ensures r != "" && PyStr.IsTrimmed(r)
    ensures !PyStr.IsBlank(name) ==> r == PyStr.Strip(name)
    ensures PyStr.IsBlank(name) ==> r == DefaultRepositoryName
  {
    var stripped := PyStr.Strip(name);
    PyStr.StripIdempotent(name);
    if stripped == "" then
      PyStr.StripTrimmed(DefaultRepositoryName);
      DefaultRepositoryName
    else stripped
  }

  /** `_normalize_modified_files_count`: negative counts read as zero. */
  function NormalizeModifiedFilesCount(n: int): (r: nat)
    ensures n >= 0 ==> r == n
    ensures n < 0 ==> r == 0
  {
    if n < 0 then 0 else n
  }

  /** `_normalize_repository_name`: a missing name reads as "", a present one is stripped. */
  function NormalizeRepositoryName(name: Option<string>): (r: string)
    ensures PyStr.IsTrimmed(r)
    ensures r == "" <==> name.None? || PyStr.IsBlank(name.value)
  {
    match name
    case None => ""
    case Some(s) => PyStr.StripIdempotent(s); PyStr.Strip(s)
  }

  /** Both normalisers are idempotent. */
  lemma {:induction false} NormalizersIdempotent(n: int, name: Option<string>)
    ensures NormalizeModifiedFilesCount(NormalizeModifiedFilesCount(n)) == NormalizeModifiedFilesCount(n)
    ensures NormalizeRepositoryName(Some(NormalizeRepositoryName(name))) == NormalizeRepositoryName(name)
  {
  }

  /**
   * `_resolve_elapsed_seconds`: a positive reported time wins over the
   * measured one; either is raised to the 0.01 s floor.
   */
  function ResolveElapsedSeconds(measured: real, provided: Option<real>): (r: real)
    ensures r >= MinReportedExecutionSeconds
    ensures provided.Some? && provided.value > 0.0 ==> r == Max(provided.value, MinReportedExecutionSeconds)
    ensures !(provided.Some? && provided.value > 0.0) ==> r == Max(measured, MinReportedExecutionSeconds)
  {
    if provided.Some? && provided.value > 0.0 then Max(provided.value, MinReportedExecutionSeconds)
    else Max(measured, MinReportedExecutionSeconds)
  }

  function Max(a: real, b: real): real {
    if a >= b then a else b
  }

  /** A positive reported time makes the measurement irrelevant; the two values the tests check. */
  lemma {:induction false} ResolveElapsedProperties(m1: real, m2: real, provided: real)
    requires provided > 0.0
    ensures ResolveElapsedSeconds(m1, Some(provided)) == ResolveElapsedSeconds(m2, Some(provided))
    ensures ResolveElapsedSeconds(1.0, Some(12.5)) == 12.5
    ensures ResolveElapsedSeconds(0.0, Some(0.0)) == 0.01
    ensures ResolveElapsedSeconds(m1, None) == ResolveElapsedSeconds(m1, Some(0.0))
  {
  }

  // ---------------------------------------------------------------------
  // `f"{x:.2f}"`
  // ---------------------------------------------------------------------

  /**
   * `x` in hundredths, rounded to the nearest integer with ties to even, as
   * Python rounds the exact value of a float.
   */
  function Hundredths(x: real): (c: int)
    requires x >= 0.0
    ensures c >= 0
    ensures -0.5 <= c as real - x * 100.0 <= 0.5
    ensures c as real - x * 100.0 == 0.5 || c as real - x * 100.0 == -0.5 ==> c % 2 == 0
  {
    var scaled := x * 100.0;
    var low := scaled.Floor;
    var fraction := scaled - low as real;
    if fraction > 0.5 then low + 1
    else if fraction < 0.5 then low
    else if low % 2 == 0 then low else low + 1
  }

  function TwoDigits(n: nat): (s: string)
    requires n < 100
    ensures |s| == 2 && Decimal.AllDigits(s) && Decimal.DigitsValue(s) == n
  {
    var s := [Decimal.DigitChar(n / 10), Decimal.DigitChar(n % 10)];
    Decimal.TwoDigitsValue(s);
    s
  }

  /** `f"{x:.2f}"` for a non-negative `x`: integer digits, a point, two rounded decimals. */
  function FormatFixed2(x: real): string
    requires x >= 0.0
  {
    var c := Hundredths(x);
    Decimal.NatToString(c / 100) + "." + TwoDigits(c % 100)
  }

  /** The value, in hundredths, of text of the form `digits.dd`. */
  function Fixed2Value(t: string): Option<nat> {
    if |t| >= 4 && t[|t| - 3] == '.' && Decimal.AllDigits(t[..|t| - 3]) && Decimal.AllDigits(t[|t| - 2..]) then
      Some(Decimal.DigitsValue(t[..|t| - 3]) * 100 + Decimal.DigitsValue(t[|t| - 2..]))
    else None
  }

  /**
   * The formatted text reads back as the rounded value, which is within half
   * a hundredth of `x`.
   */
  lemma {:induction false} FormatFixed2Value(x: real)
    requires x >= 0.0
    ensures Fixed2Value(FormatFixed2(x)) == Some(Hundredths(x))
    ensures -0.005 <= Hundredths(x) as real / 100.0 - x <= 0.005
  {
    var c := Hundredths(x);
    var whole := Decimal.NatToString(c / 100);
    var t := FormatFixed2(x);
    var dd := TwoDigits(c % 100);
    assert t[..|t| - 3] == whole;
    assert t[|t| - 2..] == dd;
    Decimal.NatToStringValue(c / 100);
  }

  /** The reported time is at least 0.01 s, so the message never reads "0.00s". */
  lemma {:induction false} ElapsedNeverPrintsZero(measured: real, provided: Option<real>)
    ensures var e := ResolveElapsedSeconds(measured, provided);
      Hundredths(e) >= 1 && FormatFixed2(e) != "0.00"
  {
    var e := ResolveElapsedSeconds(measured, provided);
    FormatFixed2Value(e);
    assert Fixed2Value("0.00") == Some(0) by {
      assert "0.00"[..1] == "0" && "0.00"[2..] == "00";
      Decimal.TwoDigitsValue("00");
      assert "0"[..0] == [];
    }
  }

  /** The value the repository's test reports: 42.5 s is printed as "42.50". */
  lemma {:induction false} FormatFixed2Example()
    ensures FormatFixed2(42.5) == "42.50"
  {
    assert Hundredths(42.5) == 4250 by {
      assert (4250.0).Floor == 4250;
    }
    assert Decimal.NatToString(42) == "42" by {
      assert Decimal.NatToString(4) == "4";
    }
  }

  // ---------------------------------------------------------------------
  // The notification text
  // ---------------------------------------------------------------------

  /** `filter(None, items)`: drops the `None` entries and the empty strings. */
  function FilterTruthy(items: seq<Option<string>>): (r: seq<string>)
    ensures |r| <= |items|
  {
    if items == [] then []
    else
      var rest := FilterTruthy(items[1..]);
      if items[0].Some? && items[0].value != "" then [items[0].value] + rest else rest
  }

  /** The repository named in the message: the task's own, else the configured one. */
  function MessageRepository(task: Task.StartedTask, configured: string): string {
    var own := NormalizeRepositoryName(task.repositoryName);
    if own == "" then configured else own
  }

  function DateLine(heading: string, t: Option<Task.DateTime>): Option<string> {
    match t
    case None => None
    case Some(d) => Some(heading + TaskPresenter.ToUtcIso(d))
  }

  /** The candidate lines of `_build_notification_message`, before `filter(None, ...)`. */
  function NotificationItems(status: string, task: Task.StartedTask, elapsed: real, configured: string)
    : seq<Option<string>>
    requires elapsed >= 0.0
  {
    [Some(status),
     Some(RepositoryLine(task, configured)),
     Some(ElapsedLine(elapsed)),
     DateLine("Inicio: ", task.startDatetime),
     DateLine("Fin: ", task.endDatetime),
     Some(FilesLine(task))]
  }

  function RepositoryLine(task: Task.StartedTask, configured: string): (line: string)
    ensures line != ""
  {
    "Repositorio: " + MessageRepository(task, configured)
  }

  function ElapsedLine(elapsed: real): (line: string)
    requires elapsed >= 0.0
    ensures line != ""
  {
    "Tiempo de ejecucion: " + FormatFixed2(elapsed) + "s"
  }

  function FilesLine(task: Task.StartedTask): (line: string)
    ensures line != ""
  {
    "Archivos modificados: " + Decimal.NatToString(NormalizeModifiedFilesCount(task.modifiedFilesCount))
  }

  /** The lines of `_build_notification_message`, before they are joined with "\n". */
  function NotificationLines(status: string, task: Task.StartedTask, elapsed: real, configured: string): seq<string>
    requires elapsed >= 0.0
  {
    FilterTruthy(NotificationItems(status, task, elapsed, configured))
  }

  function BuildNotificationMessage(status: string, task: Task.StartedTask, elapsed: real, configured: string): string
    requires elapsed >= 0.0
  {
    PyStr.Join("\n", NotificationLines(status, task, elapsed, configured))
  }

  /** What `filter(None, ...)` keeps of one item. */
  function Kept(item: Option<string>): seq<string> {
    if item.Some? && item.value != "" then [item.value] else []
  }

  lemma {:induction false} FilterCons(item: Option<string>, rest: seq<Option<string>>)
    ensures FilterTruthy([item] + rest) == Kept(item) + FilterTruthy(rest)
  {
    assert ([item] + rest)[1..] == rest;
  }

  /** Filtering a concatenation filters each part. */
  lemma {:induction false} FilterAppend(x: seq<Option<string>>, y: seq<Option<string>>)
    ensures FilterTruthy(x + y) == FilterTruthy(x) + FilterTruthy(y)
    decreases |x|
  {
    if x == [] {
      assert x + y == y;
    } else {
      assert (x + y)[1..] == x[1..] + y;
      FilterAppend(x[1..], y);
    }
  }

  lemma {:induction false} FilterThree(a: Option<string>, b: Option<string>, c: Option<string>)
    ensures FilterTruthy([a, b, c]) == Kept(a) + Kept(b) + Kept(c)
  {
    FilterCons(c, []);
    assert [c] == [c] + [];
    FilterCons(b, [c]);
    assert [b, c] == [b] + [c];
    FilterCons(a, [b, c]);
    assert [a, b, c] == [a] + [b, c];
  }

  /** `filter(None, ...)` on a six-item list keeps each item on its own. */
  lemma {:induction false} FilterSix(a: Option<string>, b: Option<string>, c: Option<string>, d: Option<string>,
                  e: Option<string>, f: Option<string>)
    ensures FilterTruthy([a, b, c, d, e, f]) == Kept(a) + Kept(b) + Kept(c) + Kept(d) + Kept(e) + Kept(f)
  {
    var x := [a, b, c];
    var y := [d, e, f];
    FilterThree(a, b, c);
    FilterThree(d, e, f);
    FilterAppend(x, y);
    assert [a, b, c, d, e, f] == x + y;
  }

  function DateLines(heading: string, t: Option<Task.DateTime>): seq<string> {
    Kept(DateLine(heading, t))
  }

  /**
   * The message has, in order: the status, the repository, the time, a start
   * line and an end line exactly when those datetimes are given, and the
   * modified-file count (never negative).
   */
  lemma {:induction false} NotificationLinesInOrder(status: string, task: Task.StartedTask, elapsed: real, configured: string)
    requires status != "" && elapsed >= 0.0
    ensures NotificationLines(status, task, elapsed, configured) ==
      [status, RepositoryLine(task, configured), ElapsedLine(elapsed)]
      + DateLines("Inicio: ", task.startDatetime)
      + DateLines("Fin: ", task.endDatetime)
      + [FilesLine(task)]
  {
    var repo := RepositoryLine(task, configured);
    var time := ElapsedLine(elapsed);
    var files := FilesLine(task);
    var a, b := DateLine("Inicio: ", task.startDatetime), DateLine("Fin: ", task.endDatetime);
    assert NotificationItems(status, task, elapsed, configured) == [Some(status), Some(repo), Some(time), a, b, Some(files)];
    FilterSix(Some(status), Some(repo), Some(time), a, b, Some(files));
    assert Kept(Some(status)) == [status];
    assert Kept(Some(repo)) == [repo];
    assert Kept(Some(time)) == [time];
    assert Kept(Some(files)) == [files];
  }

  /**
   * The repository shown is the task's stripped name when it has one, else
   * the configured name; with a configured name from the constructor it is
   * never blank.
   */
  lemma {:induction false} RepositoryShown(task: Task.StartedTask, configuredName: string)
    ensures var shown := MessageRepository(task, ConfiguredRepositoryName(configuredName));
      && shown != "" && PyStr.IsTrimmed(shown)
      && (task.repositoryName.Some? && !PyStr.IsBlank(task.repositoryName.value) ==>
            shown == PyStr.Strip(task.repositoryName.value))
  {
  }

  // ---------------------------------------------------------------------
  // Starting a task
  // ---------------------------------------------------------------------

  /**
   * What `start` returns given the stored id and the fallback: the stored id
   * wins, the fallback is used only when there is none, and with neither the
   * request fails. The task carries the normalised request.
   */
  function StartOutcome(stored: Option<int>, fallback: Option<int>, request: Task.TaskExecutionRequest)
    : Result<Task.StartedTask, StartError>
  {
    if stored.None? && fallback.None? then Failure(LastChatNotAvailable)
    else
      var chatId := if stored.Some? then stored.value else fallback.value;
      var repository := NormalizeRepositoryName(request.repositoryName);
      Success(Task.StartedTask(
        chatId,
        request.durationSeconds,
        request.forceFail,
        NormalizeModifiedFilesCount(request.modifiedFilesCount),
        if repository == "" then None else Some(repository),
        request.executionTimeSeconds,
        request.startDatetime,
        request.endDatetime))
  }

  /** The choice of conversation: stored id, then fallback, else an error. */
  lemma {:induction false} StartChoosesChat(stored: Option<int>, fallback: Option<int>, request: Task.TaskExecutionRequest)
    ensures StartOutcome(stored, fallback, request).Failure? <==> stored.None? && fallback.None?
    ensures stored.Some? ==> StartOutcome(stored, fallback, request).value.chatId == stored.value
    ensures stored.None? && fallback.Some? ==> StartOutcome(stored, fallback, request).value.chatId == fallback.value
  {
  }

  /**
   * The started task copies the request, with the count raised to zero and
   * the repository name stripped (a blank one dropped).
   */
  lemma {:induction false} StartNormalizesRequest(stored: Option<int>, fallback: Option<int>, request: Task.TaskExecutionRequest)
    requires StartOutcome(stored, fallback, request).Success?
    ensures var t := StartOutcome(stored, fallback, request).value;
      && t.modifiedFilesCount >= 0
      && (request.modifiedFilesCount >= 0 ==> t.modifiedFilesCount == request.modifiedFilesCount)
      && (t.repositoryName.None? <==> request.repositoryName.None? || PyStr.IsBlank(request.repositoryName.value))
      && (t.repositoryName.Some? ==> t.repositoryName.value == PyStr.Strip(request.repositoryName.value))
      && t.durationSeconds == request.durationSeconds && t.forceFail == request.forceFail
      && t.executionTimeSeconds == request.executionTimeSeconds
      && t.startDatetime == request.startDatetime && t.endDatetime == request.endDatetime
  {
  }

  /**
   * The notification port, recording every `send_message` call. Whether a
   * call that raises reached Telegram is not observable (an adapter can
   * raise after its request went through), so every call is recorded, and
   * `raises` only decides whether the caller sees an exception.
   */
  class NotificationSink {
    var calls: seq<(int, string)>

    constructor()
      ensures calls == []
    {
      calls := [];
    }

    method SendMessage(chatId: int, text: string, raises: bool) returns (ok: bool)
      modifies this
      ensures ok == !raises
      ensures calls == old(calls) + [(chatId, text)]
    {
      ok := !raises;
      calls := calls + [(chatId, text)];
    }
  }

  /** The summary message for `status`, timed at the clock reading `measured`. */
  function SummaryMessage(status: string, task: Task.StartedTask, measured: real, configured: string): string {
    BuildNotificationMessage(status, task, ResolveElapsedSeconds(measured, task.executionTimeSeconds), configured)
  }

  /**
   * The `send_message` calls `run_task_and_notify` makes. The success
   * message is sent unless the task is forced to fail; a forced failure or
   * a raising success send leads to the failure message, timed at the
   * second clock reading.
   */
  function Notifications(task: Task.StartedTask, configured: string, measuredAtSuccess: real,
                         measuredAtFailure: real, successSendRaises: bool)
    : seq<(int, string)>
  {
    var success := [(task.chatId, SummaryMessage(SuccessStatus, task, measuredAtSuccess, configured))];
    var failure := [(task.chatId, SummaryMessage(FailureStatus, task, measuredAtFailure, configured))];
    if task.forceFail then failure
    else if successSendRaises then success + failure
    else success
  }

  /** A summary message starts with its status line. */
  lemma {:induction false} SummaryStartsWithStatus(status: string, task: Task.StartedTask, measured: real, configured: string)
    requires status != ""
    ensures PyStr.StartsWith(SummaryMessage(status, task, measured, configured), status)
  {
    var e := ResolveElapsedSeconds(measured, task.executionTimeSeconds);
    NotificationLinesInOrder(status, task, e, configured);
    var lines := NotificationLines(status, task, e, configured);
    MessageStartsWithFirstLine(lines);
  }

  /**
   * Every call goes to the task's conversation. With a send that does not
   * raise there is exactly one call, whose message starts with the success
   * status exactly when the task was not forced to fail. A raising success
   * send is followed by exactly one more call, with the failure message. The
   * last call starts with the success status exactly when the task was not
   * forced to fail and the first send did not raise.
   */
  lemma {:induction false} NotificationAttempts(task: Task.StartedTask, configured: string, m1: real, m2: real, r1: bool)
    ensures var calls := Notifications(task, configured, m1, m2, r1);
      && 1 <= |calls| <= 2
      && (forall i :: 0 <= i < |calls| ==> calls[i].0 == task.chatId)
      && (|calls| == 2 <==> !task.forceFail && r1)
      && (PyStr.StartsWith(calls[0].1, SuccessStatus) <==> !task.forceFail)
      && (PyStr.StartsWith(calls[0].1, FailureStatus) <==> task.forceFail)
      && (|calls| == 2 ==> PyStr.StartsWith(calls[1].1, FailureStatus))
      && (PyStr.StartsWith(calls[|calls| - 1].1, SuccessStatus) <==> !task.forceFail && !r1)
  {
    SummaryStartsWithStatus(SuccessStatus, task, m1, configured);
    SummaryStartsWithStatus(FailureStatus, task, m2, configured);
    var calls := Notifications(task, configured, m1, m2, r1);
    var s := SummaryMessage(SuccessStatus, task, m1, configured);
    var f := SummaryMessage(FailureStatus, task, m2, configured);
    assert s[4] == SuccessStatus[4] && f[4] == FailureStatus[4];
    assert !PyStr.StartsWith(s, FailureStatus) && !PyStr.StartsWith(f, SuccessStatus);
  }

  lemma {:induction false} MessageStartsWithFirstLine(lines: seq<string>)
    requires |lines| >= 1
    ensures PyStr.StartsWith(PyStr.Join("\n", lines), lines[0])
  {
  }

  class StartTaskUseCase {
    const gateway: ChatState.FileChatStateGateway
    const sink: NotificationSink
    const repositoryName: string
    const fallbackChatId: Option<int>

    constructor(gateway: ChatState.FileChatStateGateway, sink: NotificationSink, repositoryName: string,
                fallbackChatId: Option<int>)
      ensures this.gateway == gateway && this.sink == sink && this.fallbackChatId == fallbackChatId
      ensures this.repositoryName == ConfiguredRepositoryName(repositoryName)
    {
      this.gateway := gateway;
      this.sink := sink;
      this.repositoryName := ConfiguredRepositoryName(repositoryName);
      this.fallbackChatId := fallbackChatId;
    }

    /**
     * `start`: the result is `StartOutcome` of the stored id; only the
     * fallback path writes, storing the fallback id through the gateway.
     */
    method Start(request: Task.TaskExecutionRequest, outcome: ChatState.WriteOutcome)
        returns (r: Result<Task.StartedTask, StartError>)
      modifies gateway, gateway.files
      ensures r == StartOutcome(old(gateway.lastChatId), fallbackChatId, request)
      ensures old(gateway.lastChatId).None? && fallbackChatId.Some? ==>
        gateway.lastChatId == fallbackChatId
        && gateway.files.canonical == ChatState.CanonicalAfter(outcome, old(gateway.files.canonical), fallbackChatId.value)
        && gateway.files.temp == ChatState.TempAfter(outcome, old(gateway.files.temp), fallbackChatId.value)
      ensures old(gateway.lastChatId).Some? || fallbackChatId.None? ==> unchanged(gateway, gateway.files)
    {
      var modifiedFilesCount := NormalizeModifiedFilesCount(request.modifiedFilesCount);
      var repository := NormalizeRepositoryName(request.repositoryName);
      var chatId := gateway.GetLastChatId();
      if chatId.None? {
        if fallbackChatId.Some? {
          chatId := fallbackChatId;
          gateway.SetLastChatId(chatId.value, outcome);
        } else {
          return Failure(LastChatNotAvailable);
        }
      }
      r := Success(Task.StartedTask(
        chatId.value,
        request.durationSeconds,
        request.forceFail,
        modifiedFilesCount,
        if repository == "" then None else Some(repository),
        request.executionTimeSeconds,
        request.startDatetime,
        request.endDatetime));
    }

    /**
     * `run_task_and_notify`, with the clock readings and the faults of the two
     * sends as parameters. `raised` tells whether an exception escapes (the
     * failure send raising).
     */
    method RunTaskAndNotify(task: Task.StartedTask, measuredAtSuccess: real, measuredAtFailure: real,
                            successSendRaises: bool, failureSendRaises: bool)
        returns (raised: bool)
      modifies sink
      ensures sink.calls == old(sink.calls) + Notifications(task, repositoryName, measuredAtSuccess, measuredAtFailure,
                                                           successSendRaises)
      ensures raised <==> (task.forceFail || successSendRaises) && failureSendRaises
    {
      var failed := task.forceFail;
      if !failed {
        var message := SummaryMessage(SuccessStatus, task, measuredAtSuccess, repositoryName);
        var ok := sink.SendMessage(task.chatId, message, successSendRaises);
        failed := !ok;
      }
      raised := false;
      if failed {
        var message := SummaryMessage(FailureStatus, task, measuredAtFailure, repositoryName);
        var ok := sink.SendMessage(task.chatId, message, failureSendRaises);
        raised := !ok;
      }
    }
  }
}
