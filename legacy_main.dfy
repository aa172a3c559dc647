/**
 * The original single-file service (`main.py`): the same webhook capture
 * and task notification as the layered service, with the state held in a
 * module-level cell mirrored to the same kind of state file, settings read
 * from the process environment at every request, no fallback conversation
 * and a bare "Terminé"/"Falló" message.
 *
 * `_extract_chat_id` is the same code as `extract_chat_id` and is modelled
 * by `Telegram.ExtractChatId`; the state load, set and persist steps are the
 * same as the gateway's and are modelled by `ChatState.FileChatStateGateway`;
 * `_load_env_file` is the same loop as the one in the settings module and is
 * modelled by `Config.Environment.LoadEnvFile`.
 */
module LegacyApp {
  import opened Wrappers
  import opened JsonValue
  import PyStr
  import Config
  import Telegram
  import ChatState
  import StartTask

  /** The HTTP errors the two legacy endpoints raise. */
  datatype HttpError = HttpError(status: int, detail: string)

  const InvalidSecret: HttpError := HttpError(403, "Invalid Telegram secret token")
  const NoChatYet: HttpError := HttpError(400, "last_chat_id es null. Escribile al bot primero para capturarlo.")

  /** `os.getenv(name, "")`. */
  function GetEnv(env: map<string, string>, name: string): string {
    if name in env then env[name] else ""
  }

  /** The body of `POST /tasks/start`; the framework enforces the duration bounds. */
  datatype TaskStartRequest = TaskStartRequest(durationSeconds: real, forceFail: bool)

  predicate ValidRequest(r: TaskStartRequest) {
    0.0 <= r.durationSeconds <= 600.0
  }

  /** A scheduled `_run_task_and_notify(chat_id, duration_seconds, force_fail)` call. */
  datatype Job = Job(chatId: int, durationSeconds: real, forceFail: bool)

  /** The framework's background-task list. */
  class JobQueue {
    var jobs: seq<Job>

    constructor()
      ensures jobs == []
    {
      jobs := [];
    }

    method Add(job: Job)
      modifies this
      ensures jobs == old(jobs) + [job]
    {
      jobs := jobs + [job];
    }
  }

  /** The one message the background run sends: the outcome word alone. */
  function OutcomeText(forceFail: bool): (text: string)
    ensures text == (if forceFail then StartTask.FailureStatus else StartTask.SuccessStatus)
    ensures text != ""
  {
    if forceFail then StartTask.FailureStatus else StartTask.SuccessStatus
  }

  /** The two outcome words differ, so the message alone tells success from failure. */
  lemma {:induction false} OutcomeTextsDiffer()
    ensures OutcomeText(true) != OutcomeText(false)
  {
    assert OutcomeText(true)[4] != OutcomeText(false)[4];
  }

  /** The JSON body of `POST /tasks/start`: the chat and the request echoed back. */
  function StartedBody(chatId: int, request: TaskStartRequest): (body: Object)
    ensures body.Keys == {"status", "chat_id", "duration_seconds", "force_fail"}
    ensures body["status"] == JString("started") && body["chat_id"] == JInt(chatId)
    ensures body["duration_seconds"] == JFloat(request.durationSeconds) && body["force_fail"] == JBool(request.forceFail)
  {
    map["status" := JString("started"), "chat_id" := JInt(chatId),
        "duration_seconds" := JFloat(request.durationSeconds), "force_fail" := JBool(request.forceFail)]
  }

  /**
   * How one `sendMessage` request ends: it goes through, it fails with an
   * `httpx.HTTPError` (swallowed), or it raises something else that escapes,
   * such as `response.json()` on a body that is not JSON or `data.get` on one
   * that is not an object.
   */
  datatype SendOutcome = Sent | HttpFailure | Escapes

  /**
   * The `sendMessage` requests of one background run: none without a token;
   * otherwise the outcome word, followed by the failure word when the
   * success send escaped.
   */
  function LegacyAttempts(chatId: int, tokenSet: bool, forceFail: bool, successSend: SendOutcome): seq<(int, string)> {
    if !tokenSet then []
    else if forceFail then [(chatId, StartTask.FailureStatus)]
    else if successSend == Escapes then [(chatId, StartTask.SuccessStatus), (chatId, StartTask.FailureStatus)]
    else [(chatId, StartTask.SuccessStatus)]
  }

  /**
   * With a token, the first request carries the outcome word of `force_fail`;
   * a second request, with the failure word, is made exactly when the success
   * send escaped; every request goes to the job's conversation.
   */
  lemma {:induction false} LegacyAttemptsShape(chatId: int, tokenSet: bool, forceFail: bool, successSend: SendOutcome)
    ensures var calls := LegacyAttempts(chatId, tokenSet, forceFail, successSend);
      && (calls == [] <==> !tokenSet)
      && (forall i :: 0 <= i < |calls| ==> calls[i].0 == chatId)
      && (tokenSet ==> calls[0].1 == OutcomeText(forceFail))
      && (|calls| == 2 <==> tokenSet && !forceFail && successSend == Escapes)
      && (|calls| == 2 ==> calls[1].1 == OutcomeText(true) && calls[0].1 != calls[1].1)
      && |calls| <= 2
  {
    OutcomeTextsDiffer();
  }

  class LegacyApp {
    const env: Config.Environment
    const state: ChatState.FileChatStateGateway

    /**
     * Module import: the `.env` file is loaded into the environment, then
     * the last conversation id is restored from the state file.
     */
    constructor(env: Config.Environment, envFile: Option<string>, files: ChatState.StateFiles, readFails: bool)
      modifies env
      ensures this.env == env && state.files == files
      ensures envFile.None? ==> env.vars == old(env.vars)
      ensures envFile.Some? ==>
        env.vars == Config.LoadEntries(old(env.vars), Config.ParseLines(PyStr.SplitLines(envFile.value))).vars
      ensures state.lastChatId == ChatState.RestoredChatId(files.canonical, readFails)
      ensures fresh(state)
    {
      var _ := env.LoadEnvFile(if envFile.Some? then Config.Readable(envFile.value) else Config.Missing);
      this.env := env;
      state := new ChatState.FileChatStateGateway(files, readFails);
    }

    /**
     * `telegram_webhook`: the secret is read from the environment on every
     * request; a mismatch is a 403 and changes nothing; otherwise the
     * extracted id, if any, is stored and echoed.
     */
    method TelegramWebhook(update: Object, providedSecret: Option<string>, outcome: ChatState.WriteOutcome)
        returns (r: Result<Object, HttpError>)
      modifies state, state.files
      ensures var expected := PyStr.Strip(GetEnv(env.vars, "TELEGRAM_WEBHOOK_SECRET"));
        r.Failure? <==> (expected != "" && providedSecret != Some(expected))
      ensures r.Failure? ==> r.error == InvalidSecret && unchanged(state, state.files)
      ensures r.Success? ==> r.value == map["ok" := JBool(true), "captured_chat_id" := OptionalInt(Telegram.ExtractChatId(update))]
      ensures r.Success? && Telegram.ExtractChatId(update).Some? ==>
        && state.lastChatId == Telegram.ExtractChatId(update)
        && state.files.canonical ==
           ChatState.CanonicalAfter(outcome, old(state.files.canonical), Telegram.ExtractChatId(update).value)
        && state.files.temp == ChatState.TempAfter(outcome, old(state.files.temp), Telegram.ExtractChatId(update).value)
      ensures r.Success? && Telegram.ExtractChatId(update).None? ==> unchanged(state, state.files)
    {
      var expected := PyStr.Strip(GetEnv(env.vars, "TELEGRAM_WEBHOOK_SECRET"));
      if expected != "" && providedSecret != Some(expected) {
        return Failure(InvalidSecret);
      }
      var chatId := Telegram.ExtractChatId(update);
      if chatId.Some? {
        state.SetLastChatId(chatId.value, outcome);
      }
      r := Success(map["ok" := JBool(true), "captured_chat_id" := OptionalInt(chatId)]);
    }

    /** `telegram_last_chat`. */
    method TelegramLastChat() returns (body: Object)
      ensures body == map["last_chat_id" := OptionalInt(state.lastChatId)]
    {
      var id := state.GetLastChatId();
      body := map["last_chat_id" := OptionalInt(id)];
    }

    /**
     * `tasks_start`: without a captured conversation the request is a 400
     * and nothing is scheduled; otherwise exactly one job is scheduled for
     * the current conversation and the request is echoed.
     */
    method TasksStart(request: TaskStartRequest, queue: JobQueue) returns (r: Result<Object, HttpError>)
      requires ValidRequest(request)
      modifies queue
      ensures state.lastChatId.None? ==> r == Failure(NoChatYet) && queue.jobs == old(queue.jobs)
      ensures state.lastChatId.Some? ==>
        && r == Success(StartedBody(state.lastChatId.value, request))
        && queue.jobs == old(queue.jobs) + [Job(state.lastChatId.value, request.durationSeconds, request.forceFail)]
    {
      var chatId := state.GetLastChatId();
      if chatId.None? {
        return Failure(NoChatYet);
      }
      queue.Add(Job(chatId.value, request.durationSeconds, request.forceFail));
      r := Success(StartedBody(chatId.value, request));
    }

    /**
     * `_run_task_and_notify` with `_send_telegram_message`: the outcome word
     * is sent unless the task is forced to fail; a forced failure, or a
     * success send that raises something other than an HTTP error, leads to
     * the failure word. `raised` tells whether an exception escapes (the
     * failure send raising too).
     */
    method RunTaskAndNotify(job: Job, sink: StartTask.NotificationSink, successSend: SendOutcome,
                            failureSend: SendOutcome)
        returns (raised: bool)
      modifies sink
      ensures var tokenSet := PyStr.Strip(GetEnv(env.vars, "TELEGRAM_TOKEN")) != "";
        && sink.calls == old(sink.calls) + LegacyAttempts(job.chatId, tokenSet, job.forceFail, successSend)
        && (raised <==> tokenSet && (job.forceFail || successSend == Escapes) && failureSend == Escapes)
    {
      var failed := job.forceFail;
      if !failed {
        var escaped := SendTelegramMessage(job.chatId, StartTask.SuccessStatus, sink, successSend);
        failed := escaped;
      }
      raised := false;
      if failed {
        raised := SendTelegramMessage(job.chatId, StartTask.FailureStatus, sink, failureSend);
      }
    }

    /**
     * `_send_telegram_message`: skipped without a token; otherwise one request
     * is made, an HTTP error is logged and swallowed, and any other exception
     * (a body that is not a JSON object) escapes.
     */
    method SendTelegramMessage(chatId: int, text: string, sink: StartTask.NotificationSink, outcome: SendOutcome)
        returns (escaped: bool)
      modifies sink
      ensures var tokenSet := PyStr.Strip(GetEnv(env.vars, "TELEGRAM_TOKEN")) != "";
        && sink.calls == old(sink.calls) + (if tokenSet then [(chatId, text)] else [])
        && (escaped <==> tokenSet && outcome == Escapes)
    {
      var token := PyStr.Strip(GetEnv(env.vars, "TELEGRAM_TOKEN"));
      if token == "" {
        return false;
      }
      var ok := sink.SendMessage(chatId, text, outcome == Escapes);
      escaped := !ok;
    }
  }

  /**
   * The legacy flow end to end: once a webhook request is accepted, a task
   * started for the captured conversation leads to a first request with the
   * outcome word of `force_fail`, and to a second one with the failure word
   * only when the success send escaped.
   */
  method CaptureStartNotify(app: LegacyApp, update: Object, providedSecret: Option<string>,
                            outcome: ChatState.WriteOutcome, request: TaskStartRequest,
                            sink: StartTask.NotificationSink, successSend: SendOutcome, failureSend: SendOutcome)
    requires ValidRequest(request)
    requires PyStr.Strip(GetEnv(app.env.vars, "TELEGRAM_TOKEN")) != ""
    requires var expected := PyStr.Strip(GetEnv(app.env.vars, "TELEGRAM_WEBHOOK_SECRET"));
      expected == "" || providedSecret == Some(expected)
    requires Telegram.ExtractChatId(update).Some?
    modifies app.state, app.state.files, sink
    ensures var id := Telegram.ExtractChatId(update).value;
      sink.calls == old(sink.calls) + [(id, OutcomeText(request.forceFail))]
        + (if !request.forceFail && successSend == Escapes then [(id, OutcomeText(true))] else [])
  {
    var captured := app.TelegramWebhook(update, providedSecret, outcome);
    var queue := new JobQueue();
    var started := app.TasksStart(request, queue);
    assert queue.jobs == [Job(Telegram.ExtractChatId(update).value, request.durationSeconds, request.forceFail)];
    var _ := app.RunTaskAndNotify(queue.jobs[0], sink, successSend, failureSend);
  }
}
