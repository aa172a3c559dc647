/**
 * The JSON bodies the HTTP endpoints return for a started task
 * (`present_task_started`).
 */
module TaskPresenter {
  import opened Wrappers
  import opened JsonValue
  import PyStr
  import Task

  const UtcOffset: string := "+00:00"

  /**
   * `_to_utc_iso` of a present datetime: its UTC `isoformat()`, which ends
   * in "+00:00", with every "+00:00" replaced by "Z".
   */
  function ToUtcIso(d: Task.DateTime): string {
    PyStr.Replace(d.utcText + UtcOffset, UtcOffset, "Z")
  }

  /**
   * An ISO wall-clock text has no `+` in it, so only the trailing offset is
   * rewritten: the result is that text followed by "Z".
   */
  lemma {:induction false} ToUtcIsoAppendsZ(d: Task.DateTime)
    requires '+' !in d.utcText
    ensures ToUtcIso(d) == d.utcText + "Z"
  {
    PyStr.ReplaceAtEnd(d.utcText, UtcOffset, "Z");
  }

  /** The datetimes of the repository's notification test. */
  lemma {:induction false} ToUtcIsoExample()
    ensures ToUtcIso(Task.DateTime("2026-02-17T21:34:10")) == "2026-02-17T21:34:10Z"
  {
    ToUtcIsoAppendsZ(Task.DateTime("2026-02-17T21:34:10"));
  }

  function OptionalUtcIso(d: Option<Task.DateTime>): Json {
    match d
    case None => JNull
    case Some(v) => JString(ToUtcIso(v))
  }

  /** `present_task_started`. */
  function PresentTaskStarted(task: Task.StartedTask): (body: Object)
    ensures body.Keys == {"status", "chat_id", "duration_seconds", "force_fail", "modified_files_count",
                          "repository_name", "execution_time_seconds", "start_datetime", "end_datetime"}
  {
    map[
      "status" := JString("started"),
      "chat_id" := JInt(task.chatId),
      "duration_seconds" := JFloat(task.durationSeconds),
      "force_fail" := JBool(task.forceFail),
      "modified_files_count" := JInt(task.modifiedFilesCount),
      "repository_name" := OptionalString(task.repositoryName),
      "execution_time_seconds" := OptionalReal(task.executionTimeSeconds),
      "start_datetime" := OptionalUtcIso(task.startDatetime),
      "end_datetime" := OptionalUtcIso(task.endDatetime)]
  }

  /** The task read back from a presented body, datetimes aside. */
  function ReadPresentedTask(body: Object): Option<(int, real, bool, int, Option<string>, Option<real>)> {
    match (Get(body, "chat_id"), Get(body, "duration_seconds"), Get(body, "force_fail"),
           Get(body, "modified_files_count"), Get(body, "repository_name"), Get(body, "execution_time_seconds"))
    case (JInt(c), JFloat(d), JBool(f), JInt(m), repo, exec) =>
      var r := match repo case JString(s) => Some(Some(s)) case JNull => Some(None) case _ => None;
      var e := match exec case JFloat(x) => Some(Some(x)) case JNull => Some(None) case _ => None;
      if r.Some? && e.Some? then Some((c, d, f, m, r.value, e.value)) else None
    case _ => None
  }

  /** Every field of the task except its datetimes comes back unchanged from the body. */
  lemma {:induction false} PresentTaskStartedRoundTrip(task: Task.StartedTask)
    ensures ReadPresentedTask(PresentTaskStarted(task)) ==
      Some((task.chatId, task.durationSeconds, task.forceFail, task.modifiedFilesCount,
            task.repositoryName, task.executionTimeSeconds))
    ensures Get(PresentTaskStarted(task), "status") == JString("started")
  {
  }

  /**
   * Absent datetimes are presented as `null`, present ones as their UTC text
   * with the `Z` suffix.
   */
  lemma {:induction false} PresentedDatetimes(task: Task.StartedTask)
    ensures var body := PresentTaskStarted(task);
      && (body["start_datetime"] == JNull <==> task.startDatetime.None?)
      && (body["end_datetime"] == JNull <==> task.endDatetime.None?)
    ensures task.startDatetime.Some? && '+' !in task.startDatetime.value.utcText ==>
      PresentTaskStarted(task)["start_datetime"] == JString(task.startDatetime.value.utcText + "Z")
    ensures task.endDatetime.Some? && '+' !in task.endDatetime.value.utcText ==>
      PresentTaskStarted(task)["end_datetime"] == JString(task.endDatetime.value.utcText + "Z")
  {
    if task.startDatetime.Some? && '+' !in task.startDatetime.value.utcText {
      ToUtcIsoAppendsZ(task.startDatetime.value);
    }
    if task.endDatetime.Some? && '+' !in task.endDatetime.value.utcText {
      ToUtcIsoAppendsZ(task.endDatetime.value);
    }
  }
}

/** The JSON bodies of the two Telegram endpoints (`present_webhook_result`, `present_last_chat`). */
module TelegramPresenter {
  import opened Wrappers
  import opened JsonValue

  function PresentWebhookResult(chatId: Option<int>): (body: Object)
    ensures body.Keys == {"ok", "captured_chat_id"} && body["ok"] == JBool(true)
  {
    map["ok" := JBool(true), "captured_chat_id" := OptionalInt(chatId)]
  }

  function PresentLastChat(chatId: Option<int>): (body: Object)
    ensures body.Keys == {"last_chat_id"}
  {
    map["last_chat_id" := OptionalInt(chatId)]
  }

  /** A JSON integer or `null` read back as an optional id. */
  function ReadOptionalInt(j: Json): Option<Option<int>> {
    match j
    case JNull => Some(None)
    case JInt(n) => Some(Some(n))
    case _ => None
  }

  /** A client reading either body gets back exactly the id that was presented, `null` included. */
  lemma {:induction false} PresentedIdsRoundTrip(chatId: Option<int>)
    ensures ReadOptionalInt(PresentWebhookResult(chatId)["captured_chat_id"]) == Some(chatId)
    ensures ReadOptionalInt(PresentLastChat(chatId)["last_chat_id"]) == Some(chatId)
  {
  }
}
