/**
 * The task entities: what a caller asks for (`TaskExecutionRequest`) and what
 * the use case schedules (`StartedTask`).
 */
module Task {
  import opened Wrappers

  /**
   * A point in time, held as the ISO 8601 text of its wall-clock reading in
   * UTC without an offset (what `astimezone(timezone.utc).isoformat()` gives
   * before its "+00:00"). A naive datetime is read as UTC, so its text is its
   * own `isoformat()`; the calendar arithmetic of the conversion is not
   * modelled.
   */
  datatype DateTime = DateTime(utcText: string)

  /** Durations and counts are Python floats and ints; floats are modelled as reals. */
  datatype TaskExecutionRequest = TaskExecutionRequest(
    durationSeconds: real,
    forceFail: bool,
    modifiedFilesCount: int,
    repositoryName: Option<string>,
    executionTimeSeconds: Option<real>,
    startDatetime: Option<DateTime>,
    endDatetime: Option<DateTime>)

  datatype StartedTask = StartedTask(
    chatId: int,
    durationSeconds: real,
    forceFail: bool,
    modifiedFilesCount: int,
    repositoryName: Option<string>,
    executionTimeSeconds: Option<real>,
    startDatetime: Option<DateTime>,
    endDatetime: Option<DateTime>)
}
