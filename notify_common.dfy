/**
 * The helpers the notification scripts share (`scripts/notify_common.py`):
 * the `/tasks/start` body a script posts and the `curl` call that posts it.
 * The call itself is a recorder of the requests made; the repository name
 * git reports and the exit status of `curl` are parameters.
 */
module NotifyCommon {
  import opened Wrappers
  import opened JsonValue

  /** The keys every task notification carries. */
  const RequiredKeys: set<string> := {"duration_seconds", "force_fail", "modified_files_count", "repository_name"}

  /** `if value:` on an optional string: present and non-empty. */
  predicate NonEmpty(value: Option<string>) {
    value.Some? && value.value != ""
  }

  /**
   * `build_payload`: the four required fields, then the execution time when
   * it is given (zero included) and each datetime text when it is non-empty.
   */
  method BuildPayload(durationSeconds: real, forceFail: bool, modifiedFilesCount: int, repositoryName: string,
                      executionTimeSeconds: Option<real>, startDatetime: Option<string>, endDatetime: Option<string>)
      returns (payload: Object)
    ensures payload.Keys ==
      RequiredKeys
      + (if executionTimeSeconds.Some? then {"execution_time_seconds"} else {})
      + (if NonEmpty(startDatetime) then {"start_datetime"} else {})
      + (if NonEmpty(endDatetime) then {"end_datetime"} else {})
    ensures RequiredKeys <= payload.Keys
    ensures payload["duration_seconds"] == JFloat(durationSeconds) && payload["force_fail"] == JBool(forceFail)
    ensures payload["modified_files_count"] == JInt(modifiedFilesCount)
    ensures payload["repository_name"] == JString(repositoryName)
    ensures ("execution_time_seconds" in payload) <==> executionTimeSeconds.Some?
    ensures "execution_time_seconds" in payload ==> payload["execution_time_seconds"] == JFloat(executionTimeSeconds.value)
    ensures ("start_datetime" in payload) <==> NonEmpty(startDatetime)
    ensures "start_datetime" in payload ==> payload["start_datetime"] == JString(startDatetime.value)
    ensures ("end_datetime" in payload) <==> NonEmpty(endDatetime)
    ensures "end_datetime" in payload ==> payload["end_datetime"] == JString(endDatetime.value)
  {
    payload := map[
      "duration_seconds" := JFloat(durationSeconds),
      "force_fail" := JBool(forceFail),
      "modified_files_count" := JInt(modifiedFilesCount),
      "repository_name" := JString(repositoryName)];
    if executionTimeSeconds.Some? {
      payload := payload["execution_time_seconds" := JFloat(executionTimeSeconds.value)];
    }
    if startDatetime.Some? && startDatetime.value != "" {
      payload := payload["start_datetime" := JString(startDatetime.value)];
    }
    if endDatetime.Some? && endDatetime.value != "" {
      payload := payload["end_datetime" := JString(endDatetime.value)];
    }
  }

  /** The message of the `RuntimeError` raised when no `curl` is found. */
  const CurlMissingMessage := "No se encontro curl en PATH."

  /**
   * `resolve_curl_binary`: the first of `curl.exe` and `curl` that
   * `shutil.which` finds (a non-empty path); neither raises `RuntimeError`.
   * The two arguments are what `shutil.which` returns for each name.
   */
  function ResolveCurlBinary(whichCurlExe: Option<string>, whichCurl: Option<string>): (r: Result<string, string>)
    ensures r.Success? <==> NonEmpty(whichCurlExe) || NonEmpty(whichCurl)
    ensures NonEmpty(whichCurlExe) ==> r == Success(whichCurlExe.value)
    ensures !NonEmpty(whichCurlExe) && NonEmpty(whichCurl) ==> r == Success(whichCurl.value)
    ensures r.Failure? ==> r.error == CurlMissingMessage
    ensures r.Success? ==> r.value != ""
  {
    if NonEmpty(whichCurlExe) then Success(whichCurlExe.value)
    else if NonEmpty(whichCurl) then Success(whichCurl.value)
    else Failure(CurlMissingMessage)
  }

  /** The `curl` runs made: binary, endpoint and JSON body of each `/tasks/start` post. */
  class CurlOutbox {
    var posted: seq<(string, string, Object)>

    constructor()
      ensures posted == []
    {
      posted := [];
    }

    /**
     * `send_task_notification`: `curl` is looked up first, so without one the
     * `RuntimeError` escapes (`Failure`), even on a dry run; with one, a dry
     * run posts nothing and gives 0, otherwise the request is posted once
     * with the binary found and the exit status is `curl`'s.
     */
    method SendTaskNotification(apiUrl: string, payload: Object, dryRun: bool,
                                whichCurlExe: Option<string>, whichCurl: Option<string>, curlExit: int)
        returns (r: Result<int, string>)
      modifies this
      ensures var binary := ResolveCurlBinary(whichCurlExe, whichCurl);
        && (binary.Failure? ==> r == Failure(CurlMissingMessage) && posted == old(posted))
        && (binary.Success? && dryRun ==> r == Success(0) && posted == old(posted))
        && (binary.Success? && !dryRun ==>
              r == Success(curlExit) && posted == old(posted) + [(binary.value, apiUrl, payload)])
    {
      var binary := ResolveCurlBinary(whichCurlExe, whichCurl);
      if binary.Failure? {
        return Failure(binary.error);
      }
      if dryRun {
        return Success(0);
      }
      posted := posted + [(binary.value, apiUrl, payload)];
      r := Success(curlExit);
    }
  }
}
