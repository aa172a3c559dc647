/**
 * The commit-proposal notifier (`scripts/notify_task.py`): its own
 * `build_payload` and the checks `main` makes before posting. Its
 * `send_task_notification`, `resolve_curl_binary` and `detect_repository_name`
 * are the same code as the shared ones and are modelled in `NotifyCommon`.
 */
module NotifyTask {
  import opened Wrappers
  import opened JsonValue
  import PyStr
  import NotifyCommon

  const RequiredKeys: set<string> := {"duration_seconds", "force_fail", "commit_proposal", "repository_name"}

  /** `build_payload`: the four required fields and the execution time when it is given. */
  method BuildPayload(durationSeconds: real, forceFail: bool, commitProposal: string, repositoryName: string,
                      executionTimeSeconds: Option<real>)
      returns (payload: Object)
    ensures payload.Keys == RequiredKeys + (if executionTimeSeconds.Some? then {"execution_time_seconds"} else {})
    ensures RequiredKeys <= payload.Keys
    ensures payload["duration_seconds"] == JFloat(durationSeconds) && payload["force_fail"] == JBool(forceFail)
    ensures payload["commit_proposal"] == JString(commitProposal)
    ensures payload["repository_name"] == JString(repositoryName)
    ensures ("execution_time_seconds" in payload) <==> executionTimeSeconds.Some?
    ensures "execution_time_seconds" in payload ==> payload["execution_time_seconds"] == JFloat(executionTimeSeconds.value)
  {
    payload := map[
      "duration_seconds" := JFloat(durationSeconds),
      "force_fail" := JBool(forceFail),
      "commit_proposal" := JString(commitProposal),
      "repository_name" := JString(repositoryName)];
    if executionTimeSeconds.Some? {
      payload := payload["execution_time_seconds" := JFloat(executionTimeSeconds.value)];
    }
  }

  /** The command line of the script, after `argparse` defaults. */
  datatype NotifyArgs = NotifyArgs(
    apiUrl: string,
    commitProposal: string,
    repositoryName: string,
    executionTimeSeconds: Option<real>,
    durationSeconds: real,
    forceFail: bool,
    dryRun: bool)

  /**
   * `main`: a commit proposal that is blank after stripping ends the script
   * with exit status 2 before anything is posted. Otherwise, with no `curl`
   * on the path the `RuntimeError` escapes (`Failure`) and nothing is posted,
   * dry run or not; with one, the stripped proposal is posted once (unless it
   * is a dry run), under the stripped `--repository-name` when that is not
   * blank and the detected name otherwise.
   */
  method NotifyTaskMain(args: NotifyArgs, detectedRepository: string, outbox: NotifyCommon.CurlOutbox,
                        whichCurlExe: Option<string>, whichCurl: Option<string>, curlExit: int)
      returns (r: Result<int, string>)
    modifies outbox
    ensures PyStr.IsBlank(args.commitProposal) ==> r == Success(2) && outbox.posted == old(outbox.posted)
    ensures var binary := NotifyCommon.ResolveCurlBinary(whichCurlExe, whichCurl);
      !PyStr.IsBlank(args.commitProposal) && binary.Failure? ==>
        r == Failure(NotifyCommon.CurlMissingMessage) && outbox.posted == old(outbox.posted)
    ensures var binary := NotifyCommon.ResolveCurlBinary(whichCurlExe, whichCurl);
      !PyStr.IsBlank(args.commitProposal) && binary.Success? && args.dryRun ==>
        r == Success(0) && outbox.posted == old(outbox.posted)
    ensures var binary := NotifyCommon.ResolveCurlBinary(whichCurlExe, whichCurl);
      !PyStr.IsBlank(args.commitProposal) && binary.Success? && !args.dryRun ==>
        && r == Success(curlExit)
        && |outbox.posted| == |old(outbox.posted)| + 1
        && outbox.posted[..|old(outbox.posted)|] == old(outbox.posted)
    ensures var binary := NotifyCommon.ResolveCurlBinary(whichCurlExe, whichCurl);
      !PyStr.IsBlank(args.commitProposal) && binary.Success? && !args.dryRun ==>
        var (curl, url, body) := outbox.posted[|outbox.posted| - 1];
        && curl == binary.value
        && url == args.apiUrl
        && body.Keys == RequiredKeys + (if args.executionTimeSeconds.Some? then {"execution_time_seconds"} else {})
        && body["commit_proposal"] == JString(PyStr.Strip(args.commitProposal))
        && body["repository_name"] == JString(PyStr.StripOr(args.repositoryName, detectedRepository))
        && body["force_fail"] == JBool(args.forceFail)
  {
    var commitProposal := PyStr.Strip(args.commitProposal);
    if commitProposal == "" {
      return Success(2);
    }
    var repositoryName := PyStr.StripOr(args.repositoryName, detectedRepository);
    var payload := BuildPayload(args.durationSeconds, args.forceFail, commitProposal, repositoryName,
                                args.executionTimeSeconds);
    r := outbox.SendTaskNotification(args.apiUrl, payload, args.dryRun, whichCurlExe, whichCurl, curlExit);
  }
}
