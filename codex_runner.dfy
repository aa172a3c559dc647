/**
 * The Codex runner (`scripts/run_codex_and_notify.py`): the exclusion
 * patterns, the difference between two working-tree snapshots, the command
 * line checks made before launching, and the rule that decides when an
 * iteration has settled and is notified. Git, hashing, `fnmatch`, the child
 * process and the clock are not modelled: snapshots, command lookups and
 * clock readings (integer ticks) are parameters.
 */
module CodexRunner {
  import opened Wrappers
  import PyStr
  import Config

  const DefaultExcludePatterns: seq<string> := ["*.log", "*.tmp", "*.temp", ".last_chat_id", ".last_chat_id.tmp"]

  // ---------------------------------------------------------------------------
  // Exclusion patterns and the Codex command
  // ---------------------------------------------------------------------------

  /**
   * `parse_exclude_patterns`: the operational defaults for blank text,
   * otherwise the stripped, non-empty comma-separated parts in order.
   */
  function ParseExcludePatterns(raw: string): (r: seq<string>)
    ensures PyStr.IsBlank(raw) ==> r == DefaultExcludePatterns
  {
    if PyStr.Strip(raw) == "" then DefaultExcludePatterns else Config.ParseCsv(raw)
  }

  /** Every pattern read from the setting is non-empty, stripped and free of commas. */
  lemma {:induction false} ExcludePatternsClean(raw: string)
    ensures var r := ParseExcludePatterns(raw);
      forall i :: 0 <= i < |r| ==> r[i] != "" && PyStr.IsTrimmed(r[i]) && ',' !in r[i]
  {
    if PyStr.Strip(raw) == "" {
      var d := DefaultExcludePatterns;
      assert d[0] == "*.log" && d[1] == "*.tmp" && d[2] == "*.temp" && d[3] == ".last_chat_id" && d[4] == ".last_chat_id.tmp";
    }
  }

  /** Explicit patterns written out with commas are read back as given. */
  lemma {:induction false} ExcludePatternsRoundTrip(patterns: seq<string>)
    requires patterns != []
    requires forall i :: 0 <= i < |patterns| ==> patterns[i] != "" && PyStr.IsTrimmed(patterns[i]) && ',' !in patterns[i]
    ensures ParseExcludePatterns(PyStr.Join(",", patterns)) == patterns
  {
    var raw := PyStr.Join(",", patterns);
    Config.ParseCsvRoundTrip(patterns);
    JoinNotBlank(patterns);
    ExplicitPatterns(raw);
  }

  /** Non-blank text is read exactly as `parse_csv` reads it. */
  lemma {:induction false} ExplicitPatterns(raw: string)
    requires PyStr.Strip(raw) != ""
    ensures ParseExcludePatterns(raw) == Config.ParseCsv(raw)
  {
  }

  /** A comma-joined list whose first part starts with a non-space character is not blank. */
  lemma {:induction false} JoinNotBlank(parts: seq<string>)
    requires parts != [] && parts[0] != "" && PyStr.IsTrimmed(parts[0])
    ensures PyStr.Strip(PyStr.Join(",", parts)) != ""
  {
    var s := PyStr.Join(",", parts);
    assert s != "" && s[0] == parts[0][0];
  }

  /** `normalize_codex_command`: one leading `--` separator is dropped. */
  function NormalizeCodexCommand(parts: seq<string>): (r: seq<string>)
    ensures parts != [] && parts[0] == "--" ==> parts == ["--"] + r
    ensures !(parts != [] && parts[0] == "--") ==> r == parts
  {
    if parts != [] && parts[0] == "--" then parts[1..] else parts
  }

  /** Only one separator is dropped: a second `--` is part of the command. */
  lemma {:induction false} NormalizeDropsOnlyOne(rest: seq<string>)
    ensures NormalizeCodexCommand(["--", "--"] + rest) == ["--"] + rest
  {
    assert (["--", "--"] + rest)[1..] == ["--"] + rest;
  }

  /**
   * `resolve_codex_command`: an explicit command is used as given;
   * otherwise `codex` when it is on the path, else `npx @openai/codex` when
   * `npx` is, else nothing.
   */
  function ResolveCodexCommand(parts: seq<string>, codexOnPath: bool, npxOnPath: bool): (r: seq<string>)
    ensures r == [] <==> parts == [] && !codexOnPath && !npxOnPath
    ensures parts != [] ==> r == parts
    ensures parts == [] && codexOnPath ==> r == ["codex"]
    ensures parts == [] && !codexOnPath && npxOnPath ==> r == ["npx", "@openai/codex"]
  {
    if parts != [] then parts
    else if codexOnPath then ["codex"]
    else if npxOnPath then ["npx", "@openai/codex"]
    else []
  }

  /** The command line options `main` reads, after `argparse` defaults. */
  datatype RunArgs = RunArgs(
    repositoryName: string,
    apiUrl: string,
    durationSeconds: real,
    idleSeconds: real,
    pollIntervalSeconds: real,
    excludePatterns: string,
    codexCommand: seq<string>)

  /** What `main` has settled on when it is about to launch Codex. */
  datatype RunPlan = RunPlan(command: seq<string>, repositoryName: string, apiUrl: string, excludePatterns: seq<string>)

  const DefaultApiUrl: string := "http://127.0.0.1:8000/tasks/start"

  /** The argument checks of `main`, in order; each error ends the run with exit status 2. */
  function ArgumentError(args: RunArgs): (r: Option<string>)
    ensures r.None? <==> args.durationSeconds >= 0.0 && args.idleSeconds > 0.0 && args.pollIntervalSeconds > 0.0
    ensures args.durationSeconds < 0.0 ==> r == Some("ERROR: --duration-seconds no puede ser negativo.")
  {
    if args.durationSeconds < 0.0 then Some("ERROR: --duration-seconds no puede ser negativo.")
    else if args.idleSeconds <= 0.0 then Some("ERROR: --idle-seconds debe ser mayor a 0.")
    else if args.pollIntervalSeconds <= 0.0 then Some("ERROR: --poll-interval-seconds debe ser mayor a 0.")
    else None
  }

  /**
   * `main` up to the launch: invalid arguments give exit status 2 and no
   * command found gives 127, both before anything is started; otherwise
   * the command, repository name, endpoint and patterns to run with.
   */
  function PrepareRun(args: RunArgs, detectedRepository: string, codexOnPath: bool, npxOnPath: bool): (r: Result<RunPlan, int>)
    ensures r == Failure(2) <==> ArgumentError(args).Some?
    ensures r == Failure(127) <==>
      ArgumentError(args).None? && ResolveCodexCommand(NormalizeCodexCommand(args.codexCommand), codexOnPath, npxOnPath) == []
    ensures r.Failure? ==> r.error == 2 || r.error == 127
    ensures r.Success? ==> r.value.command != [] && 0.0 < args.idleSeconds && 0.0 < args.pollIntervalSeconds
    ensures r.Success? ==> r.value.command == ResolveCodexCommand(NormalizeCodexCommand(args.codexCommand), codexOnPath, npxOnPath)
    ensures r.Success? ==> r.value.repositoryName == PyStr.StripOr(args.repositoryName, detectedRepository)
    ensures r.Success? ==> r.value.apiUrl == PyStr.StripOr(args.apiUrl, DefaultApiUrl)
    ensures r.Success? ==> r.value.excludePatterns == ParseExcludePatterns(args.excludePatterns)
  {
    var normalized := NormalizeCodexCommand(args.codexCommand);
    var command := ResolveCodexCommand(normalized, codexOnPath, npxOnPath);
    var repositoryName := PyStr.StripOr(args.repositoryName, detectedRepository);
    var apiUrl := PyStr.StripOr(args.apiUrl, DefaultApiUrl);
    var patterns := ParseExcludePatterns(args.excludePatterns);
    if ArgumentError(args).Some? then Failure(2)
    else if command == [] then Failure(127)
    else Success(RunPlan(command, repositoryName, apiUrl, patterns))
  }

  // ---------------------------------------------------------------------------
  // Snapshot differences
  // ---------------------------------------------------------------------------

  /** A working-tree snapshot: path to content digest (or a missing/unreadable marker). */
  type Snapshot = map<string, string>

  /** `snapshot.get(path)`. */
  function Get(s: Snapshot, path: string): Option<string> {
    if path in s then Some(s[path]) else None
  }

  /** The paths whose entry differs between two snapshots, including added and removed ones. */
  function ChangedPaths(before: Snapshot, after: Snapshot): set<string> {
    set p | p in before.Keys + after.Keys && Get(before, p) != Get(after, p)
  }

  /** Python's `<` on `str`: lexicographic order on code points. */
  predicate Less(a: string, b: string)
    decreases |a|
  {
    if a == [] then b != []
    else if b == [] then false
    else if a[0] != b[0] then a[0] < b[0]
    else Less(a[1..], b[1..])
  }

  lemma {:induction false} LessIrreflexive(a: string)
    ensures !Less(a, a)
    decreases |a|
  {
    if a != [] {
      LessIrreflexive(a[1..]);
    }
  }

  lemma {:induction false} LessTransitive(a: string, b: string, c: string)
    requires Less(a, b) && Less(b, c)
    ensures Less(a, c)
    decreases |a|
  {
    if a != [] && a[0] == b[0] && b[0] == c[0] {
      LessTransitive(a[1..], b[1..], c[1..]);
    }
  }

  lemma {:induction false} LessTotal(a: string, b: string)
    ensures a == b || Less(a, b) || Less(b, a)
    decreases |a|
  {
    if a != [] && b != [] && a[0] == b[0] {
      LessTotal(a[1..], b[1..]);
      assert a == [a[0]] + a[1..] && b == [b[0]] + b[1..];
    }
  }

  /** Increasing, hence without duplicates: the order `sorted` produces on a set. */
  predicate StrictlySorted(s: seq<string>) {
    forall i, j :: 0 <= i < j < |s| ==> Less(s[i], s[j])
  }

  predicate IsMinimum(p: string, s: set<string>) {
    p in s && forall q :: q in s && q != p ==> Less(p, q)
  }

  /** Every non-empty finite set of strings has a least element. */
  lemma {:induction false} MinimumExists(s: set<string>)
    requires s != {}
    ensures exists p :: IsMinimum(p, s)
    decreases s
  {
    var x :| x in s;
    if s == {x} {
      assert IsMinimum(x, s);
    } else {
      MinimumExists(s - {x});
      var m :| IsMinimum(m, s - {x});
      LessTotal(x, m);
      if Less(x, m) {
        forall q | q in s && q != x
          ensures Less(x, q)
        {
          if q != m {
            LessTransitive(x, m, q);
          }
        }
        assert IsMinimum(x, s);
      } else {
        assert IsMinimum(m, s);
      }
    }
  }

  /** Two increasing sequences with the same elements are equal. */
  lemma {:induction false} SortedUnique(a: seq<string>, b: seq<string>)
    requires StrictlySorted(a) && StrictlySorted(b)
    requires forall p :: p in a <==> p in b
    ensures a == b
    decreases |a|
  {
    var elements := set p | p in a;
    SortedCount(a, elements);
    SortedCount(b, elements);
    if a != [] {
      var x, y := a[0], b[0];
      assert x in b && y in a;
      var j :| 0 <= j < |b| && b[j] == x;
      var i :| 0 <= i < |a| && a[i] == y;
      if i != 0 && j != 0 {
        // x < a[i] == y and y < b[j] == x cannot both hold.
        assert Less(x, y) && Less(y, x);
        LessTransitive(x, y, x);
        LessIrreflexive(x);
      }
      forall p
        ensures p in a[1..] <==> p in b[1..]
      {
        if p in a[1..] {
          var k :| 1 <= k < |a| && a[k] == p;
          LessIrreflexive(p);
          assert p != x;
          assert p in b;
        }
        if p in b[1..] {
          var k :| 1 <= k < |b| && b[k] == p;
          LessIrreflexive(p);
          assert p != y;
          assert p in a;
        }
      }
      SortedUnique(a[1..], b[1..]);
    }
  }

  /** The difference is symmetric. */
  lemma {:induction false} ChangedPathsSymmetric(before: Snapshot, after: Snapshot)
    ensures ChangedPaths(before, after) == ChangedPaths(after, before)
  {
  }

  /** No path differs exactly when the two snapshots are equal. */
  lemma {:induction false} NoChangesIffEqual(before: Snapshot, after: Snapshot)
    ensures ChangedPaths(before, after) == {} <==> before == after
  {
    if ChangedPaths(before, after) == {} {
      forall p | p in before.Keys + after.Keys
        ensures Get(before, p) == Get(after, p)
      {
        assert p !in ChangedPaths(before, after);
      }
      assert before.Keys == after.Keys;
    }
  }

  /**
   * `get_changed_files`: the union of both snapshots' paths is walked in
   * sorted order and every path whose entry differs is appended.
   */
  method GetChangedFiles(before: Snapshot, after: Snapshot) returns (changed: seq<string>)
    ensures StrictlySorted(changed)
    ensures forall p :: p in changed <==> p in ChangedPaths(before, after)
    ensures changed == [] <==> before == after
  {
    var remaining := before.Keys + after.Keys;
    changed := [];
    while remaining != {}
      invariant remaining <= before.Keys + after.Keys
      invariant StrictlySorted(changed)
      invariant forall p :: p in changed ==> p in ChangedPaths(before, after) && p !in remaining
      invariant forall p :: p in ChangedPaths(before, after) && p !in remaining ==> p in changed
      invariant forall i, q :: 0 <= i < |changed| && q in remaining ==> Less(changed[i], q)
      decreases remaining
    {
      MinimumExists(remaining);
      var path :| IsMinimum(path, remaining);
      if Get(before, path) != Get(after, path) {
        changed := changed + [path];
      }
      remaining := remaining - {path};
    }
    NoChangesIffEqual(before, after);
    if changed == [] {
      assert forall p :: p !in ChangedPaths(before, after);
    } else {
      assert changed[0] in ChangedPaths(before, after);
    }
  }

  /** `get_changed_files(a, b) == get_changed_files(b, a)`. */
  method ChangedFilesSymmetric(before: Snapshot, after: Snapshot) returns (forward: seq<string>, backward: seq<string>)
    ensures forward == backward
  {
    forward := GetChangedFiles(before, after);
    backward := GetChangedFiles(after, before);
    ChangedPathsSymmetric(before, after);
    SortedUnique(forward, backward);
  }

  // ---------------------------------------------------------------------------
  // Iteration stability
  // ---------------------------------------------------------------------------

  /** An iteration is notified once something changed and nothing moved for the idle period. */
  predicate IsIterationStable(changedCount: nat, idleElapsed: int, idleTicks: int) {
    changedCount > 0 && idleElapsed >= idleTicks
  }

  /**
   * The state of the polling loop in `main`: the snapshot notified last
   * (the baseline), the snapshot seen last, when it last changed, and how
   * many iterations were notified.
   */
  class IterationMonitor {
    var baseline: Option<Snapshot>
    var lastSeen: Option<Snapshot>
    var lastChangeTick: int
    var notifiedTurns: nat
    const idleTicks: int

    constructor(baseline: Option<Snapshot>, now: int, idleTicks: int)
      ensures this.baseline == baseline && lastSeen == baseline
      ensures lastChangeTick == now && notifiedTurns == 0 && this.idleTicks == idleTicks
    {
      this.baseline := baseline;
      lastSeen := baseline;
      lastChangeTick := now;
      notifiedTurns := 0;
      this.idleTicks := idleTicks;
    }

    /**
     * One pass of the loop with the snapshot `current` taken at tick `now`
     * (`None` when git failed). A git failure on either side skips the
     * sample in both `--on-git-error` modes. A notification carries the
     * number of changed files, and afterwards the baseline is the current
     * snapshot.
     */
    method Sample(current: Option<Snapshot>, now: int) returns (notified: Option<nat>)
      modifies this
      ensures old(baseline).None? || current.None? ==>
        notified.None? && baseline == old(baseline) && lastSeen == old(lastSeen)
        && lastChangeTick == old(lastChangeTick) && notifiedTurns == old(notifiedTurns)
      ensures old(baseline).Some? && current.Some? ==>
        var changeTick := if old(lastSeen) != current then now else old(lastChangeTick);
        var count := |ChangedPaths(old(baseline).value, current.value)|;
        var stable := IsIterationStable(count, now - changeTick, idleTicks);
        && notified == (if stable then Some(count) else None)
        && baseline == (if stable then current else old(baseline))
        && lastSeen == current
        && lastChangeTick == (if stable then now else changeTick)
        && notifiedTurns == old(notifiedTurns) + (if stable then 1 else 0)
      ensures idleTicks > 0 && current.Some? && old(lastSeen) != current ==> notified.None?
      ensures notified.Some? ==> notified.value > 0 && baseline == current
    {
      notified := None;
      if baseline.None? || current.None? {
        return;
      }
      if lastSeen.None? || current != lastSeen {
        lastChangeTick := now;
        lastSeen := current;
      }
      var changedFiles := GetChangedFiles(baseline.value, current.value);
      SortedCount(changedFiles, ChangedPaths(baseline.value, current.value));
      var changedCount := |changedFiles|;
      var idleElapsed := now - lastChangeTick;
      if IsIterationStable(changedCount, idleElapsed, idleTicks) {
        notified := Some(changedCount);
        baseline := current;
        lastSeen := current;
        lastChangeTick := now;
        notifiedTurns := notifiedTurns + 1;
      }
    }
  }

  /** A sequence without duplicates listing exactly a set has its size. */
  lemma {:induction false} SortedCount(s: seq<string>, paths: set<string>)
    requires StrictlySorted(s)
    requires forall p :: p in s <==> p in paths
    ensures |s| == |paths|
    decreases |s|
  {
    if s == [] {
      assert forall p :: p !in paths;
    } else {
      forall p
        ensures p in s[1..] <==> p in paths - {s[0]}
      {
        if p in s[1..] {
          var i :| 1 <= i < |s| && s[i] == p;
          assert Less(s[0], p);
          LessIrreflexive(p);
        }
        if p in paths - {s[0]} {
          assert p in s;
          var i :| 0 <= i < |s| && s[i] == p;
          assert i != 0;
          assert p == s[1..][i - 1];
        }
      }
      SortedCount(s[1..], paths - {s[0]});
    }
  }

  /** The snapshot just notified holds no changes against itself, so the next identical sample reports none. */
  lemma {:induction false} NotifiedBaselineIsClean(current: Snapshot)
    ensures ChangedPaths(current, current) == {}
  {
    NoChangesIffEqual(current, current);
  }
}
