/**
 * The settings helpers of the service (`src/shared/config.py`): the
 * environment-variable parsers, the `.env` loader and the start-up
 * validation of the critical settings.
 */
module Config {
  import opened Wrappers
  import PyStr
  import Decimal

  // ---------------------------------------------------------------------------
  // Parsers of single environment values
  // ---------------------------------------------------------------------------

  const TrueWords: set<string> := {"1", "true", "yes", "y", "on"}
  const FalseWords: set<string> := {"0", "false", "no", "n", "off"}

  /** No word reads both as true and as false. */
  lemma {:induction false} WordsDisjoint()
    ensures TrueWords !! FalseWords
  {
  }

  /**
   * `parse_bool`: the stripped, lower-cased text decides; a blank or
   * unrecognised value gives the default.
   */
  function ParseBool(value: string, default: bool): (r: bool)
    ensures PyStr.IsBlank(value) ==> r == default
    ensures PyStr.Lower(PyStr.Strip(value)) in TrueWords ==> r
    ensures PyStr.Lower(PyStr.Strip(value)) in FalseWords ==> !r
    ensures r != default ==> PyStr.Lower(PyStr.Strip(value)) in (if r then TrueWords else FalseWords)
  {
    var text := PyStr.Lower(PyStr.Strip(value));
    WordsDisjoint();
    if text == "" then default
    else if text in TrueWords then true
    else if text in FalseWords then false
    else default
  }

  /** The letter case of the value does not matter. */
  lemma {:induction false} ParseBoolIgnoresCase(value: string, default: bool)
    ensures ParseBool(PyStr.Lower(value), default) == ParseBool(value, default)
  {
    var t := PyStr.Strip(value);
    PyStr.LowerStripCommute(value);
    PyStr.LowerIdempotent(t);
    assert PyStr.Lower(PyStr.Strip(PyStr.Lower(value))) == PyStr.Lower(t);
  }

  /** Whitespace around the value does not matter. */
  lemma {:induction false} ParseBoolIgnoresSpace(value: string, default: bool)
    ensures ParseBool(PyStr.Strip(value), default) == ParseBool(value, default)
  {
    PyStr.StripIdempotent(value);
  }

  /** On a word without surrounding whitespace, the lower-cased word alone decides. */
  lemma {:induction false} ParseBoolOfWord(word: string, default: bool)
    requires word != "" && PyStr.IsTrimmed(word)
    ensures ParseBool(word, default) ==
      (if PyStr.Lower(word) in TrueWords then true else if PyStr.Lower(word) in FalseWords then false else default)
  {
    PyStr.StripTrimmed(word);
  }

  /** The repository's example of an unknown word: the default is kept. */
  lemma {:induction false} ParseBoolExamples()
    ensures !ParseBool("invalid", false)
  {
    var word := "invalid";
    ParseBoolOfWord(word, false);
    assert PyStr.Lower(word) == word by {
      forall i | 0 <= i < |word| ensures !('A' <= word[i] <= 'Z') {
        assert 'a' <= word[i] <= 'z';
      }
      PyStr.LowerKeepsLowerCase(word);
    }
    assert word !in TrueWords + FalseWords by {
      assert |word| == 7;
    }
  }

  /** Words are recognised whatever their case. */
  lemma {:induction false} ParseBoolUpperCaseExample()
    ensures ParseBool("ON", false)
  {
    var word := "ON";
    ParseBoolOfWord(word, false);
    assert PyStr.Lower(word) == "on" by {
      var l := PyStr.Lower(word);
      assert |l| == 2 && l[0] == PyStr.LowerChar('O') && l[1] == PyStr.LowerChar('N');
    }
  }

  /** `parse_int`: the integer `int()` reads from the value, else the default. */
  function ParseIntOr(value: string, default: int): (r: int)
    ensures r == Decimal.ParseInt(value).GetOr(default)
  {
    var text := PyStr.Strip(value);
    Decimal.ParseIntIgnoresSurroundingSpace(value);
    if text == "" then default
    else match Decimal.ParseInt(text)
      case Some(n) => n
      case None => default
  }

  /** `parse_optional_int`: the integer `int()` reads from the value, else `None`. */
  function ParseOptionalInt(value: string): (r: Option<int>)
    ensures r == Decimal.ParseInt(value)
  {
    var text := PyStr.Strip(value);
    Decimal.ParseIntIgnoresSurroundingSpace(value);
    if text == "" then None
    else Decimal.ParseInt(text)
  }

  /** The two integer parsers agree: the default is used exactly where the optional one gives `None`. */
  lemma {:induction false} ParseIntParsersAgree(value: string, default: int)
    ensures ParseIntOr(value, default) == ParseOptionalInt(value).GetOr(default)
    ensures PyStr.IsBlank(value) ==> ParseOptionalInt(value) == None
  {
    Decimal.ParseIntIgnoresSurroundingSpace(value);
  }

  /** Every integer written out by `str` is read back by both parsers. */
  lemma {:induction false} ParseIntOrRoundTrip(n: int, default: int)
    ensures ParseIntOr(Decimal.IntToString(n), default) == n
    ensures ParseOptionalInt(Decimal.IntToString(n)) == Some(n)
  {
    Decimal.ParseIntRoundTrip(n);
  }

  /** The repository's examples: blank and non-numeric text. */
  lemma {:induction false} ParseIntExamples()
    ensures ParseIntOr("", 8) == 8
    ensures ParseIntOr("abc", 8) == 8
  {
    Decimal.ParseIntRejectsNonDigit("abc");
    ParseIntParsersAgree("abc", 8);
    ParseIntParsersAgree("", 8);
  }

  /** A blank or non-numeric optional integer is absent. */
  lemma {:induction false} ParseOptionalIntExamples()
    ensures ParseOptionalInt("") == None
    ensures ParseOptionalInt("nan") == None
  {
    Decimal.ParseIntRejectsNonDigit("nan");
    ParseIntParsersAgree("", 0);
  }

  /** The stripped, non-empty items of a list of parts, in order. */
  function KeepItems(parts: seq<string>): (r: seq<string>)
    ensures |r| <= |parts|
    ensures forall i :: 0 <= i < |r| ==> r[i] != "" && PyStr.IsTrimmed(r[i])
  {
    if parts == [] then []
    else
      var item := PyStr.Strip(parts[0]);
      var rest := KeepItems(parts[1..]);
      if item == "" then rest else [item] + rest
  }

  /** `parse_csv`: the comma-separated items, stripped, with the empty ones dropped. */
  function ParseCsv(value: string): (r: seq<string>)
    ensures forall i :: 0 <= i < |r| ==> r[i] != "" && PyStr.IsTrimmed(r[i]) && ',' !in r[i]
  {
    var parts := PyStr.Split(value, ',');
    KeepItemsWithout(parts, ',');
    KeepItems(parts)
  }

  /** A character absent from every part is absent from every kept item. */
  lemma {:induction false} KeepItemsWithout(parts: seq<string>, c: char)
    requires forall i :: 0 <= i < |parts| ==> c !in parts[i]
    ensures forall i :: 0 <= i < |KeepItems(parts)| ==> c !in KeepItems(parts)[i]
    decreases |parts|
  {
    if parts != [] {
      var item, rest := PyStr.Strip(parts[0]), KeepItems(parts[1..]);
      PyStr.StripHasNo(parts[0], c);
      KeepItemsWithout(parts[1..], c);
      if item != "" {
        var kept := KeepItems(parts);
        assert kept == [item] + rest;
        forall i | 0 <= i < |kept| ensures c !in kept[i] {
          if i > 0 {
            assert kept[i] == rest[i - 1];
          }
        }
      }
    }
  }

  /** Items that are already clean are all kept, unchanged. */
  lemma {:induction false} KeepCleanItems(items: seq<string>)
    requires forall i :: 0 <= i < |items| ==> items[i] != "" && PyStr.IsTrimmed(items[i])
    ensures KeepItems(items) == items
    decreases |items|
  {
    if items != [] {
      PyStr.StripTrimmed(items[0]);
      KeepCleanItems(items[1..]);
    }
  }

  /**
   * Writing clean items out with commas and parsing them gives them back:
   * `parse_csv(",".join(items)) == items`.
   */
  lemma {:induction false} ParseCsvRoundTrip(items: seq<string>)
    requires forall i :: 0 <= i < |items| ==> items[i] != "" && PyStr.IsTrimmed(items[i]) && ',' !in items[i]
    ensures ParseCsv(PyStr.Join(",", items)) == items
  {
    if items == [] {
      assert PyStr.Split("", ',') == [""];
      assert PyStr.Strip("") == "";
    } else {
      PyStr.SplitJoin(items, ',');
      KeepCleanItems(items);
    }
  }

  /** Parsing is idempotent: re-joining a parsed list and parsing it again changes nothing. */
  lemma {:induction false} ParseCsvIdempotent(value: string)
    ensures ParseCsv(PyStr.Join(",", ParseCsv(value))) == ParseCsv(value)
  {
    ParseCsvRoundTrip(ParseCsv(value));
  }

  // ---------------------------------------------------------------------------
  // The `.env` loader
  // ---------------------------------------------------------------------------

  /** One `KEY=value` line of a `.env` file, after stripping. */
  datatype EnvAssignment = EnvAssignment(key: string, value: string)

  /**
   * One line of a `.env` file: blank lines, `#` comments and lines without
   * `=` are skipped; otherwise the line is split at its first `=`, the key
   * is stripped, and the value is stripped and then loses any surrounding
   * double and then single quotes.
   */
  function ParseEnvLine(raw: string): (r: Option<EnvAssignment>)
    ensures r.Some? ==> PyStr.IsTrimmed(r.value.key) && '=' !in r.value.key
    ensures r.Some? ==> r.value.value == [] || (r.value.value[0] != '\'' && r.value.value[|r.value.value| - 1] != '\'')
  {
    var line := PyStr.Strip(raw);
    if line == "" || line[0] == '#' || '=' !in line then None
    else
      PyStr.StripKeeps(raw, '=');
      var parts := PyStr.SplitOnce(line, '=');
      PyStr.StripHasNo(parts.0, '=');
      var key := PyStr.Strip(parts.0);
      var value := PyStr.StripChar(PyStr.StripChar(PyStr.Strip(parts.1), '"'), '\'');
      Some(EnvAssignment(key, value))
  }

  /**
   * What a setting line assigns, in terms of the raw line: the key is the
   * stripped text before its first `=`, the value the stripped text after it
   * with double quotes and then single quotes removed from both ends (so
   * `x='"v"'` assigns `"v"`).
   */
  lemma {:induction false} AssignmentFromRawLine(raw: string)
    requires ParseEnvLine(raw).Some?
    ensures '=' in raw
    ensures var (before, after) := PyStr.SplitOnce(raw, '=');
      && ParseEnvLine(raw).value.key == PyStr.Strip(before)
      && ParseEnvLine(raw).value.value == PyStr.StripChar(PyStr.StripChar(PyStr.Strip(after), '"'), '\'')
  {
    PyStr.StripKeeps(raw, '=');
    PyStr.SplitOnceOfStrip(raw, '=');
  }

  /** Exactly the blank lines, the `#` comments and the lines without `=` set nothing. */
  lemma {:induction false} SkippedLines(raw: string)
    ensures ParseEnvLine(raw).None? <==>
      PyStr.IsBlank(raw) || PyStr.StartsWith(PyStr.Strip(raw), "#") || '=' !in raw
  {
    var line := PyStr.Strip(raw);
    assert PyStr.StartsWith(line, "#") <==> line != "" && line[0] == '#';
    EqualsSurvivesStrip(raw);
  }

  /** An `=` is in the stripped line exactly when it is in the raw one. */
  lemma {:induction false} EqualsSurvivesStrip(raw: string)
    ensures ('=' in PyStr.Strip(raw)) <==> ('=' in raw)
  {
    if '=' in PyStr.Strip(raw) {
      PyStr.StripKeeps(raw, '=');
    } else if '=' in raw {
      assert !PyStr.IsSpace('=');
      PyStr.StripKeepsNonSpace(raw, '=');
    }
  }

  /** A value that survives `.strip().strip('"').strip("'")` unchanged. */
  predicate PlainValue(value: string) {
    PyStr.IsTrimmed(value) && (value == [] || (value[0] !in "\"'" && value[|value| - 1] !in "\"'"))
  }

  /**
   * Writing an assignment out as `key=value` and reading the line back gives
   * the same key and value, whenever the key is a real one (trimmed,
   * non-empty, no `=`, not a comment) and the value is plain.
   */
  lemma {:induction false} AssignmentLineRoundTrip(key: string, value: string)
    requires key != "" && PyStr.IsTrimmed(key) && '=' !in key && key[0] != '#'
    requires PlainValue(value)
    ensures ParseEnvLine(key + "=" + value) == Some(EnvAssignment(key, value))
  {
    var line := key + "=" + value;
    AssignmentLineTrimmed(key, value);
    AssignmentLineSplits(key, value);
    PyStr.StripTrimmed(key);
    PlainValueKept(value);
    assert line[0] == key[0];
  }

  lemma {:induction false} AssignmentLineTrimmed(key: string, value: string)
    requires key != "" && PyStr.IsTrimmed(key) && PyStr.IsTrimmed(value)
    ensures PyStr.Strip(key + "=" + value) == key + "=" + value
  {
    var line := key + "=" + value;
    assert line[0] == key[0];
    assert line[|line| - 1] == if value == [] then '=' else value[|value| - 1];
    PyStr.StripTrimmed(line);
  }

  lemma {:induction false} AssignmentLineSplits(key: string, value: string)
    requires '=' !in key
    ensures '=' in key + "=" + value && PyStr.SplitOnce(key + "=" + value, '=') == (key, value)
  {
    var line := key + "=" + value;
    assert line[|key|] == '=';
    PyStr.IndexOfAfterPrefix(key, '=', value);
    assert line[..|key|] == key && line[|key| + 1..] == value;
  }

  /** A plain value survives the stripping of whitespace and quotes. */
  lemma {:induction false} PlainValueKept(value: string)
    requires PlainValue(value)
    ensures PyStr.StripChar(PyStr.StripChar(PyStr.Strip(value), '"'), '\'') == value
  {
    PyStr.StripTrimmed(value);
    PyStr.StripCharNoop(value, '"');
    PyStr.StripCharNoop(value, '\'');
  }

  /** Every line of a file, parsed. */
  function ParseLines(lines: seq<string>): (r: seq<Option<EnvAssignment>>)
    ensures |r| == |lines|
    ensures forall j :: 0 <= j < |lines| ==> r[j] == ParseEnvLine(lines[j])
  {
    if lines == [] then [] else [ParseEnvLine(lines[0])] + ParseLines(lines[1..])
  }

  /** The `.env` file as `load_env_file` finds it. */
  datatype EnvFile = Missing | Unreadable | Readable(content: string)

  /** The exception `read_text` raises on an unreadable or undecodable file. */
  datatype EnvFileError = EnvFileUnreadable

  /** The environment and the keys loaded so far. */
  datatype EnvLoad = EnvLoad(vars: map<string, string>, loaded: seq<string>)

  /** One line's effect: a non-empty key not yet in the environment is set and recorded. */
  function LoadStep(state: EnvLoad, entry: Option<EnvAssignment>): EnvLoad {
    match entry
    case None => state
    case Some(a) =>
      if a.key != "" && a.key !in state.vars then EnvLoad(state.vars[a.key := a.value], state.loaded + [a.key])
      else state
  }

  /** The effect of the parsed lines of a file, in order, on an environment. */
  function LoadEntries(vars: map<string, string>, entries: seq<Option<EnvAssignment>>): EnvLoad
    decreases |entries|
  {
    if entries == [] then EnvLoad(vars, [])
    else LoadStep(LoadEntries(vars, entries[..|entries| - 1]), entries[|entries| - 1])
  }

  /** Whether a parsed line assigns `key`. */
  predicate DefinesKey(entry: Option<EnvAssignment>, key: string) {
    entry.Some? && entry.value.key == key
  }

  /** The line a variable was loaded from: the first one that defines it. */
  ghost predicate LoadedFromFirst(entries: seq<Option<EnvAssignment>>, key: string, value: string) {
    exists j :: 0 <= j < |entries| && entries[j] == Some(EnvAssignment(key, value))
                && forall j' :: 0 <= j' < j ==> !DefinesKey(entries[j'], key)
  }

  /**
   * Loading never overwrites: every variable already set keeps its value,
   * and the loaded keys are exactly the new variables, none of them empty,
   * each loaded once.
   */
  lemma {:induction false} LoadNeverOverwrites(vars: map<string, string>, entries: seq<Option<EnvAssignment>>)
    ensures var r := LoadEntries(vars, entries);
      && (forall k :: k in vars ==> k in r.vars && r.vars[k] == vars[k])
      && r.vars.Keys == vars.Keys + (set k | k in r.loaded)
      && (forall i :: 0 <= i < |r.loaded| ==> r.loaded[i] != "" && r.loaded[i] !in vars)
      && (forall i, j :: 0 <= i < j < |r.loaded| ==> r.loaded[i] != r.loaded[j])
    decreases |entries|
  {
    if entries != [] {
      var prefix := entries[..|entries| - 1];
      LoadNeverOverwrites(vars, prefix);
      var p := LoadEntries(vars, prefix);
      var a := entries[|entries| - 1];
      if a.Some? && a.value.key != "" && a.value.key !in p.vars {
        var k := a.value.key;
        var r := LoadEntries(vars, entries);
        assert r == EnvLoad(p.vars[k := a.value.value], p.loaded + [k]);
        assert (set x | x in r.loaded) == (set x | x in p.loaded) + {k};
        forall i, j | 0 <= i < j < |r.loaded|
          ensures r.loaded[i] != r.loaded[j]
        {
          if j == |p.loaded| {
            assert r.loaded[i] == p.loaded[i] && p.loaded[i] in p.vars;
          }
        }
      }
    }
  }

  /** Every line that assigns a non-empty key leaves that key set, by it or by an earlier definition. */
  lemma {:induction false} LoadCoversEntries(vars: map<string, string>, entries: seq<Option<EnvAssignment>>)
    ensures forall j :: 0 <= j < |entries| && entries[j].Some? && entries[j].value.key != "" ==>
      entries[j].value.key in LoadEntries(vars, entries).vars
    decreases |entries|
  {
    if entries != [] {
      var prefix := entries[..|entries| - 1];
      LoadCoversEntries(vars, prefix);
      assert forall j :: 0 <= j < |prefix| ==> prefix[j] == entries[j];
    }
  }

  /** A loaded variable holds the value of the first line of the file that defines it. */
  lemma {:induction false} FirstDefinitionWins(vars: map<string, string>, entries: seq<Option<EnvAssignment>>)
    ensures var r := LoadEntries(vars, entries);
      forall k :: k in r.loaded ==> k in r.vars && LoadedFromFirst(entries, k, r.vars[k])
    decreases |entries|
  {
    if entries != [] {
      var n := |entries| - 1;
      var prefix := entries[..n];
      FirstDefinitionWins(vars, prefix);
      LoadNeverOverwrites(vars, prefix);
      LoadNeverOverwrites(vars, entries);
      var p := LoadEntries(vars, prefix);
      var r := LoadEntries(vars, entries);
      assert forall j :: 0 <= j < n ==> prefix[j] == entries[j];
      forall k | k in r.loaded
        ensures LoadedFromFirst(entries, k, r.vars[k])
      {
        if k in p.loaded {
          var j :| 0 <= j < n && prefix[j] == Some(EnvAssignment(k, p.vars[k]))
                   && forall j' :: 0 <= j' < j ==> !DefinesKey(prefix[j'], k);
          assert r.vars[k] == p.vars[k];
          assert entries[j] == Some(EnvAssignment(k, r.vars[k]));
        } else {
          LoadCoversEntries(vars, prefix);
          assert entries[n] == Some(EnvAssignment(k, r.vars[k]));
          assert k !in p.vars;
          forall j' | 0 <= j' < n
            ensures !DefinesKey(entries[j'], k)
          {
            assert prefix[j'] == entries[j'];
          }
        }
      }
    }
  }

  /**
   * The repository's `.env` test once its four lines are parsed (a comment,
   * a line without `=`, a blank line, then an assignment): only the
   * assignment's key is loaded.
   */
  lemma {:induction false} LoadExample(key: string, value: string)
    requires key != ""
    ensures LoadEntries(map[], [None, None, None, Some(EnvAssignment(key, value))]) ==
      EnvLoad(map[key := value], [key])
  {
    var entries: seq<Option<EnvAssignment>> := [None, None, None, Some(EnvAssignment(key, value))];
    var empty := EnvLoad(map[], []);
    assert entries[..3][..2][..1][..0] == [];
    assert LoadEntries(map[], entries[..3][..2][..1]) == empty;
    assert LoadEntries(map[], entries[..3][..2]) == empty;
    assert LoadEntries(map[], entries[..3]) == empty;
  }

  /** The process environment (`os.environ`), which `load_env_file` fills in. */
  class Environment {
    var vars: map<string, string>

    constructor(vars: map<string, string>)
      ensures this.vars == vars
    {
      this.vars := vars;
    }

    /**
     * `load_env_file`: a missing file sets nothing and gives `[]`; a file
     * `read_text` cannot read (`OSError`, `UnicodeDecodeError`) raises before
     * any line is used (`Failure`); otherwise the keys set are returned, in
     * order.
     */
    method LoadEnvFile(file: EnvFile) returns (r: Result<seq<string>, EnvFileError>)
      modifies this
      ensures file.Missing? ==> r == Success([]) && vars == old(vars)
      ensures file.Unreadable? ==> r == Failure(EnvFileUnreadable) && vars == old(vars)
      ensures file.Readable? ==>
        r.Success? && EnvLoad(vars, r.value) == LoadEntries(old(vars), ParseLines(PyStr.SplitLines(file.content)))
    {
      if file.Missing? {
        return Success([]);
      }
      if file.Unreadable? {
        return Failure(EnvFileUnreadable);
      }
      var loaded: seq<string> := [];
      var lines := PyStr.SplitLines(file.content);
      ghost var entries := ParseLines(lines);
      loaded := [];
      var i := 0;
      while i < |lines|
        invariant 0 <= i <= |lines|
        invariant EnvLoad(vars, loaded) == LoadEntries(old(vars), entries[..i])
      {
        var entry := ParseEnvLine(lines[i]);
        assert LoadEntries(old(vars), entries[..i + 1]) == LoadStep(EnvLoad(vars, loaded), entry) by {
          assert entries[..i + 1][..i] == entries[..i];
          assert entries[..i + 1][i] == entry;
        }
        if entry.Some? && entry.value.key != "" && entry.value.key !in vars {
          vars := vars[entry.value.key := entry.value.value];
          loaded := loaded + [entry.value.key];
        }
        i := i + 1;
      }
      assert entries[..|lines|] == entries;
      r := Success(loaded);
    }
  }

  // ---------------------------------------------------------------------------
  // Start-up validation
  // ---------------------------------------------------------------------------

  /** The settings `validate_startup_settings` looks at. */
  datatype Settings = Settings(
    smtpHost: string,
    smtpPort: int,
    smtpUser: string,
    smtpPass: string,
    smtpFrom: string,
    smtpToDefault: string,
    corsAllowedOrigins: seq<string>,
    appEnv: string,
    proxyHeadersEnabled: bool,
    forwardedAllowIps: string,
    rateLimitWindow: int,
    rateLimitMax: int,
    honeypotField: string)

  /** The critical settings, in the order the error message lists them. */
  const CriticalFields: seq<string> :=
    ["SMTP_HOST", "SMTP_PORT", "SMTP_FROM", "SMTP_TO_DEFAULT",
     "RATE_LIMIT_WINDOW", "RATE_LIMIT_MAX", "HONEYPOT_FIELD", "CORS_ALLOWED_ORIGINS"]

  const ValidEnvs: set<string> := {"development", "staging", "production", "test"}

  const MissingPrefix: string := "Missing or invalid critical settings: "

  /** Whether the critical setting called `name` is missing or invalid. */
  predicate FieldInvalid(s: Settings, name: string) {
    if name == "SMTP_HOST" then s.smtpHost == ""
    else if name == "SMTP_PORT" then s.smtpPort <= 0
    else if name == "SMTP_FROM" then s.smtpFrom == ""
    else if name == "SMTP_TO_DEFAULT" then s.smtpToDefault == ""
    else if name == "RATE_LIMIT_WINDOW" then s.rateLimitWindow <= 0
    else if name == "RATE_LIMIT_MAX" then s.rateLimitMax <= 0
    else if name == "HONEYPOT_FIELD" then s.honeypotField == ""
    else if name == "CORS_ALLOWED_ORIGINS" then s.corsAllowedOrigins == []
    else false
  }

  /** The names among `names` whose setting is invalid, in the order of `names`. */
  function InvalidFields(s: Settings, names: seq<string>): (r: seq<string>)
    ensures forall f :: f in r <==> f in names && FieldInvalid(s, f)
  {
    if names == [] then []
    else (if FieldInvalid(s, names[0]) then [names[0]] else []) + InvalidFields(s, names[1..])
  }

  /** Appending the verdict on one more name extends the list of invalid ones. */
  lemma {:induction false} InvalidFieldsSnoc(s: Settings, names: seq<string>, name: string)
    ensures InvalidFields(s, names + [name]) == InvalidFields(s, names) + (if FieldInvalid(s, name) then [name] else [])
    decreases |names|
  {
    if names != [] {
      assert (names + [name])[1..] == names[1..] + [name];
      InvalidFieldsSnoc(s, names[1..], name);
    } else {
      assert [name][1..] == [];
    }
  }

  /** When no name is invalid, none is listed. */
  lemma {:induction false} NoInvalidFields(s: Settings, names: seq<string>)
    requires forall f :: f in names ==> !FieldInvalid(s, f)
    ensures InvalidFields(s, names) == []
    decreases |names|
  {
    if names != [] {
      assert names[0] in names;
      NoInvalidFields(s, names[1..]);
    }
  }

  /** When every name is invalid, all are listed, in order. */
  lemma {:induction false} AllInvalidFields(s: Settings, names: seq<string>)
    requires forall f :: f in names ==> FieldInvalid(s, f)
    ensures InvalidFields(s, names) == names
    decreases |names|
  {
    if names != [] {
      assert names[0] in names;
      AllInvalidFields(s, names[1..]);
    }
  }

  /** The `missing_fields` list: one check per critical setting, in order. */
  method CollectMissingFields(s: Settings) returns (missing: seq<string>)
    ensures missing == InvalidFields(s, CriticalFields)
    ensures forall f :: f in missing <==> f in CriticalFields && FieldInvalid(s, f)
  {
    missing := [];
    var checked: seq<string> := [];
    var i := 0;
    while i < |CriticalFields|
      invariant 0 <= i <= |CriticalFields|
      invariant checked == CriticalFields[..i]
      invariant missing == InvalidFields(s, checked)
    {
      var name := CriticalFields[i];
      InvalidFieldsSnoc(s, checked, name);
      if FieldInvalid(s, name) {
        missing := missing + [name];
      }
      checked := checked + [name];
      assert CriticalFields[..i + 1] == CriticalFields[..i] + [name];
      i := i + 1;
    }
    assert checked == CriticalFields;
  }

  /** Every condition the service needs before it starts serving. */
  predicate StartupValid(s: Settings) {
    && (forall f :: f in CriticalFields ==> !FieldInvalid(s, f))
    && s.appEnv in ValidEnvs
    && !(s.appEnv == "production" && "*" in s.corsAllowedOrigins)
    && !(s.proxyHeadersEnabled && PyStr.IsBlank(s.forwardedAllowIps))
    && ((s.smtpUser != "") == (s.smtpPass != ""))
  }

  /** The first failed check and its message, in the order the source checks them. */
  function StartupError(s: Settings): (r: Option<string>)
    ensures r.None? <==> StartupValid(s)
  {
    var missing := InvalidFields(s, CriticalFields);
    if missing != [] then
      assert missing[0] in missing;
      Some(MissingPrefix + PyStr.Join(", ", missing))
    else if s.appEnv !in ValidEnvs then Some("APP_ENV invalid: " + s.appEnv)
    else if s.appEnv == "production" && "*" in s.corsAllowedOrigins then Some("CORS wildcard is not allowed in production")
    else if s.proxyHeadersEnabled && PyStr.Strip(s.forwardedAllowIps) == "" then
      Some("FORWARDED_ALLOW_IPS is required when PROXY_HEADERS_ENABLED=true")
    else if (s.smtpUser != "") != (s.smtpPass != "") then Some("SMTP_USER and SMTP_PASS must be both set or both empty")
    else None
  }

  /**
   * `validate_startup_settings`: `Failure` carries the `RuntimeError`
   * message; `Success` means the function returns normally.
   */
  method ValidateStartupSettings(s: Settings) returns (r: Result<(), string>)
    ensures r.Failure? <==> !StartupValid(s)
    ensures r.Failure? ==> Some(r.error) == StartupError(s)
  {
    var missing := CollectMissingFields(s);
    if missing != [] {
      assert missing[0] in missing;
      return Failure(MissingPrefix + PyStr.Join(", ", missing));
    }
    if s.appEnv !in ValidEnvs {
      return Failure("APP_ENV invalid: " + s.appEnv);
    }
    if s.appEnv == "production" && "*" in s.corsAllowedOrigins {
      return Failure("CORS wildcard is not allowed in production");
    }
    if s.proxyHeadersEnabled && PyStr.Strip(s.forwardedAllowIps) == "" {
      return Failure("FORWARDED_ALLOW_IPS is required when PROXY_HEADERS_ENABLED=true");
    }
    if (s.smtpUser != "") != (s.smtpPass != "") {
      return Failure("SMTP_USER and SMTP_PASS must be both set or both empty");
    }
    r := Success(());
  }

  /**
   * Missing critical settings are reported before anything else, all of them
   * at once: the message names exactly the invalid ones, in the fixed order.
   */
  lemma {:induction false} MissingFieldsReportedFirst(s: Settings)
    requires exists f :: f in CriticalFields && FieldInvalid(s, f)
    ensures var m := InvalidFields(s, CriticalFields);
      && m != []
      && StartupError(s) == Some(MissingPrefix + PyStr.Join(", ", m))
      && (forall f :: f in m <==> f in CriticalFields && FieldInvalid(s, f))
  {
    var f :| f in CriticalFields && FieldInvalid(s, f);
    assert f in InvalidFields(s, CriticalFields);
  }

  /** The settings of the repository's validation tests. */
  function BaseSettings(): Settings {
    Settings("smtp.example.com", 587, "", "", "no-reply@example.com", "ops@example.com",
             ["https://datamaq.com.ar"], "development", true, "*", 60, 20, "website")
  }

  /** The repository's validation tests: the base settings pass. */
  lemma {:induction false} BaseSettingsValid()
    ensures StartupError(BaseSettings()) == None
  {
    var b := BaseSettings();
    assert !PyStr.IsBlank(b.forwardedAllowIps) by { assert !PyStr.IsSpace(b.forwardedAllowIps[0]); }
    assert forall f :: f in CriticalFields ==> !FieldInvalid(b, f);
  }

  /** An unknown environment name is rejected with its own message. */
  lemma {:induction false} UnknownAppEnvRejected(env: string)
    requires env !in ValidEnvs
    ensures StartupError(BaseSettings().(appEnv := env)) == Some("APP_ENV invalid: " + env)
  {
    var b := BaseSettings().(appEnv := env);
    assert forall f :: f in CriticalFields ==> !FieldInvalid(b, f);
    NoInvalidFields(b, CriticalFields);
  }

  /** A wildcard among the allowed origins is rejected in production. */
  lemma {:induction false} WildcardCorsRejected(origins: seq<string>)
    requires "*" in origins
    ensures StartupError(BaseSettings().(appEnv := "production", corsAllowedOrigins := origins)) ==
      Some("CORS wildcard is not allowed in production")
  {
    var b := BaseSettings().(appEnv := "production", corsAllowedOrigins := origins);
    assert forall f :: f in CriticalFields ==> !FieldInvalid(b, f);
    NoInvalidFields(b, CriticalFields);
  }

  /** A user name without a password is rejected. */
  lemma {:induction false} PartialSmtpAuthRejected(user: string)
    requires user != ""
    ensures StartupError(BaseSettings().(smtpUser := user)) ==
      Some("SMTP_USER and SMTP_PASS must be both set or both empty")
  {
    var b := BaseSettings().(smtpUser := user);
    assert !PyStr.IsBlank(b.forwardedAllowIps) by { assert !PyStr.IsSpace(b.forwardedAllowIps[0]); }
    assert forall f :: f in CriticalFields ==> !FieldInvalid(b, f);
    NoInvalidFields(b, CriticalFields);
  }

  /** With every critical setting broken, the message lists all eight, in order. */
  lemma {:induction false} AllCriticalFieldsReported(port: int, window: int, max: int)
    requires port <= 0 && window <= 0 && max <= 0
    ensures StartupError(BaseSettings().(smtpHost := "", smtpPort := port, smtpFrom := "", smtpToDefault := "",
                                         rateLimitWindow := window, rateLimitMax := max, honeypotField := "",
                                         corsAllowedOrigins := [])) ==
      Some(MissingPrefix + PyStr.Join(", ", CriticalFields))
  {
    var b := BaseSettings().(smtpHost := "", smtpPort := port, smtpFrom := "", smtpToDefault := "",
                             rateLimitWindow := window, rateLimitMax := max, honeypotField := "", corsAllowedOrigins := []);
    assert forall f :: f in CriticalFields ==> FieldInvalid(b, f);
    AllInvalidFields(b, CriticalFields);
  }
}
