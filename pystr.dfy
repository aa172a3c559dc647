/**
 * The handful of Python `str` operations the repository relies on, with the
 * semantics of CPython: `strip`, `lstrip`, `rstrip` (with and without an
 * argument), `lower` on ASCII letters, `split` on one separator character,
 * `split(sep, 1)`, `splitlines`, `join`, `replace` and `startswith`.
 */
module PyStr {

  /** `str.isspace()` for one character: the exact set CPython treats as whitespace. */
  predicate IsSpace(c: char) {
    || c == ' ' || c == '\t' || c == '\n' || c == '\r'
    || c == '\U{000B}' || c == '\U{000C}'
    || ('\U{001C}' <= c <= '\U{001F}')
    || c == '\U{0085}' || c == '\U{00A0}' || c == '\U{1680}'
    || ('\U{2000}' <= c <= '\U{200A}')
    || c == '\U{2028}' || c == '\U{2029}' || c == '\U{202F}' || c == '\U{205F}' || c == '\U{3000}'
  }

  /** True when every character of `s` is whitespace (so `s.strip()` is empty). */
  predicate IsBlank(s: string) {
    forall i :: 0 <= i < |s| ==> IsSpace(s[i])
  }

  /** `s.lstrip()`: the longest suffix of `s` that does not start with whitespace. */
  function LStrip(s: string): (r: string)
    ensures |r| <= |s|
    ensures r == [] || !IsSpace(r[0])
  {
    if s != [] && IsSpace(s[0]) then LStrip(s[1..]) else s
  }

  /** `lstrip()` removes a prefix. */
  lemma {:induction false} LStripIsSuffix(s: string)
    ensures LStrip(s) == s[|s| - |LStrip(s)|..]
    decreases |s|
  {
    if s != [] && IsSpace(s[0]) {
      LStripIsSuffix(s[1..]);
    }
  }

  /** `rstrip()` removes a suffix. */
  lemma {:induction false} RStripIsPrefix(s: string)
    ensures RStrip(s) == s[..|RStrip(s)|]
    decreases |s|
  {
    if s != [] && IsSpace(s[|s| - 1]) {
      RStripIsPrefix(s[..|s| - 1]);
    }
  }

  /** Everything `lstrip()` removes is whitespace, so it removes everything exactly from a blank string. */
  lemma {:induction false} LStripEmptyIffBlank(s: string)
    ensures LStrip(s) == [] <==> IsBlank(s)
    decreases |s|
  {
    if s != [] && IsSpace(s[0]) {
      LStripEmptyIffBlank(s[1..]);
      if IsBlank(s[1..]) {
        forall i | 0 <= i < |s| ensures IsSpace(s[i]) {
          if i > 0 {
            assert s[i] == s[1..][i - 1];
          }
        }
      }
    }
  }

  /** `s.rstrip()`: the longest prefix of `s` that does not end with whitespace. */
  function RStrip(s: string): (r: string)
    ensures |r| <= |s|
    ensures r == [] || !IsSpace(r[|r| - 1])
  {
    if s != [] && IsSpace(s[|s| - 1]) then RStrip(s[..|s| - 1]) else s
  }

  /** `rstrip()` never removes a first character that is not whitespace. */
  lemma {:induction false} RStripKeepsFirst(s: string)
    ensures s != [] && !IsSpace(s[0]) ==> RStrip(s) != []
    decreases |s|
  {
    if s != [] && !IsSpace(s[0]) && IsSpace(s[|s| - 1]) {
      RStripKeepsFirst(s[..|s| - 1]);
    }
  }

  /** Neither the first nor the last character is whitespace. */
  predicate IsTrimmed(s: string) {
    s == [] || (!IsSpace(s[0]) && !IsSpace(s[|s| - 1]))
  }

  /** `s.strip()`. Empty exactly when `s` is blank; otherwise it neither starts nor ends with whitespace. */
  function Strip(s: string): (r: string)
    ensures r == [] <==> IsBlank(s)
    ensures IsTrimmed(r)
    ensures |r| <= |s|
  {
    var l := LStrip(s);
    LStripEmptyIffBlank(s);
    RStripKeepsFirst(l);
    RStripIsPrefix(l);
    var r := RStrip(l);
    assert r != [] ==> r[0] == l[0];
    r
  }

  /** `value.strip() or fallback`. */
  function StripOr(value: string, fallback: string): (r: string)
    ensures IsBlank(value) ==> r == fallback
    ensures !IsBlank(value) ==> r == Strip(value) && r != "" && IsTrimmed(r)
  {
    var s := Strip(value);
    if s == "" then fallback else s
  }

  /** A string with no whitespace at either end is its own `strip()`. */
  lemma {:induction false} StripTrimmed(s: string)
    requires IsTrimmed(s)
    ensures Strip(s) == s
  {
  }

  /** `strip()` is idempotent. */
  lemma {:induction false} StripIdempotent(s: string)
    ensures Strip(Strip(s)) == Strip(s)
  {
    StripTrimmed(Strip(s));
  }

  /** Leading whitespace does not change `lstrip()`. */
  lemma {:induction false} LStripBlankPrefix(w: string, t: string)
    requires IsBlank(w)
    ensures LStrip(w + t) == LStrip(t)
    decreases |w|
  {
    if w != [] {
      assert (w + t)[0] == w[0] && IsSpace(w[0]);
      assert (w + t)[1..] == w[1..] + t;
      assert IsBlank(w[1..]) by {
        forall i | 0 <= i < |w| - 1 ensures IsSpace(w[1..][i]) {
          assert w[1..][i] == w[i + 1];
        }
      }
      LStripBlankPrefix(w[1..], t);
    } else {
      assert w + t == t;
    }
  }

  /** Trailing whitespace does not change `rstrip()`. */
  lemma {:induction false} RStripBlankSuffix(t: string, w: string)
    requires IsBlank(w)
    ensures RStrip(t + w) == RStrip(t)
    decreases |w|
  {
    if w != [] {
      assert (t + w)[|t + w| - 1] == w[|w| - 1] && IsSpace(w[|w| - 1]);
      assert (t + w)[..|t + w| - 1] == t + w[..|w| - 1];
      var u := w[..|w| - 1];
      assert IsBlank(u) by {
        forall i | 0 <= i < |u| ensures IsSpace(u[i]) {
          assert u[i] == w[i];
        }
      }
      RStripBlankSuffix(t, u);
    } else {
      assert t + w == t;
    }
  }

  /** What `lstrip()` removes is whitespace. */
  lemma {:induction false} LStripRemovesBlank(s: string)
    ensures |LStrip(s)| <= |s| && IsBlank(s[..|s| - |LStrip(s)|])
    decreases |s|
  {
    if s != [] && IsSpace(s[0]) {
      LStripRemovesBlank(s[1..]);
      var n := |s| - |LStrip(s)|;
      forall i | 0 <= i < n ensures IsSpace(s[..n][i]) {
        if i > 0 {
          assert s[..n][i] == s[1..][..n - 1][i - 1];
        }
      }
    }
  }

  /** What `rstrip()` removes is whitespace. */
  lemma {:induction false} RStripRemovesBlank(s: string)
    ensures |RStrip(s)| <= |s| && IsBlank(s[|RStrip(s)|..])
    decreases |s|
  {
    if s != [] && IsSpace(s[|s| - 1]) {
      var t := s[..|s| - 1];
      RStripRemovesBlank(t);
      var n := |RStrip(s)|;
      forall i | 0 <= i < |s| - n ensures IsSpace(s[n..][i]) {
        if n + i < |s| - 1 {
          assert s[n..][i] == t[n..][i];
        }
      }
    }
  }

  /** `s` is `s.strip()` with whitespace on either side. */
  lemma {:induction false} StripPadding(s: string) returns (lead: string, trail: string)
    ensures s == lead + Strip(s) + trail && IsBlank(lead) && IsBlank(trail)
  {
    var l := LStrip(s);
    LStripIsSuffix(s);
    LStripRemovesBlank(s);
    lead := s[..|s| - |l|];
    assert s == lead + l;
    RStripIsPrefix(l);
    RStripRemovesBlank(l);
    trail := l[|RStrip(l)|..];
    assert l == RStrip(l) + trail;
  }

  /** A trimmed string padded with whitespace strips back to itself. */
  lemma {:induction false} StripOfPadded(lead: string, t: string, trail: string)
    requires IsBlank(lead) && IsBlank(trail) && IsTrimmed(t)
    ensures Strip(lead + t + trail) == t
  {
    assert lead + t + trail == lead + (t + trail);
    LStripBlankPrefix(lead, t + trail);
    if t == [] {
      assert t + trail == trail;
      LStripEmptyIffBlank(trail);
    } else {
      assert (t + trail)[0] == t[0];
      RStripBlankSuffix(t, trail);
    }
  }

  /** Extra whitespace around a string does not change its `strip()`. */
  lemma {:induction false} StripIgnoresPadding(lead: string, x: string, trail: string)
    requires IsBlank(lead) && IsBlank(trail)
    ensures Strip(lead + x + trail) == Strip(x)
  {
    var l, t := StripPadding(x);
    var lead2 := lead + l;
    var trail2 := t + trail;
    assert IsBlank(lead2) by {
      forall i | 0 <= i < |lead2| ensures IsSpace(lead2[i]) {
        if i >= |lead| {
          assert lead2[i] == l[i - |lead|];
        }
      }
    }
    assert IsBlank(trail2) by {
      forall i | 0 <= i < |trail2| ensures IsSpace(trail2[i]) {
        if i >= |t| {
          assert trail2[i] == trail[i - |t|];
        }
      }
    }
    assert lead + x + trail == lead2 + Strip(x) + trail2;
    StripOfPadded(lead2, Strip(x), trail2);
  }

  /** Appending a non-whitespace character keeps leading whitespace where it was. */
  lemma {:induction false} LStripAppend(s: string, c: char)
    requires !IsSpace(c)
    ensures LStrip(s + [c]) == LStrip(s) + [c]
    decreases |s|
  {
    if s != [] && IsSpace(s[0]) {
      assert (s + [c])[1..] == s[1..] + [c];
      LStripAppend(s[1..], c);
    }
  }

  /**
   * Appending a non-whitespace character to a string that does not end in
   * whitespace appends it to the stripped string.
   */
  lemma {:induction false} StripAppend(s: string, c: char)
    requires !IsSpace(c) && (s == [] || !IsSpace(s[|s| - 1]))
    ensures Strip(s + [c]) == Strip(s) + [c]
  {
    LStripAppend(s, c);
    LStripIsSuffix(s);
    var l := LStrip(s);
    assert l == [] || l[|l| - 1] == s[|s| - 1];
    assert RStrip(l) == l;
    var l' := l + [c];
    assert l'[..|l'| - 1] == l;
  }

  /** `s.lstrip(c)` for a one-character argument. */
  function LStripChar(s: string, c: char): (r: string)
    ensures |r| <= |s|
    ensures r == [] || r[0] != c
  {
    if s != [] && s[0] == c then LStripChar(s[1..], c) else s
  }

  /** `s.rstrip(c)` for a one-character argument. */
  function RStripChar(s: string, c: char): (r: string)
    ensures |r| <= |s|
    ensures r == [] || r[|r| - 1] != c
  {
    if s != [] && s[|s| - 1] == c then RStripChar(s[..|s| - 1], c) else s
  }

  /** `rstrip(c)` keeps the first character of what it does not empty. */
  lemma {:induction false} RStripCharKeepsFirst(s: string, c: char)
    ensures var r := RStripChar(s, c); r == [] || r[0] == s[0]
  {
    RStripCharIsPrefix(s, c);
  }

  /** `lstrip(c)` removes a prefix. */
  lemma {:induction false} LStripCharIsSuffix(s: string, c: char)
    ensures LStripChar(s, c) == s[|s| - |LStripChar(s, c)|..]
    decreases |s|
  {
    if s != [] && s[0] == c {
      LStripCharIsSuffix(s[1..], c);
    }
  }

  /** `rstrip(c)` removes a suffix. */
  lemma {:induction false} RStripCharIsPrefix(s: string, c: char)
    ensures RStripChar(s, c) == s[..|RStripChar(s, c)|]
    decreases |s|
  {
    if s != [] && s[|s| - 1] == c {
      RStripCharIsPrefix(s[..|s| - 1], c);
    }
  }

  /** Every character of `s.strip()` occurs in `s`. */
  lemma {:induction false} StripKeeps(s: string, c: char)
    requires c in Strip(s)
    ensures c in s
  {
    var l := LStrip(s);
    var r := RStrip(l);
    LStripIsSuffix(s);
    RStripIsPrefix(l);
    var i :| 0 <= i < |r| && r[i] == c;
    assert l[i] == c;
    assert s[|s| - |l| + i] == c;
  }

  /** A character that is not whitespace survives `lstrip()`. */
  lemma {:induction false} LStripKeepsNonSpace(s: string, c: char)
    requires c in s && !IsSpace(c)
    ensures c in LStrip(s)
    decreases |s|
  {
    if s != [] && IsSpace(s[0]) {
      var j :| 0 <= j < |s| && s[j] == c;
      assert s[1..][j - 1] == c;
      LStripKeepsNonSpace(s[1..], c);
    }
  }

  /** A character that is not whitespace survives `rstrip()`. */
  lemma {:induction false} RStripKeepsNonSpace(s: string, c: char)
    requires c in s && !IsSpace(c)
    ensures c in RStrip(s)
    decreases |s|
  {
    if s != [] && IsSpace(s[|s| - 1]) {
      var j :| 0 <= j < |s| && s[j] == c;
      assert s[..|s| - 1][j] == c;
      RStripKeepsNonSpace(s[..|s| - 1], c);
    }
  }

  /** A character that is not whitespace survives `strip()`. */
  lemma {:induction false} StripKeepsNonSpace(s: string, c: char)
    requires c in s && !IsSpace(c)
    ensures c in Strip(s)
  {
    LStripKeepsNonSpace(s, c);
    RStripKeepsNonSpace(LStrip(s), c);
  }

  /** A character absent from `s` is absent from `s.strip()`. */
  lemma {:induction false} StripHasNo(s: string, c: char)
    requires c !in s
    ensures c !in Strip(s)
  {
    if c in Strip(s) {
      StripKeeps(s, c);
    }
  }

  /** `s.strip(c)` for a one-character argument. */
  function StripChar(s: string, c: char): (r: string)
    ensures r == [] || (r[0] != c && r[|r| - 1] != c)
  {
    var l := LStripChar(s, c);
    RStripCharKeepsFirst(l, c);
    RStripChar(l, c)
  }

  /** Stripping a character that is at neither end changes nothing. */
  lemma {:induction false} StripCharNoop(s: string, c: char)
    requires s == [] || (s[0] != c && s[|s| - 1] != c)
    ensures StripChar(s, c) == s
  {
  }

  function LowerChar(c: char): char {
    if 'A' <= c <= 'Z' then (c as int + 32) as char else c
  }

  /** `s.lower()` restricted to ASCII letters; other characters are kept. */
  function Lower(s: string): string {
    seq(|s|, i requires 0 <= i < |s| => LowerChar(s[i]))
  }

  /** A string without upper-case ASCII letters is its own `lower()`. */
  lemma {:induction false} LowerKeepsLowerCase(s: string)
    requires forall i :: 0 <= i < |s| ==> !('A' <= s[i] <= 'Z')
    ensures Lower(s) == s
  {
  }

  /** Lowering twice is lowering once. */
  lemma {:induction false} LowerIdempotent(s: string)
    ensures Lower(Lower(s)) == Lower(s)
  {
  }

  /** Lowering never turns a character into whitespace or whitespace into something else. */
  lemma {:induction false} LowerKeepsSpace(c: char)
    ensures IsSpace(LowerChar(c)) == IsSpace(c)
  {
  }

  lemma {:induction false} LowerLStrip(s: string)
    ensures LStrip(Lower(s)) == Lower(LStrip(s))
    decreases |s|
  {
    if s != [] {
      LowerKeepsSpace(s[0]);
      assert Lower(s)[1..] == Lower(s[1..]);
      LowerLStrip(s[1..]);
    }
  }

  lemma {:induction false} LowerRStrip(s: string)
    ensures RStrip(Lower(s)) == Lower(RStrip(s))
    decreases |s|
  {
    if s != [] {
      LowerKeepsSpace(s[|s| - 1]);
      assert Lower(s)[..|s| - 1] == Lower(s[..|s| - 1]);
      LowerRStrip(s[..|s| - 1]);
    }
  }

  /** `s.lower().strip() == s.strip().lower()`. */
  lemma {:induction false} LowerStripCommute(s: string)
    ensures Strip(Lower(s)) == Lower(Strip(s))
  {
    LowerLStrip(s);
    LowerRStrip(LStrip(s));
  }

  predicate StartsWith(s: string, prefix: string) {
    |prefix| <= |s| && s[..|prefix|] == prefix
  }

  predicate EndsWith(s: string, suffix: string) {
    |suffix| <= |s| && s[|s| - |suffix|..] == suffix
  }

  /** Position of the first occurrence of `c` in `s`. */
  function IndexOf(s: string, c: char): (i: nat)
    requires c in s
    ensures i < |s| && s[i] == c && c !in s[..i]
  {
    if s[0] == c then 0
    else
      var j := IndexOf(s[1..], c);
      assert s[..j + 1] == [s[0]] + s[1..][..j];
      j + 1
  }

  /** `sep.join(parts)`. */
  function Join(sep: string, parts: seq<string>): string {
    if |parts| == 0 then ""
    else if |parts| == 1 then parts[0]
    else parts[0] + sep + Join(sep, parts[1..])
  }

  /** Joining one more part at the end adds the separator and that part. */
  lemma {:induction false} JoinSnoc(sep: string, parts: seq<string>, last: string)
    requires |parts| >= 1
    ensures Join(sep, parts + [last]) == Join(sep, parts) + sep + last
    decreases |parts|
  {
    if |parts| == 1 {
      assert parts + [last] == [parts[0], last];
    } else {
      assert (parts + [last])[1..] == parts[1..] + [last];
      JoinSnoc(sep, parts[1..], last);
    }
  }

  /**
   * `s.split(sep)` for a one-character separator: always at least one part,
   * no part contains the separator, and joining the parts back gives `s`.
   */
  function Split(s: string, sep: char): (parts: seq<string>)
    ensures |parts| >= 1
    ensures forall i :: 0 <= i < |parts| ==> sep !in parts[i]
    ensures Join([sep], parts) == s
    decreases |s|
  {
    if sep !in s then [s]
    else
      var i := IndexOf(s, sep);
      var rest := Split(s[i + 1..], sep);
      assert s == s[..i] + [sep] + s[i + 1..];
      [s[..i]] + rest
  }

  /** The first `c` in `a + [c] + b` is the one after `a` when `a` has none. */
  lemma {:induction false} IndexOfAfterPrefix(a: string, c: char, b: string)
    requires c !in a
    ensures IndexOf(a + [c] + b, c) == |a|
    decreases |a|
  {
    var s := a + [c] + b;
    if a != [] {
      assert s[1..] == a[1..] + [c] + b;
      IndexOfAfterPrefix(a[1..], c, b);
    }
  }

  /** Splitting undoes joining when no part contains the separator. */
  lemma {:induction false} SplitJoin(parts: seq<string>, sep: char)
    requires |parts| >= 1
    requires forall i :: 0 <= i < |parts| ==> sep !in parts[i]
    ensures Split(Join([sep], parts), sep) == parts
    decreases |parts|
  {
    if |parts| > 1 {
      var rest := Join([sep], parts[1..]);
      var s := Join([sep], parts);
      assert s == parts[0] + [sep] + rest;
      IndexOfAfterPrefix(parts[0], sep, rest);
      assert s[..|parts[0]|] == parts[0];
      assert s[|parts[0]| + 1..] == rest;
      SplitJoin(parts[1..], sep);
      assert [parts[0]] + parts[1..] == parts;
    }
  }

  /** `s.split(sep, 1)` when `sep` occurs: the text before the first `sep` and everything after it. */
  function SplitOnce(s: string, sep: char): (r: (string, string))
    requires sep in s
    ensures r.0 + [sep] + r.1 == s
    ensures sep !in r.0
  {
    var i := IndexOf(s, sep);
    assert s == s[..i] + [sep] + s[i + 1..];
    (s[..i], s[i + 1..])
  }

  /**
   * Splitting the stripped string at its first non-whitespace `sep` gives,
   * once each side is stripped, the same two parts as splitting the original.
   */
  lemma {:induction false} SplitOnceOfStrip(s: string, sep: char)
    requires sep in Strip(s) && !IsSpace(sep)
    ensures sep in s
    ensures var (a, b) := SplitOnce(Strip(s), sep);
      var (a', b') := SplitOnce(s, sep);
      Strip(a) == Strip(a') && Strip(b) == Strip(b')
  {
    StripKeeps(s, sep);
    var lead, trail := StripPadding(s);
    var (a, b) := SplitOnce(Strip(s), sep);
    BlankLacks(lead, a, sep);
    SplitOncePadded(lead + a, sep, b + trail);
    assert s == (lead + a) + [sep] + (b + trail);
    StripIgnoresPadding(lead, a, []);
    assert lead + a + [] == lead + a;
    StripIgnoresPadding([], b, trail);
    assert [] + b + trail == b + trail;
  }

  /** Whitespace in front of a text without `c` adds no `c`. */
  lemma {:induction false} BlankLacks(lead: string, a: string, c: char)
    requires IsBlank(lead) && !IsSpace(c) && c !in a
    ensures c !in lead + a
  {
    forall i | 0 <= i < |lead + a| ensures (lead + a)[i] != c {
      if i < |lead| {
        assert IsSpace(lead[i]);
      } else {
        assert (lead + a)[i] == a[i - |lead|];
      }
    }
  }

  /** `split(sep, 1)` of a text whose first `sep` follows `a`. */
  lemma {:induction false} SplitOncePadded(a: string, sep: char, b: string)
    requires sep !in a
    ensures sep in a + [sep] + b && SplitOnce(a + [sep] + b, sep) == (a, b)
  {
    var s := a + [sep] + b;
    assert s[|a|] == sep;
    IndexOfAfterPrefix(a, sep, b);
    assert s[..|a|] == a && s[|a| + 1..] == b;
  }

  /** The characters at which `str.splitlines()` breaks a line. */
  predicate IsLineBoundary(c: char) {
    || c == '\n' || c == '\r' || c == '\U{000B}' || c == '\U{000C}'
    || ('\U{001C}' <= c <= '\U{001E}')
    || c == '\U{0085}' || c == '\U{2028}' || c == '\U{2029}'
  }

  predicate HasNoLineBoundary(line: string) {
    forall i :: 0 <= i < |line| ==> !IsLineBoundary(line[i])
  }

  /**
   * The lines of `s`, breaking at every line-boundary character. This differs
   * from `str.splitlines()` only by extra empty lines (after a final boundary
   * and between the two characters of "\r\n"), which is immaterial to callers
   * that skip blank lines.
   */
  function SplitLines(s: string): (lines: seq<string>)
    ensures |lines| >= 1
    ensures forall i :: 0 <= i < |lines| ==> HasNoLineBoundary(lines[i])
    decreases |s|
  {
    if s == [] then [""]
    else
      var rest := SplitLines(s[1..]);
      if IsLineBoundary(s[0]) then [""] + rest
      else [[s[0]] + rest[0]] + rest[1..]
  }

  /** `s.replace(target, replacement)`: every non-overlapping occurrence, scanned left to right. */
  function Replace(s: string, target: string, replacement: string): string
    requires |target| > 0
    decreases |s|
  {
    if |s| < |target| then s
    else if s[..|target|] == target then replacement + Replace(s[|target|..], target, replacement)
    else [s[0]] + Replace(s[1..], target, replacement)
  }

  /**
   * When the first character of `target` does not occur in `s`, the only
   * occurrence of `target` in `s + target` is the final one.
   */
  lemma {:induction false} ReplaceAtEnd(s: string, target: string, replacement: string)
    requires |target| > 0 && target[0] !in s
    ensures Replace(s + target, target, replacement) == s + replacement
    decreases |s|
  {
    var t := s + target;
    if s == [] {
      assert t[..|target|] == target && t[|target|..] == [];
    } else {
      assert t[0] == s[0] != target[0];
      assert t[..|target|] != target;
      assert t[1..] == s[1..] + target;
      ReplaceAtEnd(s[1..], target, replacement);
      calc {
        Replace(t, target, replacement);
        [t[0]] + Replace(t[1..], target, replacement);
        [s[0]] + (s[1..] + replacement);
        { assert [s[0]] + s[1..] == s; }
        s + replacement;
      }
    }
  }
}
