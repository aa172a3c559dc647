/**
 * Masking of identifiers and e-mail addresses before they are logged
 * (`mask_identifier`, `mask_email`).
 */
module LogSafety {
  import PyStr

  function Stars(n: nat): (r: string)
    ensures |r| == n && forall i :: 0 <= i < n ==> r[i] == '*'
  {
    seq(n, i => '*')
  }

  /**
   * `text[-suffix:]` in Python for `0 <= suffix <= |text|`. A zero suffix is
   * `text[-0:]`, which is `text[0:]`: the whole string.
   */
  function PyTail(text: string, suffix: nat): string
    requires suffix <= |text|
  {
    if suffix == 0 then text else text[|text| - suffix..]
  }

  /**
   * `mask_identifier(value, prefix, suffix)` on `str(value)`: blank text
   * masks to "", text no longer than `prefix + suffix` becomes all stars, and
   * longer text keeps its first `prefix` and last `suffix` characters around
   * "***".
   */
  function MaskIdentifier(value: string, prefix: nat, suffix: nat): (r: string)
    ensures r == "" <==> PyStr.IsBlank(value)
  {
    var text := PyStr.Strip(value);
    if text == [] then ""
    else if |text| <= prefix + suffix then Stars(|text|)
    else text[..prefix] + "***" + PyTail(text, suffix)
  }

  /** Masking looks only at the stripped text. */
  lemma {:induction false} MaskIgnoresSurroundingSpace(value: string, prefix: nat, suffix: nat)
    ensures MaskIdentifier(value, prefix, suffix) == MaskIdentifier(PyStr.Strip(value), prefix, suffix)
  {
    PyStr.StripIdempotent(value);
  }

  /** Text that fits in `prefix + suffix` characters reveals nothing: every character becomes `*`. */
  lemma {:induction false} ShortTextFullyHidden(value: string, prefix: nat, suffix: nat)
    requires |PyStr.Strip(value)| <= prefix + suffix
    ensures var r := MaskIdentifier(value, prefix, suffix);
      |r| == |PyStr.Strip(value)| && forall i :: 0 <= i < |r| ==> r[i] == '*'
  {
  }

  /**
   * Longer text with a positive suffix reveals exactly `prefix` leading and
   * `suffix` trailing characters of the stripped text, so at least one of its
   * characters is never shown, and the result has a fixed length.
   */
  lemma {:induction false} LongTextShape(value: string, prefix: nat, suffix: nat)
    requires suffix > 0
    requires |PyStr.Strip(value)| > prefix + suffix
    ensures var t := PyStr.Strip(value);
      var r := MaskIdentifier(value, prefix, suffix);
      && |r| == prefix + 3 + suffix < |t| + 3
      && PyStr.StartsWith(r, t[..prefix])
      && r[prefix..prefix + 3] == "***"
      && PyStr.EndsWith(r, t[|t| - suffix..])
  {
    var t := PyStr.Strip(value);
    MaskLongText(value, prefix, suffix);
    MaskedShape(t[..prefix], t[|t| - suffix..]);
  }

  /** Longer text with a positive suffix: the kept head, "***", the kept tail. */
  lemma {:induction false} MaskLongText(value: string, prefix: nat, suffix: nat)
    requires suffix > 0
    requires |PyStr.Strip(value)| > prefix + suffix
    ensures var t := PyStr.Strip(value);
      MaskIdentifier(value, prefix, suffix) == t[..prefix] + "***" + t[|t| - suffix..]
  {
  }

  /** Where the pieces of `head + "***" + tail` sit. */
  lemma {:induction false} MaskedShape(head: string, tail: string)
    ensures var r := head + "***" + tail;
      && |r| == |head| + 3 + |tail|
      && PyStr.StartsWith(r, head)
      && r[|head|..|head| + 3] == "***"
      && PyStr.EndsWith(r, tail)
  {
    var r := head + "***" + tail;
    assert r[..|head|] == head;
    assert r[|head|..|head| + 3] == "***";
    assert r[|r| - |tail|..] == tail;
  }

  /** With a zero suffix the code as written shows the whole text after the stars (`text[-0:]`). */
  lemma {:induction false} ZeroSuffixShowsEverything(value: string, prefix: nat)
    requires |PyStr.Strip(value)| > prefix
    ensures PyStr.EndsWith(MaskIdentifier(value, prefix, 0), PyStr.Strip(value))
  {
  }

  /** A nine-digit chat id under the defaults used for chat ids (two and two). */
  lemma {:induction false} MaskChatIdExample()
    ensures MaskIdentifier("123456789", 2, 2) == "12***89"
  {
    var id := "123456789";
    assert PyStr.IsTrimmed(id);
    PyStr.StripTrimmed(id);
    MaskLongText(id, 2, 2);
    assert id[..2] == "12" && id[7..] == "89";
  }

  /**
   * `mask_email(value)`: the stripped address with its local part (the text
   * before the first `@`) masked one and one, and the domain kept; without an
   * `@` the whole address is masked one and one.
   */
  function MaskEmail(value: string): (r: string)
    ensures '@' !in PyStr.Strip(value) ==> r == MaskIdentifier(PyStr.Strip(value), 1, 1)
  {
    var email := PyStr.Strip(value);
    if '@' !in email then MaskIdentifier(email, 1, 1)
    else
      var (localPart, domain) := PyStr.SplitOnce(email, '@');
      MaskIdentifier(localPart, 1, 1) + "@" + domain
  }

  /**
   * For an address with an `@`, the result is the masked local part, one
   * `@`, and the domain unchanged, where the local part is everything before
   * the first `@`.
   */
  lemma {:induction false} MaskEmailKeepsDomain(value: string, localPart: string, domain: string)
    requires PyStr.Strip(value) == localPart + "@" + domain
    requires '@' !in localPart
    ensures MaskEmail(value) == MaskIdentifier(localPart, 1, 1) + "@" + domain
  {
    var email := PyStr.Strip(value);
    var (l, d) := PyStr.SplitOnce(email, '@');
    SplitIsUnique(email, l, d, localPart, domain);
  }

  lemma {:induction false} SplitIsUnique(s: string, l1: string, d1: string, l2: string, d2: string)
    requires s == l1 + "@" + d1 && s == l2 + "@" + d2
    requires '@' !in l1 && '@' !in l2
    ensures l1 == l2 && d1 == d2
  {
    assert s[..|l1|] == l1 && s[|l1|] == '@';
    assert s[..|l2|] == l2 && s[|l2|] == '@';
    assert |l1| <= |l2| by {
      assert forall k :: 0 <= k < |l2| ==> s[k] == l2[k];
    }
    assert |l2| <= |l1| by {
      assert forall k :: 0 <= k < |l1| ==> s[k] == l1[k];
    }
    assert l1 == s[..|l1|] == l2;
    assert d1 == s[|l1| + 1..] == d2;
  }
}
