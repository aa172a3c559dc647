/**
 * The pure parts of the SMTP mail gateway
 * (`src/infrastructure/smtp/smtp_mail_gateway.py`): the text sanitiser
 * used for the mail subject, body and logs, the reply-code extraction for
 * the logs, and the normalisation of the connection settings at
 * construction. The SMTP session, the message and the logger are not
 * modelled.
 */
module Smtp {
  import opened Wrappers
  import opened JsonValue
  import PyStr

  /** What `s.replace(c, d)` does for one-character strings: every `c` becomes `d`, nothing else moves. */
  lemma {:induction false} ReplaceChar(s: string, c: char, d: char)
    ensures var r := PyStr.Replace(s, [c], [d]);
      |r| == |s| && forall i :: 0 <= i < |s| ==> r[i] == (if s[i] == c then d else s[i])
    decreases |s|
  {
    if |s| >= 1 {
      ReplaceChar(s[1..], c, d);
      var rest := PyStr.Replace(s[1..], [c], [d]);
      var r := PyStr.Replace(s, [c], [d]);
      if s[..1] == [c] {
        assert r == [d] + rest;
      } else {
        assert r == [s[0]] + rest;
      }
    }
  }

  /** Carriage returns and line feeds become spaces, then the text is stripped. */
  function Sanitize(text: string): (r: string)
    ensures '\r' !in r && '\n' !in r && PyStr.IsTrimmed(r) && |r| <= |text|
  {
    var noCarriageReturns := PyStr.Replace(text, "\r", " ");
    var noLineFeeds := PyStr.Replace(noCarriageReturns, "\n", " ");
    ReplaceChar(text, '\r', ' ');
    ReplaceChar(noCarriageReturns, '\n', ' ');
    assert '\r' !in noLineFeeds by {
      forall i | 0 <= i < |noLineFeeds| ensures noLineFeeds[i] != '\r' {
        assert noCarriageReturns[i] != '\r';
      }
    }
    assert '\n' !in noLineFeeds;
    PyStr.StripHasNo(noLineFeeds, '\r');
    PyStr.StripHasNo(noLineFeeds, '\n');
    PyStr.Strip(noLineFeeds)
  }

  /**
   * `_safe_text`: the sanitised text, or its first `maxLength` characters
   * followed by "..." when it is longer.
   */
  function SafeText(text: string, maxLength: nat): (r: string)
    ensures '\r' !in r && '\n' !in r
    ensures |r| <= maxLength + 3
    ensures |Sanitize(text)| <= maxLength ==> r == Sanitize(text)
    ensures |Sanitize(text)| > maxLength ==> r == Sanitize(text)[..maxLength] + "..." && |r| == maxLength + 3
  {
    var sanitized := Sanitize(text);
    if |sanitized| > maxLength then
      var r := sanitized[..maxLength] + "...";
      assert forall c :: c in r && c !in "..." ==> c in sanitized;
      r
    else sanitized
  }

  /** Text without line breaks or surrounding whitespace is left alone by the sanitiser. */
  lemma {:induction false} SanitizeClean(text: string)
    requires '\r' !in text && '\n' !in text && PyStr.IsTrimmed(text)
    ensures Sanitize(text) == text
  {
    ReplaceChar(text, '\r', ' ');
    var once := PyStr.Replace(text, "\r", " ");
    assert once == text;
    ReplaceChar(text, '\n', ' ');
    assert PyStr.Replace(once, "\n", " ") == text;
    PyStr.StripTrimmed(text);
  }

  /** Sanitising an already safe text changes nothing, truncated or not. */
  lemma {:induction false} SafeTextIdempotent(text: string, maxLength: nat)
    ensures SafeText(SafeText(text, maxLength), maxLength) == SafeText(text, maxLength)
  {
    var s := Sanitize(text);
    var r := SafeText(text, maxLength);
    if |s| > maxLength {
      assert r[|r| - 1] == '.';
      assert r[0] == (if maxLength > 0 then s[0] else '.');
    }
    SanitizeClean(r);
    if |s| > maxLength {
      assert r[..maxLength] == s[..maxLength];
    }
  }

  /** The repository's example: "a\r\nb" keeps both breaks as spaces. */
  lemma {:induction false} SafeTextExample()
    ensures SafeText("a\r\nb", 10) == "a  b"
  {
    var t := "a\r\nb";
    ReplaceChar(t, '\r', ' ');
    var once := PyStr.Replace(t, "\r", " ");
    assert once == "a \nb";
    ReplaceChar(once, '\n', ' ');
    var twice := PyStr.Replace(once, "\n", " ");
    assert twice == "a  b";
    PyStr.StripTrimmed(twice);
  }

  /** The body of an SMTP reply as the library hands it back: a tuple of values, or something else. */
  datatype SmtpReply = Tuple(items: seq<Json>) | NotATuple

  /**
   * `_extract_smtp_response_code`: the first element of a non-empty tuple
   * when it is an `int`. A `bool` is an `int` in Python, so `True` and
   * `False` pass the check and read as 1 and 0.
   */
  function ExtractSmtpResponseCode(response: SmtpReply): (r: Option<int>)
    ensures r.Some? <==> response.Tuple? && response.items != [] && (response.items[0].JInt? || response.items[0].JBool?)
    ensures r.Some? && response.items[0].JInt? ==> r.value == response.items[0].i
  {
    if response.Tuple? && response.items != [] then
      match response.items[0]
      case JInt(code) => Some(code)
      case JBool(b) => Some(if b then 1 else 0)
      case _ => None
    else None
  }

  /** The reply of a successful `starttls`, an empty tuple, a string code and no tuple. */
  lemma {:induction false} ExtractSmtpResponseCodeExamples(code: int, text: string)
    ensures ExtractSmtpResponseCode(Tuple([JInt(code), JString(text)])) == Some(code)
    ensures ExtractSmtpResponseCode(Tuple([])) == None
    ensures ExtractSmtpResponseCode(Tuple([JString(text)])) == None
    ensures ExtractSmtpResponseCode(NotATuple) == None
  {
  }

  /** The connection settings, normalised when the gateway is built. */
  class SmtpMailGateway {
    const host: string
    const port: int
    const username: string
    const password: string
    const useTls: bool
    const sender: string
    const defaultRecipient: string
    const timeoutSeconds: real
    const maskSensitiveIds: bool

    /** Host, user name, sender and recipient are stripped; the password is kept byte for byte. */
    constructor(host: string, port: int, username: string, password: string, useTls: bool, sender: string,
                defaultRecipient: string, timeoutSeconds: real, maskSensitiveIds: bool)
      ensures this.host == PyStr.Strip(host) && this.username == PyStr.Strip(username)
      ensures this.sender == PyStr.Strip(sender) && this.defaultRecipient == PyStr.Strip(defaultRecipient)
      ensures this.password == password && this.port == port && this.useTls == useTls
      ensures this.timeoutSeconds == timeoutSeconds && this.maskSensitiveIds == maskSensitiveIds
      ensures Normalized()
      ensures AuthEnabled() <==> !PyStr.IsBlank(username)
    {
      this.host := PyStr.Strip(host);
      this.port := port;
      this.username := PyStr.Strip(username);
      this.password := password;
      this.useTls := useTls;
      this.sender := PyStr.Strip(sender);
      this.defaultRecipient := PyStr.Strip(defaultRecipient);
      this.timeoutSeconds := timeoutSeconds;
      this.maskSensitiveIds := maskSensitiveIds;
    }

    /** The stripped settings carry no surrounding whitespace. */
    predicate Normalized() {
      PyStr.IsTrimmed(host) && PyStr.IsTrimmed(username) && PyStr.IsTrimmed(sender) && PyStr.IsTrimmed(defaultRecipient)
    }

    /** `bool(self._username)`: whether the session logs in. */
    predicate AuthEnabled() {
      username != ""
    }
  }
}
