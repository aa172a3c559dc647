/**
 * Extraction of the conversation identifier from a Telegram update
 * (`extract_chat_id`). Three places are examined: the update's `message`,
 * else its `edited_message` (the two joined by Python's `or`, so a falsy
 * `message` falls through), and finally `callback_query.message`. Only an
 * integer `chat.id` counts; a string id is never coerced.
 */
module Telegram {
  import opened Wrappers
  import opened JsonValue
  import Decimal
  import PyStr

  /** The `chat.id` of a message object, when it is an integer. */
  function ChatIdOf(message: Json): Option<int> {
    var chat := Field(message, "chat");
    if chat.JObject? then
      match Get(chat.fields, "id")
      case JInt(n) => Some(n)
      case _ => None
    else None
  }

  /** `update.get("message") or update.get("edited_message")`. */
  function PrimaryMessage(update: Object): Json {
    if Truthy(Get(update, "message")) then Get(update, "message") else Get(update, "edited_message")
  }

  /** The corrected `extract_chat_id`: integer ids only (see the `bool` finding below). */
  function ExtractChatId(update: Object): Option<int> {
    match ChatIdOf(PrimaryMessage(update))
    case Some(n) => Some(n)
    case None => ChatIdOf(Field(Get(update, "callback_query"), "message"))
  }

  const MessagePath: seq<string> := ["message", "chat", "id"]
  const EditedMessagePath: seq<string> := ["edited_message", "chat", "id"]
  const CallbackPath: seq<string> := ["callback_query", "message", "chat", "id"]

  /** An integer sits at `path` inside the update. */
  predicate IntAt(update: Object, path: seq<string>, n: int) {
    Lookup(JObject(update), path) == Some(JInt(n))
  }

  ghost predicate SomeIntAt(update: Object, path: seq<string>) {
    exists n :: IntAt(update, path, n)
  }

  lemma {:induction false} LookupMessagePath(update: Object, key: string, path: seq<string>)
    requires |path| == 3 && path[0] == key
    ensures Lookup(JObject(update), path) ==
      (if key in update && update[key].JObject? && path[1] in update[key].fields then
         Lookup(update[key].fields[path[1]], path[2..])
       else None)
  {
    assert path[1..][1..] == path[2..];
  }

  /** Reading `chat.id` of a message object agrees with walking the path. */
  lemma {:induction false} ChatIdOfMatchesPath(update: Object, key: string, n: int)
    ensures ChatIdOf(Get(update, key)) == Some(n) <==> IntAt(update, [key, "chat", "id"], n)
  {
    var path := [key, "chat", "id"];
    LookupMessagePath(update, key, path);
    assert path[2..] == ["id"];
    assert path[2..][1..] == [];
  }

  lemma {:induction false} CallbackMatchesPath(update: Object, n: int)
    ensures ChatIdOf(Field(Get(update, "callback_query"), "message")) == Some(n) <==> IntAt(update, CallbackPath, n)
  {
    var p := CallbackPath;
    assert p[1..] == ["message", "chat", "id"];
    if "callback_query" in update && update["callback_query"].JObject? {
      ChatIdOfMatchesPath(update["callback_query"].fields, "message", n);
    }
  }

  /** The path through `message` holds an integer: that id is the result, whatever else the update holds. */
  lemma {:induction false} MessagePathWins(update: Object, n: int)
    requires IntAt(update, MessagePath, n)
    ensures ExtractChatId(update) == Some(n)
  {
    ChatIdOfMatchesPath(update, "message", n);
    assert Truthy(Get(update, "message")) by {
      assert "chat" in update["message"].fields;
    }
  }

  /** A missing or falsy `message` (such as `{}` or `null`) falls through to `edited_message`. */
  lemma {:induction false} FalsyMessageFallsThrough(update: Object, n: int)
    requires !Truthy(Get(update, "message"))
    requires IntAt(update, EditedMessagePath, n)
    ensures ExtractChatId(update) == Some(n)
  {
    ChatIdOfMatchesPath(update, "edited_message", n);
  }

  /**
   * When neither `message` nor `edited_message` carries an integer id, the
   * `callback_query.message` path is still tried.
   */
  lemma {:induction false} CallbackPathTried(update: Object, n: int)
    requires !SomeIntAt(update, MessagePath) && !SomeIntAt(update, EditedMessagePath)
    requires IntAt(update, CallbackPath, n)
    ensures ExtractChatId(update) == Some(n)
  {
    CallbackMatchesPath(update, n);
    var primary := ChatIdOf(PrimaryMessage(update));
    if primary.Some? {
      if Truthy(Get(update, "message")) {
        ChatIdOfMatchesPath(update, "message", primary.value);
      } else {
        ChatIdOfMatchesPath(update, "edited_message", primary.value);
      }
    }
  }

  /** No integer at any of the three paths (a string id, a chat without `id`, an empty update): no id. */
  lemma {:induction false} NoIntegerNoId(update: Object)
    requires !SomeIntAt(update, MessagePath) && !SomeIntAt(update, EditedMessagePath)
    requires !SomeIntAt(update, CallbackPath)
    ensures ExtractChatId(update) == None
  {
    var r := ExtractChatId(update);
    if r.Some? {
      var primary := ChatIdOf(PrimaryMessage(update));
      if primary.Some? {
        if Truthy(Get(update, "message")) {
          ChatIdOfMatchesPath(update, "message", primary.value);
        } else {
          ChatIdOfMatchesPath(update, "edited_message", primary.value);
        }
      } else {
        CallbackMatchesPath(update, r.value);
      }
    }
  }

  /** A found id is a value actually present at one of the three paths. */
  lemma {:induction false} ExtractedIdIsPresent(update: Object)
    requires ExtractChatId(update).Some?
    ensures var n := ExtractChatId(update).value;
      IntAt(update, MessagePath, n) || IntAt(update, EditedMessagePath, n) || IntAt(update, CallbackPath, n)
  {
    var n := ExtractChatId(update).value;
    var primary := ChatIdOf(PrimaryMessage(update));
    if primary.Some? {
      if Truthy(Get(update, "message")) {
        ChatIdOfMatchesPath(update, "message", n);
      } else {
        ChatIdOfMatchesPath(update, "edited_message", n);
      }
    } else {
      CallbackMatchesPath(update, n);
    }
  }

  /** The update shapes the repository's tests exercise. */
  lemma {:induction false} ExtractionExamples()
    ensures ExtractChatId(map["message" := JObject(map["chat" := JObject(map["id" := JInt(123)])])]) == Some(123)
    ensures ExtractChatId(map["callback_query" := JObject(map["message" :=
              JObject(map["chat" := JObject(map["id" := JInt(456)])])])]) == Some(456)
    ensures ExtractChatId(map["message" := JObject(map["chat" := JObject(map["id" := JString("123")])])]) == None
    ensures ExtractChatId(map["edited_message" := JObject(map["chat" := JObject(map[])])]) == None
    ensures ExtractChatId(map[]) == None
  {
  }

  // ---------------------------------------------------------------------
  // The code as written: `isinstance(x, int)` is also true of `True` and
  // `False`, because Python's `bool` is a subclass of `int`.
  // ---------------------------------------------------------------------

  /** `isinstance(j, int)` as CPython evaluates it. */
  predicate IsPythonInt(j: Json) {
    j.JInt? || j.JBool?
  }

  function ChatIdValueAsWritten(message: Json): Option<Json> {
    var chat := Field(message, "chat");
    if chat.JObject? && IsPythonInt(Get(chat.fields, "id")) then Some(Get(chat.fields, "id")) else None
  }

  /** `extract_chat_id` exactly as written: it may return a JSON boolean. */
  function ExtractChatIdAsWritten(update: Object): Option<Json> {
    match ChatIdValueAsWritten(PrimaryMessage(update))
    case Some(v) => Some(v)
    case None => ChatIdValueAsWritten(Field(Get(update, "callback_query"), "message"))
  }

  /** `str(v)` for the two kinds of value the as-written extraction can return. */
  function PythonStr(v: Json): string {
    match v
    case JBool(b) => if b then "True" else "False"
    case JInt(n) => Decimal.IntToString(n)
    case _ => ""
  }

  /**
   * The update `{"message": {"chat": {"id": true}}}` is captured as written:
   * the id `True` would be stored, persisted as the text "True", and that text
   * does not load back as an id after a restart. The corrected extraction
   * ignores it.
   */
  lemma {:induction false} BooleanIdCapturedAsWritten()
    ensures var u := map["message" := JObject(map["chat" := JObject(map["id" := JBool(true)])])];
      && ExtractChatIdAsWritten(u) == Some(JBool(true))
      && PythonStr(JBool(true)) == "True"
      && Decimal.ParseInt(PythonStr(JBool(true))) == None
      && ExtractChatId(u) == None
  {
    var chat := JObject(map["id" := JBool(true)]);
    var msg := JObject(map["chat" := chat]);
    var u := map["message" := msg];
    assert Get(u, "message") == msg;
    assert Truthy(msg) by { assert "chat" in msg.fields; }
    assert Field(msg, "chat") == chat;
    assert Get(chat.fields, "id") == JBool(true);
    assert ChatIdValueAsWritten(msg) == Some(JBool(true));
    PyStr.StripTrimmed("True");
    assert !Decimal.WellFormedDigits("True") by { assert !Decimal.IsDigit("True"[0]); }
  }

  /** On every update without boolean ids the as-written and corrected extractions agree. */
  lemma {:induction false} AsWrittenAgreesOnIntegerIds(update: Object)
    requires ExtractChatIdAsWritten(update).Some? ==> ExtractChatIdAsWritten(update).value.JInt?
    ensures ExtractChatIdAsWritten(update) == OptionMapInt(ExtractChatId(update))
  {
  }

  function OptionMapInt(v: Option<int>): Option<Json> {
    match v
    case Some(n) => Some(JInt(n))
    case None => None
  }
}
