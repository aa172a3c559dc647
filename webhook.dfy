/**
 * The webhook use case (`ProcessTelegramWebhookUseCase`): check the shared
 * secret, extract the conversation id from the update and remember it. Also
 * the read side (`GetLastChatUseCase`).
 */
module ProcessTelegramWebhook {
  import opened Wrappers
  import opened JsonValue
  import PyStr
  import Decimal
  import Telegram
  import LogSafety
  import ChatState

  datatype WebhookError = InvalidTelegramSecret

  /**
   * The secret check: a configured (non-empty, already stripped) secret
   * rejects every request whose header is missing or differs from it.
   */
  predicate SecretRejected(expected: string, provided: Option<string>) {
    expected != "" && provided != Some(expected)
  }

  /**
   * With no secret configured (or a blank one) every request passes; with a
   * secret, exactly the requests carrying it pass.
   */
  lemma {:induction false} SecretCheckCharacterised(configured: string, provided: Option<string>)
    ensures PyStr.IsBlank(configured) ==> !SecretRejected(PyStr.Strip(configured), provided)
    ensures !PyStr.IsBlank(configured) ==>
      (!SecretRejected(PyStr.Strip(configured), provided) <==> provided == Some(PyStr.Strip(configured)))
  {
  }

  /** `_safe_chat_id`: how a chat id appears in the logs. */
  function SafeChatId(chatId: Option<int>, maskSensitiveIds: bool): (r: string)
    ensures chatId.None? ==> r == ""
    ensures chatId.Some? ==> r != ""
    ensures chatId.Some? && !maskSensitiveIds ==> r == Decimal.IntToString(chatId.value)
    ensures chatId.Some? && maskSensitiveIds ==> r == LogSafety.MaskIdentifier(Decimal.IntToString(chatId.value), 2, 2)
  {
    match chatId
    case None => ""
    case Some(n) =>
      var text := Decimal.IntToString(n);
      PyStr.StripTrimmed(text);
      if maskSensitiveIds then LogSafety.MaskIdentifier(text, 2, 2) else text
  }

  /** Unmasked, the logged text reads back as the same id. */
  lemma {:induction false} UnmaskedChatIdReadable(n: int)
    ensures Decimal.ParseInt(SafeChatId(Some(n), false)) == Some(n)
  {
    Decimal.ParseIntRoundTrip(n);
  }

  /** Masked, an id of more than four characters can no longer be read as a number from the log. */
  lemma {:induction false} MaskedChatIdUnreadable(n: int)
    requires |Decimal.IntToString(n)| > 4
    ensures Decimal.ParseInt(SafeChatId(Some(n), true)) == None
  {
    var s := Decimal.IntToString(n);
    PyStr.StripTrimmed(s);
    var r := SafeChatId(Some(n), true);
    assert r == s[..2] + "***" + s[|s| - 2..];
    assert r[2] == '*';
    assert Decimal.IsDigit(r[|r| - 1]);
    assert r[0] == '-' || Decimal.IsDigit(r[0]);
    PyStr.StripTrimmed(r);
    if r[0] == '-' {
      var body := r[1..];
      assert body[1] == '*';
      assert !Decimal.DigitOrSeparatorAt(body, 1);
    } else {
      assert !Decimal.DigitOrSeparatorAt(r, 2);
    }
  }

  class ProcessTelegramWebhookUseCase {
    const gateway: ChatState.FileChatStateGateway
    const expectedSecret: string
    const debugEnabled: bool
    const maskSensitiveIds: bool

    /** The configured secret is stripped once, at construction. */
    constructor(gateway: ChatState.FileChatStateGateway, expectedSecret: string, debugEnabled: bool, maskSensitiveIds: bool)
      ensures this.gateway == gateway
      ensures this.expectedSecret == PyStr.Strip(expectedSecret)
      ensures this.debugEnabled == debugEnabled && this.maskSensitiveIds == maskSensitiveIds
    {
      this.gateway := gateway;
      this.expectedSecret := PyStr.Strip(expectedSecret);
      this.debugEnabled := debugEnabled;
      this.maskSensitiveIds := maskSensitiveIds;
    }

    /**
     * `execute`: a rejected request changes nothing; an accepted one returns
     * the extracted id and, when there is one, stores it through the gateway.
     * `events` lists the structured log events in order; `outcome` is how the
     * state-file write ends.
     */
    method Execute(update: Object, providedSecret: Option<string>, outcome: ChatState.WriteOutcome)
        returns (r: Result<Option<int>, WebhookError>, events: seq<string>)
      modifies gateway, gateway.files
      ensures r.Failure? <==> SecretRejected(expectedSecret, providedSecret)
      ensures r.Failure? ==> unchanged(gateway, gateway.files)
      ensures r.Failure? ==> events == ["telegram_webhook_received", "telegram_webhook_rejected"]
      ensures r.Success? ==> r.value == Telegram.ExtractChatId(update)
      ensures r.Success? && r.value.Some? ==> gateway.lastChatId == r.value
      ensures r.Success? && r.value.Some? ==>
        && gateway.files.canonical == ChatState.CanonicalAfter(outcome, old(gateway.files.canonical), r.value.value)
        && gateway.files.temp == ChatState.TempAfter(outcome, old(gateway.files.temp), r.value.value)
      ensures r.Success? && r.value.None? ==> unchanged(gateway, gateway.files)
      ensures r.Success? ==>
        events == ["telegram_webhook_received"]
                  + (if debugEnabled then ["telegram_webhook_debug"] else [])
                  + [if r.value.Some? then "telegram_webhook_chat_captured" else "telegram_webhook_no_chat_id"]
    {
      events := ["telegram_webhook_received"];
      if expectedSecret != "" && providedSecret != Some(expectedSecret) {
        events := events + ["telegram_webhook_rejected"];
        return Failure(InvalidTelegramSecret), events;
      }
      if debugEnabled {
        events := events + ["telegram_webhook_debug"];
      }
      var chatId := Telegram.ExtractChatId(update);
      if chatId.Some? {
        gateway.SetLastChatId(chatId.value, outcome);
        events := events + ["telegram_webhook_chat_captured"];
      } else {
        events := events + ["telegram_webhook_no_chat_id"];
      }
      r := Success(chatId);
    }
  }

  class GetLastChatUseCase {
    const gateway: ChatState.FileChatStateGateway

    constructor(gateway: ChatState.FileChatStateGateway)
      ensures this.gateway == gateway
    {
      this.gateway := gateway;
    }

    method Execute() returns (r: Option<int>)
      ensures r == gateway.lastChatId
    {
      r := gateway.GetLastChatId();
    }
  }
}
