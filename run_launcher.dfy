/**
 * The single-process launcher (`run.py`): the normalisation of the
 * configured webhook path and the decisions of the automatic `setWebhook`
 * step once the public URL is known. The server thread, the tunnel and the
 * HTTP client itself are not modelled; the Bot API is a recorder of calls.
 */
module RunLauncher {
  import opened Wrappers
  import PyStr

  const DefaultWebhookPath: string := "/telegram/webhook"

  /**
   * `_normalize_webhook_path`: the stripped path, the default path when it
   * is blank, with a leading slash added when it lacks one.
   */
  function NormalizeWebhookPath(path: string): (r: string)
    ensures PyStr.IsBlank(path) ==> r == DefaultWebhookPath
    ensures !PyStr.IsBlank(path) && PyStr.StartsWith(PyStr.Strip(path), "/") ==> r == PyStr.Strip(path)
    ensures !PyStr.IsBlank(path) && !PyStr.StartsWith(PyStr.Strip(path), "/") ==> r == "/" + PyStr.Strip(path)
  {
    var clean := PyStr.Strip(path);
    if clean == "" then DefaultWebhookPath
    else if !PyStr.StartsWith(clean, "/") then "/" + clean
    else clean
  }

  /** A normalised path is non-empty, starts with a slash and has no surrounding whitespace. */
  lemma {:induction false} NormalizedPathShape(path: string)
    ensures var r := NormalizeWebhookPath(path);
      r != "" && r[0] == '/' && PyStr.IsTrimmed(r)
  {
    var clean := PyStr.Strip(path);
    if clean == "" {
      DefaultPathShape();
    } else if PyStr.StartsWith(clean, "/") {
      SlashPrefix(clean);
    } else {
      SlashPrepended(clean);
    }
  }

  /** The default path is a trimmed path starting with a slash. */
  lemma {:induction false} DefaultPathShape()
    ensures DefaultWebhookPath != "" && DefaultWebhookPath[0] == '/' && PyStr.IsTrimmed(DefaultWebhookPath)
  {
    var d := DefaultWebhookPath;
    assert d[0] == '/' && d[|d| - 1] == 'k';
  }

  /** A string that starts with "/" has the slash as its first character. */
  lemma {:induction false} SlashPrefix(s: string)
    requires PyStr.StartsWith(s, "/")
    ensures s != "" && s[0] == '/'
  {
    assert s[..1] == "/";
  }

  /** A slash in front of a non-empty trimmed string gives a trimmed string. */
  lemma {:induction false} SlashPrepended(s: string)
    requires s != "" && PyStr.IsTrimmed(s)
    ensures var r := "/" + s; r[0] == '/' && PyStr.IsTrimmed(r)
  {
    var r := "/" + s;
    assert r[|r| - 1] == s[|s| - 1];
  }

  /** Normalising twice is normalising once. */
  lemma {:induction false} NormalizeIdempotent(path: string)
    ensures NormalizeWebhookPath(NormalizeWebhookPath(path)) == NormalizeWebhookPath(path)
  {
    var r := NormalizeWebhookPath(path);
    NormalizedPathShape(path);
    PyStr.StripTrimmed(r);
    assert PyStr.StartsWith(r, "/");
  }

  /** The settings `_configure_telegram_webhook` reads. */
  datatype LauncherSettings = LauncherSettings(
    autoSetWebhook: bool,
    telegramToken: string,
    telegramWebhookPath: string,
    telegramWebhookSecret: string,
    dropPendingUpdates: bool)

  /** The Bot API calls the webhook client makes. */
  datatype ApiCall =
    | SetWebhookCall(url: string, secretToken: Option<string>, dropPendingUpdates: bool)
    | GetWebhookInfoCall

  /** The Bot API as seen from the launcher: the calls made, in order. */
  class BotApi {
    var calls: seq<ApiCall>

    constructor()
      ensures calls == []
    {
      calls := [];
    }

    /** `set_webhook`; `ok` is false when the reply is not ok or the request raises. */
    method SetWebhook(url: string, secretToken: Option<string>, dropPendingUpdates: bool, reply: bool) returns (ok: bool)
      modifies this
      ensures calls == old(calls) + [SetWebhookCall(url, secretToken, dropPendingUpdates)]
      ensures ok == reply
    {
      calls := calls + [SetWebhookCall(url, secretToken, dropPendingUpdates)];
      ok := reply;
    }

    method GetWebhookInfo()
      modifies this
      ensures calls == old(calls) + [GetWebhookInfoCall]
    {
      calls := calls + [GetWebhookInfoCall];
    }
  }

  /** Whether `_configure_telegram_webhook` talks to the Bot API at all. */
  predicate ConfiguresWebhook(settings: LauncherSettings) {
    settings.autoSetWebhook && settings.telegramToken != ""
  }

  /** The URL registered: the public base followed by the normalised path. */
  function RegisteredUrl(settings: LauncherSettings, publicBaseUrl: string): (url: string)
    ensures |url| > |publicBaseUrl| && url[..|publicBaseUrl|] == publicBaseUrl && url[|publicBaseUrl|] == '/'
  {
    NormalizedPathShape(settings.telegramWebhookPath);
    publicBaseUrl + NormalizeWebhookPath(settings.telegramWebhookPath)
  }

  /** `settings.telegram_webhook_secret or None`. */
  function SecretOrNone(secret: string): (r: Option<string>)
    ensures r.None? <==> secret == ""
    ensures r.Some? ==> r.value == secret
  {
    if secret == "" then None else Some(secret)
  }

  /**
   * `_configure_telegram_webhook`: with automatic registration off or no
   * token nothing is called; otherwise `setWebhook` is called once with the
   * registered URL, and `getWebhookInfo` follows only when it succeeded.
   */
  method ConfigureTelegramWebhook(settings: LauncherSettings, publicBaseUrl: string, api: BotApi,
                                  setReply: bool)
    modifies api
    ensures !ConfiguresWebhook(settings) ==> api.calls == old(api.calls)
    ensures ConfiguresWebhook(settings) ==>
      api.calls == old(api.calls)
        + [SetWebhookCall(RegisteredUrl(settings, publicBaseUrl), SecretOrNone(settings.telegramWebhookSecret),
                          settings.dropPendingUpdates)]
        + (if setReply then [GetWebhookInfoCall] else [])
  {
    if !settings.autoSetWebhook {
      return;
    }
    if settings.telegramToken == "" {
      return;
    }
    var webhookPath := NormalizeWebhookPath(settings.telegramWebhookPath);
    var webhookUrl := publicBaseUrl + webhookPath;
    assert webhookUrl == RegisteredUrl(settings, publicBaseUrl);
    var call := SetWebhookCall(webhookUrl, SecretOrNone(settings.telegramWebhookSecret), settings.dropPendingUpdates);
    var ok := api.SetWebhook(call.url, call.secretToken, call.dropPendingUpdates, setReply);
    if !ok {
      assert api.calls == old(api.calls) + [call] + [];
      return;
    }
    api.GetWebhookInfo();
    assert api.calls == old(api.calls) + [call] + [GetWebhookInfoCall];
  }
}
