/**
 * The webhook registration script (`scripts/set_telegram_webhook.py`):
 * token masking for the console, the strict boolean parser of
 * `DROP_PENDING_UPDATES`, the webhook URL, the `setWebhook` form and the
 * checks `main` makes before calling the Bot API. Its `.env` loader is the
 * same loop as `Config.Environment.LoadEnvFile`.
 */
module SetWebhook {
  import opened Wrappers
  import PyStr
  import Config

  const WebhookSuffix: string := "/telegram/webhook"
  const EmptyBaseMessage: string := "La URL base del webhook esta vacia."

  /** `mask_token`: at most the first six and the last four characters are shown. */
  function MaskToken(token: string): (r: string)
    ensures |token| <= 10 ==> r == "***"
    ensures |token| > 10 ==> |r| == 13 && PyStr.StartsWith(r, token[..6]) && PyStr.EndsWith(r, token[|token| - 4..])
    ensures |token| > 10 ==> r[6..9] == "..."
  {
    if |token| <= 10 then "***" else token[..6] + "..." + token[|token| - 4..]
  }

  /** A masked token is never longer than 13 characters, so a long token is never shown whole. */
  lemma {:induction false} MaskTokenHides(token: string)
    ensures |MaskToken(token)| <= 13
    ensures |token| > 13 ==> MaskToken(token) != token
  {
  }

  /**
   * `parse_bool_env`: like `Config.ParseBool` on recognised words and on a
   * missing or blank value, but an unrecognised word is an error
   * (`ValueError`) instead of the default.
   */
  function ParseBoolEnv(value: Option<string>, default: bool): (r: Result<bool, string>)
    ensures value.None? || PyStr.IsBlank(value.value) ==> r == Success(default)
    ensures r.Success? ==> r.value == Config.ParseBool(value.GetOr(""), default)
    ensures r.Failure? <==>
      value.Some? && !PyStr.IsBlank(value.value)
      && PyStr.Lower(PyStr.Strip(value.value)) !in Config.TrueWords + Config.FalseWords
  {
    if value.None? || PyStr.Strip(value.value) == "" then Success(default)
    else
      var normalized := PyStr.Lower(PyStr.Strip(value.value));
      if normalized in Config.TrueWords then Success(true)
      else if normalized in Config.FalseWords then Success(false)
      else Failure("Valor booleano invalido '" + value.value + "' para DROP_PENDING_UPDATES. Usa true/false.")
  }

  /** The two boolean parsers disagree exactly on unrecognised words: one keeps the default, the other raises. */
  lemma {:induction false} BoolParsersDiffer(value: string, default: bool)
    ensures ParseBoolEnv(Some(value), default).Failure? ==> Config.ParseBool(value, default) == default
  {
  }

  /** The base URL without surrounding whitespace and trailing slashes. */
  function CleanBase(baseUrl: string): (r: string)
    ensures r == [] || (r[|r| - 1] != '/' && !PyStr.IsSpace(r[0]))
  {
    var stripped := PyStr.Strip(baseUrl);
    PyStr.RStripCharKeepsFirst(stripped, '/');
    PyStr.RStripChar(stripped, '/')
  }

  /**
   * `build_webhook_url`: the clean base followed by the webhook path; a
   * blank base is an error.
   */
  function BuildWebhookUrl(baseUrl: string): (r: Result<string, string>)
    ensures r.Failure? <==> CleanBase(baseUrl) == ""
    ensures r.Success? ==> r.value == CleanBase(baseUrl) + WebhookSuffix
    ensures r.Failure? ==> r.error == EmptyBaseMessage
  {
    var cleanBase := CleanBase(baseUrl);
    if cleanBase == "" then Failure(EmptyBaseMessage)
    else Success(cleanBase + WebhookSuffix)
  }

  /**
   * A built URL ends with the webhook path after a non-empty base that
   * neither starts with whitespace nor ends with a slash.
   */
  lemma {:induction false} WebhookUrlShape(baseUrl: string)
    requires BuildWebhookUrl(baseUrl).Success?
    ensures var url := BuildWebhookUrl(baseUrl).value;
      && |url| > |WebhookSuffix| && PyStr.EndsWith(url, WebhookSuffix)
      && url[|url| - |WebhookSuffix| - 1] != '/' && !PyStr.IsSpace(url[0])
  {
    var clean := CleanBase(baseUrl);
    var url := clean + WebhookSuffix;
    assert url[|url| - |WebhookSuffix|..] == WebhookSuffix;
    assert url[|url| - |WebhookSuffix| - 1] == clean[|clean| - 1];
  }

  /** A trailing slash on a base without trailing whitespace makes no difference. */
  lemma {:induction false} TrailingSlashIgnored(baseUrl: string)
    requires baseUrl == [] || !PyStr.IsSpace(baseUrl[|baseUrl| - 1])
    ensures BuildWebhookUrl(baseUrl + "/") == BuildWebhookUrl(baseUrl)
  {
    PyStr.StripAppend(baseUrl, '/');
    var s := PyStr.Strip(baseUrl);
    assert PyStr.Strip(baseUrl + "/") == s + "/";
    assert (s + "/")[..|s|] == s;
    assert PyStr.RStripChar(s + "/", '/') == PyStr.RStripChar(s, '/');
    assert CleanBase(baseUrl + "/") == CleanBase(baseUrl);
    var r1, r2 := BuildWebhookUrl(baseUrl + "/"), BuildWebhookUrl(baseUrl);
    assert r1.Failure? == r2.Failure?;
  }

  /** `str(flag).lower()`. */
  function BoolText(flag: bool): string {
    if flag then "true" else "false"
  }

  /**
   * The `setWebhook` form built in `configure_telegram_webhook`: the URL and
   * the drop flag always, the secret only when it is non-empty.
   */
  method BuildSetWebhookPayload(webhookUrl: string, secretToken: Option<string>, dropPendingUpdates: bool)
      returns (payload: map<string, string>)
    ensures "url" in payload && payload["url"] == webhookUrl
    ensures "drop_pending_updates" in payload && payload["drop_pending_updates"] == BoolText(dropPendingUpdates)
    ensures ("secret_token" in payload) <==> (secretToken.Some? && secretToken.value != "")
    ensures "secret_token" in payload ==> payload["secret_token"] == secretToken.value
    ensures payload.Keys <= {"url", "drop_pending_updates", "secret_token"}
  {
    payload := map["url" := webhookUrl, "drop_pending_updates" := BoolText(dropPendingUpdates)];
    if secretToken.Some? && secretToken.value != "" {
      payload := payload["secret_token" := secretToken.value];
    }
  }

  /** `os.getenv(name)`. */
  function LookupEnv(env: map<string, string>, name: string): Option<string> {
    if name in env then Some(env[name]) else None
  }

  /** `os.getenv(name, "")`. */
  function GetEnv(env: map<string, string>, name: string): string {
    LookupEnv(env, name).GetOr("")
  }

  /** The four variables `main` reads from the environment. */
  datatype SetupEnv = SetupEnv(token: string, secret: string, dropPendingUpdates: Option<string>, webhookUrl: string)

  /** Reading the variables `main` uses; a missing text variable reads as "". */
  function ReadSetupEnv(env: map<string, string>): (r: SetupEnv)
    ensures r.token == GetEnv(env, "TELEGRAM_TOKEN") && r.secret == GetEnv(env, "TELEGRAM_WEBHOOK_SECRET")
    ensures r.dropPendingUpdates == LookupEnv(env, "DROP_PENDING_UPDATES") && r.webhookUrl == GetEnv(env, "WEBHOOK_URL")
  {
    SetupEnv(GetEnv(env, "TELEGRAM_TOKEN"), GetEnv(env, "TELEGRAM_WEBHOOK_SECRET"),
             LookupEnv(env, "DROP_PENDING_UPDATES"), GetEnv(env, "WEBHOOK_URL"))
  }

  /**
   * `resolve_base_url_from_env`: a non-blank `WEBHOOK_URL` without its
   * surrounding whitespace and trailing slashes, else the public URL of the
   * local tunnel (`ngrokUrl`, whose lookup may fail).
   */
  function ResolveBaseUrl(webhookUrl: string, ngrokUrl: Result<string, string>): (r: Result<string, string>)
    ensures PyStr.IsBlank(webhookUrl) ==> r == ngrokUrl
    ensures !PyStr.IsBlank(webhookUrl) ==> r == Success(CleanBase(webhookUrl))
  {
    var fromEnv := PyStr.Strip(webhookUrl);
    if fromEnv != "" then Success(PyStr.RStripChar(fromEnv, '/')) else ngrokUrl
  }

  /** What `main` hands to the Bot API: the token and the `setWebhook` form. */
  datatype SetupRequest = SetupRequest(token: string, payload: map<string, string>)

  /**
   * The checks of `main` before any network call: a missing token, an
   * invalid `DROP_PENDING_UPDATES`, an unresolvable or blank base URL each
   * end the script with exit status 1 and the message as `Failure`.
   */
  method PrepareSetup(vars: SetupEnv, ngrokUrl: Result<string, string>) returns (r: Result<SetupRequest, string>)
    ensures PyStr.IsBlank(vars.token) ==> r == Failure("TELEGRAM_TOKEN es obligatorio.")
    ensures ParseBoolEnv(vars.dropPendingUpdates, true).Failure? ==> r.Failure?
    ensures r.Success? ==> r.value.token == PyStr.Strip(vars.token) && r.value.token != ""
    ensures r.Success? ==> ResolveBaseUrl(vars.webhookUrl, ngrokUrl).Success? && "url" in r.value.payload
    ensures r.Success? ==> BuildWebhookUrl(ResolveBaseUrl(vars.webhookUrl, ngrokUrl).value) == Success(r.value.payload["url"])
    ensures r.Success? ==> ParseBoolEnv(vars.dropPendingUpdates, true).Success?
    ensures r.Success? ==> "drop_pending_updates" in r.value.payload
    ensures r.Success? ==>
      r.value.payload["drop_pending_updates"] == BoolText(ParseBoolEnv(vars.dropPendingUpdates, true).value)
    ensures r.Success? ==> (("secret_token" in r.value.payload) <==> !PyStr.IsBlank(vars.secret))
    ensures r.Success? && "secret_token" in r.value.payload ==> r.value.payload["secret_token"] == PyStr.Strip(vars.secret)
    ensures r.Success? ==> r.value.payload.Keys <= {"url", "drop_pending_updates", "secret_token"}
    ensures (&& !PyStr.IsBlank(vars.token)
             && ParseBoolEnv(vars.dropPendingUpdates, true).Success?
             && ResolveBaseUrl(vars.webhookUrl, ngrokUrl).Success?
             && BuildWebhookUrl(ResolveBaseUrl(vars.webhookUrl, ngrokUrl).value).Success?)
            ==> r.Success?
  {
    var token := PyStr.Strip(vars.token);
    if token == "" {
      return Failure("TELEGRAM_TOKEN es obligatorio.");
    }
    var secretText := PyStr.Strip(vars.secret);
    var secretToken := if secretText != "" then Some(secretText) else None;
    var drop := ParseBoolEnv(vars.dropPendingUpdates, true);
    if drop.Failure? {
      return Failure(drop.error);
    }
    var baseUrl := ResolveBaseUrl(vars.webhookUrl, ngrokUrl);
    if baseUrl.Failure? {
      return Failure(baseUrl.error);
    }
    var webhookUrl := BuildWebhookUrl(baseUrl.value);
    if webhookUrl.Failure? {
      return Failure(webhookUrl.error);
    }
    var payload := BuildSetWebhookPayload(webhookUrl.value, secretToken, drop.value);
    r := Success(SetupRequest(token, payload));
  }
}
