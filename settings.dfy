/**
 * The plugin's option array (includes/class-settings.php): the sanitizer run
 * when the settings form is saved, and the lookups every other component
 * makes. `options` is the stored array, `get_option('soumais_locator_settings', [])`.
 */
module Settings {
  import opened Php
  import opened WordPress

  /** The keys the settings form defines, each with a default. */
  const DefaultKeys: set<string> := {
    "base_url", "default_radius", "results_limit", "webhook_url", "webhook_enabled",
    "recaptcha_key", "github_token", "lgpd_message", "cta_label"
  }

  /** The fallback call-to-action label. */
  const DefaultCtaLabel := "Ver planos"

  /**
   * The default of a known key. `defaultWebhookUrl` is the constant
   * SOUMAIS_LOCATOR_DEFAULT_WEBHOOK_URL ('' when it is not defined).
   */
  function DefaultValue(key: string, defaultWebhookUrl: string): Value
  {
    if key == "default_radius" then Int(10)
    else if key == "results_limit" then Int(6)
    else if key == "webhook_url" then Str(defaultWebhookUrl)
    else if key == "webhook_enabled" then Int(1)
    else if key == "lgpd_message" then Str("Autorizo o contato da Academia Sou Mais.")
    else if key == "cta_label" then Str(DefaultCtaLabel)
    else Str("")
  }

  /**
   * `wp_parse_args($input, $defaults)` read at one key: the supplied value
   * wins, a missing known key takes its default.
   */
  function Merged(input: map<string, Value>, defaultWebhookUrl: string, key: string): (r: Value)
    ensures key in input ==> r == input[key]
    ensures key !in input ==> r == DefaultValue(key, defaultWebhookUrl) && r != Null
    ensures key !in input && key == "webhook_url" ==> r == Str(defaultWebhookUrl)
  {
    if key in input then input[key] else DefaultValue(key, defaultWebhookUrl)
  }

  /** The value `sanitize` stores under one of the known keys. */
  function SanitizeKey(wp: Platform, key: string, v: Value): (r: Value)
    ensures r.Int? || r.Str?
    ensures key == "default_radius" || key == "results_limit" ==> r.Int? && r.i >= 0
    ensures key == "webhook_enabled" ==> (r == Int(0) || r == Int(1)) && (r == Int(1) <==> Truthy(v))
    ensures key == "cta_label" ==> r.Str? && Trim(r.s) != ""
    ensures key == "cta_label" && v.Arr? ==> r == Str(DefaultCtaLabel)
    ensures (key == "recaptcha_key" || key == "github_token") && v.Arr? ==> r == Str("")
  {
    assert Trim(DefaultCtaLabel) != "" by {
      assert !IsTrimSpace(DefaultCtaLabel[0]);
      TrimEmptyIffBlank(DefaultCtaLabel);
    }
    if key == "base_url" || key == "webhook_url" then Str(wp.escUrlRaw(ToStr(wp.casts, v)))
    else if key == "default_radius" || key == "results_limit" then Int(AbsInt(wp.casts, v))
    else if key == "webhook_enabled" then Int(if Truthy(v) then 1 else 0)
    else if key == "lgpd_message" then Str(wp.ksesPost(ToStr(wp.casts, v)))
    else if key == "cta_label" then
      var text := TextField(wp, v);
      Str(if Trim(text) == "" then DefaultCtaLabel else text)
    else Str(TextField(wp, v))
  }

  /**
   * `Settings::sanitize`: `wp_parse_args` fills the missing keys from the
   * defaults (the supplied value wins), then each known key is re-sanitized.
   */
  function Sanitize(wp: Platform, input: map<string, Value>, defaultWebhookUrl: string): (r: map<string, Value>)
    ensures r.Keys == input.Keys + DefaultKeys
    ensures forall k :: k in input && k !in DefaultKeys ==> r[k] == input[k]
  {
    map k | k in input.Keys + DefaultKeys ::
      if k in DefaultKeys then SanitizeKey(wp, k, Merged(input, defaultWebhookUrl, k)) else input[k]
  }

  /** The radius and the result limit are stored as non-negative integers. */
  lemma SanitizedCounts(wp: Platform, input: map<string, Value>, d: string)
    ensures Sanitize(wp, input, d)["default_radius"].Int? && Sanitize(wp, input, d)["default_radius"].i >= 0
    ensures Sanitize(wp, input, d)["results_limit"].Int? && Sanitize(wp, input, d)["results_limit"].i >= 0
  {
    SanitizedAt(wp, input, d, "default_radius");
    SanitizedAt(wp, input, d, "results_limit");
  }

  /** The webhook flag is stored as 0 or 1, following the supplied (or default) value. */
  lemma SanitizedFlag(wp: Platform, input: map<string, Value>, d: string)
    ensures Sanitize(wp, input, d)["webhook_enabled"] == Int(0) || Sanitize(wp, input, d)["webhook_enabled"] == Int(1)
    ensures Sanitize(wp, input, d)["webhook_enabled"] == Int(1)
      <==> Truthy(Merged(input, d, "webhook_enabled"))
  {
    SanitizedAt(wp, input, d, "webhook_enabled");
  }

  /** The call-to-action label is never blank: a blank one falls back to the default. */
  lemma SanitizedCtaLabel(wp: Platform, input: map<string, Value>, d: string)
    ensures Sanitize(wp, input, d)["cta_label"].Str? && Trim(Sanitize(wp, input, d)["cta_label"].s) != ""
    ensures var supplied := TextField(wp, Merged(input, d, "cta_label"));
      Sanitize(wp, input, d)["cta_label"] == Str(if Trim(supplied) == "" then DefaultCtaLabel else supplied)
  {
    SanitizedAt(wp, input, d, "cta_label");
  }

  /** No known key is stored as null. */
  lemma SanitizedNoNull(wp: Platform, input: map<string, Value>, d: string)
    ensures forall k :: k in DefaultKeys ==> Sanitize(wp, input, d)[k] != Null
  {
    forall k | k in DefaultKeys ensures Sanitize(wp, input, d)[k] != Null {
      SanitizedAt(wp, input, d, k);
    }
  }

  /** A known key holds its merged value, re-sanitized. */
  lemma SanitizedAt(wp: Platform, input: map<string, Value>, d: string, k: string)
    requires k in DefaultKeys
    ensures k in Sanitize(wp, input, d)
    ensures Sanitize(wp, input, d)[k] == SanitizeKey(wp, k, Merged(input, d, k))
  {
  }

  /** `Settings::get_option`: `$options[$key] ?? $default`. */
  function GetOption(options: map<string, Value>, key: string, default: Value): (r: Value)
    ensures key in options && options[key] != Null ==> r == options[key]
    ensures !(key in options && options[key] != Null) ==> r == default
  {
    if key in options && options[key] != Null then options[key] else default
  }

  /**
   * `Settings::get_webhook_url`: the stored URL, or the build's default
   * (`SOUMAIS_LOCATOR_DEFAULT_WEBHOOK_URL`) when none is stored.
   */
  function GetWebhookUrl(options: map<string, Value>, defaultWebhookUrl: string): (r: Value)
    ensures r != Null
    ensures "webhook_url" in options && options["webhook_url"] != Null ==> r == options["webhook_url"]
    ensures r != Str(defaultWebhookUrl) ==> "webhook_url" in options && r == options["webhook_url"]
  {
    GetOption(options, "webhook_url", Str(defaultWebhookUrl))
  }

  /**
   * `Settings::webhook_enabled`: the stored flag when set, otherwise whether
   * a webhook URL is configured.
   */
  function WebhookEnabled(options: map<string, Value>, defaultWebhookUrl: string): (r: bool)
    ensures "webhook_enabled" in options && options["webhook_enabled"] != Null
      ==> (r <==> Truthy(options["webhook_enabled"]))
    ensures !("webhook_enabled" in options && options["webhook_enabled"] != Null)
      ==> (r <==> Truthy(GetWebhookUrl(options, defaultWebhookUrl)))
  {
    var fallback := if Truthy(GetWebhookUrl(options, defaultWebhookUrl)) then Int(1) else Int(0);
    Truthy(GetOption(options, "webhook_enabled", fallback))
  }

  /** `Settings::recaptcha_enabled`: a truthy reCAPTCHA key is configured. */
  function RecaptchaEnabled(options: map<string, Value>): (r: bool)
    ensures r <==> "recaptcha_key" in options && Truthy(options["recaptcha_key"])
  {
    Truthy(GetOption(options, "recaptcha_key", Bool(false)))
  }

  /** `Settings::github_token`: the stored token without surrounding whitespace. */
  function GithubToken(c: Casts, options: map<string, Value>): (r: string)
    ensures r == [] || (!IsTrimSpace(r[0]) && !IsTrimSpace(r[|r| - 1]))
    ensures "github_token" !in options || options["github_token"] == Null ==> r == ""
    ensures "github_token" in options && options["github_token"].Str?
      ==> r == Trim(options["github_token"].s)
  {
    Trim(ToStr(c, GetOption(options, "github_token", Str(""))))
  }

  /**
   * After `sanitize`, every known option is found by `get_option` (no key
   * falls back to the caller's default), and `webhook_enabled()` reads the
   * sanitized flag rather than the URL fallback.
   */
  lemma SanitizedOptionsAreFound(wp: Platform, input: map<string, Value>, d: string, key: string, default: Value)
    requires key in DefaultKeys
    ensures GetOption(Sanitize(wp, input, d), key, default) == Sanitize(wp, input, d)[key]
    ensures WebhookEnabled(Sanitize(wp, input, d), d) <==> Truthy(Merged(input, d, "webhook_enabled"))
  {
  }

  /**
   * After `sanitize`, `get_webhook_url()` answers the escaped URL that was
   * saved: the supplied one, or the build's default when none was supplied.
   */
  lemma SanitizedWebhookUrl(wp: Platform, input: map<string, Value>, d: string)
    ensures GetWebhookUrl(Sanitize(wp, input, d), d) == Str(wp.escUrlRaw(ToStr(wp.casts, Merged(input, d, "webhook_url"))))
    ensures "webhook_url" !in input ==> GetWebhookUrl(Sanitize(wp, input, d), d) == Str(wp.escUrlRaw(ToStr(wp.casts, Str(d))))
  {
    SanitizedAt(wp, input, d, "webhook_url");
  }
}
