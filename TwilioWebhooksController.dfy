/**
 * The endpoint: the processor configuration it builds for a request, chosen by
 * the optional route parameter `configKey`. Running the processor (storing the
 * call, mapping exceptions to statuses, queueing the job) is not part of this
 * model.
 */
module Controller {
  import opened Wrappers
  import opened Php
  import opened Http
  import opened Failures
  import opened Signature
  import opened Config
  import Validation

  const ValidatorClass := "BinaryCats\\TwilioWebhooks\\TwilioSignatureValidator"
  const ProcessEverythingProfile := "Spatie\\WebhookClient\\WebhookProfile\\ProcessEverythingWebhookProfile"

  /** The setting that holds the secret for an endpoint. */
  function SecretSettingName(configKey: Option<string>): string {
    if Truthy(configKey) then "signing_token_" + configKey.value else "signing_token"
  }

  /**
   * The configuration for the endpoint reached with `configKey`: a truthy key
   * selects the secret stored under `signing_token_<key>`, anything else the
   * default `signing_token`; every other field is fixed or copied from the
   * settings.
   */
  function ConfigFor(settings: Settings, configKey: Option<string>): (c: WebhookConfig)
    ensures c.name == "twilio" && c.signatureHeaderName == "X-Twilio-Signature"
    ensures c.signatureValidator == ValidatorClass && c.webhookProfile == ProcessEverythingProfile
    ensures c.webhookModel == Setting(settings, "model")
    ensures c.processWebhookJob == Setting(settings, "process_webhook_job")
    ensures Truthy(configKey) ==> c.signingSecret == Setting(settings, "signing_token_" + configKey.value)
    ensures !Truthy(configKey) ==> c.signingSecret == Setting(settings, "signing_token")
  {
    WebhookConfig(
      "twilio",
      Setting(settings, SecretSettingName(configKey)),
      "X-Twilio-Signature",
      ValidatorClass,
      ProcessEverythingProfile,
      Setting(settings, "model"),
      Setting(settings, "process_webhook_job"))
  }

  /** A missing, empty or `'0'` route key all reach the default endpoint. */
  lemma FalsyKeysShareDefaultEndpoint(settings: Settings)
    ensures ConfigFor(settings, None) == ConfigFor(settings, Some("")) == ConfigFor(settings, Some("0"))
  {
  }

  /** Distinct truthy keys read distinct settings, so their secrets are independent. */
  lemma DistinctKeysReadDistinctSettings(k1: string, k2: string)
    requires Truthy(Some(k1)) && Truthy(Some(k2)) && k1 != k2
    ensures SecretSettingName(Some(k1)) != SecretSettingName(Some(k2))
  {
    assert SecretSettingName(Some(k1))[14..] == k1;
  }

  /**
   * An endpoint key never falls back to the default secret: when its own token is
   * not configured (or the key holds a dot, which config() reads as a path), an
   * enabled check throws `signingSecretNotSet` even if `signing_token` is set.
   */
  lemma EndpointWithoutTokenThrows(settings: Settings, configKey: string, request: Request, scheme: Scheme)
    requires Truthy(Some(configKey))
    requires settings.verifySignature
    requires "signing_token_" + configKey !in settings.values || '.' in configKey
    ensures Validation.Decision(request, ConfigFor(settings, Some(configKey)), settings.verifySignature, scheme)
      == Err(Failed(SigningSecretNotSet()))
  {
  }

  /** Whatever endpoint is reached, the signature is read from `X-Twilio-Signature`
      and checked against that endpoint's secret. */
  lemma EndpointChecksItsOwnSecret(settings: Settings, configKey: Option<string>, request: Request, scheme: Scheme)
    requires settings.verifySignature
    requires !IsEmpty(Setting(settings, SecretSettingName(configKey)))
    requires Header(request, "X-Twilio-Signature").Some?
    ensures Validation.Decision(request, ConfigFor(settings, configKey), true, scheme)
      == Ok(scheme(Setting(settings, SecretSettingName(configKey)).value, Header(request, "X-Twilio-Signature").value,
                   request.fullUrl, WithoutQueryKeys(request.all, request.queryKeys)))
  {
  }
}
