/**
 * The `twilio-webhooks` configuration section and the per-endpoint
 * `WebhookConfig` value the controller hands to the webhook processor.
 */
module Config {
  import opened Wrappers
  import opened Php

  /**
   * The configuration section. `values` holds its string entries
   * (`signing_token`, any `signing_token_<key>`, `model`, `process_webhook_job`);
   * `jobs` maps event types to job class names; `verifySignature` is the PHP
   * truthiness of `verify_signature`.
   */
  datatype Settings = Settings(
    values: map<string, string>,
    jobs: map<string, string>,
    verifySignature: bool)

  /** `config('twilio-webhooks.<name>')`: null when the entry is absent. */
  function Setting(settings: Settings, name: string): Option<string> {
    FlatGet(settings.values, name)
  }

  const WebhookCallModel := "Spatie\\WebhookClient\\Models\\WebhookCall"
  const ProcessJobClass := "BinaryCats\\TwilioWebhooks\\ProcessTwilioWebhookJob"

  /**
   * The published defaults, given the value of the `TWILIO_WEBHOOK_SECRET`
   * environment variable (null when unset) and with `TWILIO_SIGNATURE_VERIFY`
   * unset: signatures are verified and no job is configured.
   */
  function Defaults(secret: Option<string>): (s: Settings)
    ensures s.verifySignature && s.jobs == map[]
    ensures Setting(s, "signing_token") == secret
    ensures Setting(s, "model") == Some(WebhookCallModel)
    ensures Setting(s, "process_webhook_job") == Some(ProcessJobClass)
  {
    var fixed := map["model" := WebhookCallModel, "process_webhook_job" := ProcessJobClass];
    var values := if secret.Some? then fixed["signing_token" := secret.value] else fixed;
    Settings(values, map[], true)
  }

  /** The processor configuration for one endpoint. */
  datatype WebhookConfig = WebhookConfig(
    name: string,
    signingSecret: Option<string>,
    signatureHeaderName: string,
    signatureValidator: string,
    webhookProfile: string,
    webhookModel: Option<string>,
    processWebhookJob: Option<string>)
}
