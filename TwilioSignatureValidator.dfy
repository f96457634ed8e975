/**
 * `TwilioSignatureValidator::isValid`: the decision whether a request may be
 * stored. It accepts, rejects, or throws.
 */
module Validation {
  import opened Wrappers
  import opened Php
  import opened Http
  import opened Failures
  import opened Signature
  import opened Config
  import Webhooks

  /**
   * The outcome of validation: `Ok(true)` accepts, `Ok(false)` rejects, `Err`
   * is an exception that escapes. The check is skipped when verification is
   * disabled; an empty secret throws; a missing signature header hands null to
   * a `string` parameter, a type error that `catch (Exception)` does not catch;
   * every exception from the signature check, `invalidSignature` included, is
   * reported and turned into a rejection.
   */
  function Decision(request: Request, config: WebhookConfig, verifySignature: bool, scheme: Scheme): Result<bool, Thrown> {
    if !verifySignature then Ok(true)
    else if IsEmpty(config.signingSecret) then Err(Failed(SigningSecretNotSet()))
    else match Header(request, config.signatureHeaderName)
      case None => Err(NullArgument("signature"))
      case Some(signature) =>
        Ok(scheme(config.signingSecret.value, signature, request.fullUrl, WithoutQueryKeys(request.all, request.queryKeys)))
  }

  method IsValid(request: Request, config: WebhookConfig, verifySignature: bool, scheme: Scheme)
    returns (r: Result<bool, Thrown>)
    ensures r == Decision(request, config, verifySignature, scheme)
  {
    if !verifySignature {
      return Ok(true);
    }
    var signature := Header(request, config.signatureHeaderName);
    var secret := config.signingSecret;
    if IsEmpty(secret) {
      return Err(Failed(SigningSecretNotSet()));
    }
    if signature.None? {
      return Err(NullArgument("signature"));
    }
    var event := Webhooks.ConstructEvent(request, signature.value, secret.value, scheme);
    if event.Err? {
      // report($exception) has no effect on the outcome
      return Ok(false);
    }
    r := Ok(true);
  }

  /** With verification disabled every request passes, whatever its signature and
      even when no secret is configured. */
  lemma BypassAcceptsEverything(request: Request, config: WebhookConfig, scheme: Scheme)
    ensures Decision(request, config, false, scheme) == Ok(true)
  {
  }

  /** With verification enabled, an empty secret (null, `''` or `'0'`) throws
      `signingSecretNotSet` instead of rejecting. */
  lemma EmptySecretThrows(request: Request, config: WebhookConfig, scheme: Scheme)
    requires IsEmpty(config.signingSecret)
    ensures Decision(request, config, true, scheme) == Err(Failed(SigningSecretNotSet()))
  {
  }

  /** With verification enabled, a request passes exactly when a secret is set,
      the signature header is present, and the signature matches the URL and the
      input stripped of query parameters. */
  lemma AcceptedIffSignatureMatches(request: Request, config: WebhookConfig, scheme: Scheme)
    ensures Decision(request, config, true, scheme) == Ok(true) <==>
      && !IsEmpty(config.signingSecret)
      && Header(request, config.signatureHeaderName).Some?
      && scheme(config.signingSecret.value, Header(request, config.signatureHeaderName).value,
                request.fullUrl, WithoutQueryKeys(request.all, request.queryKeys))
  {
  }

  /** A failed signature check is a rejection, never an escaping exception: the
      `invalidSignature` thrown inside is always caught. */
  lemma InvalidSignatureNeverEscapes(request: Request, config: WebhookConfig, verifySignature: bool, scheme: Scheme)
    ensures Decision(request, config, verifySignature, scheme) != Err(Failed(InvalidSignature()))
  {
  }
}
