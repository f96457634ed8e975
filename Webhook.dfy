/** `Webhook::constructEvent`: the signature gate in front of event construction. */
module Webhooks {
  import opened Wrappers
  import opened Http
  import opened Failures
  import opened Signature

  /**
   * Checks the signature of `request` with `secret` and, when it matches, yields
   * the data the event is built from: the whole request input, query parameters
   * included, not the stripped data that was checked. A mismatch throws
   * `invalidSignature`.
   */
  method ConstructEvent(request: Request, signature: string, secret: string, scheme: Scheme)
    returns (r: Result<map<string, string>, Thrown>)
    ensures r.Ok? <==> scheme(secret, signature, request.fullUrl, WithoutQueryKeys(request.all, request.queryKeys))
    ensures r.Ok? ==> r.value == request.all
    ensures r.Err? ==> r.error == Failed(InvalidSignature())
  {
    var webhookSignature := WebhookSignature.Make(request, signature, secret);
    var valid := webhookSignature.Verify(scheme);
    if !valid {
      return Err(Failed(InvalidSignature()));
    }
    r := Ok(request.all);
  }
}
