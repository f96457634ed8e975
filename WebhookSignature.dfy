/**
 * Twilio request signing. The scheme itself (HMAC-SHA1 over the URL and the
 * sorted parameters, base64-encoded) is computed by Twilio's SDK and enters the
 * model as the parameter `scheme`: `scheme(token, signature, url, params)` is
 * whether `signature` is the token's signature of `url` and `params`.
 */
module Signature {
  import opened Http

  type Scheme = (string, string, string, map<string, string>) -> bool

  /** Twilio's request validator, built from an auth token. */
  datatype RequestValidator = RequestValidator(authToken: string) {
    function Validate(scheme: Scheme, signature: string, url: string, params: map<string, string>): bool {
      scheme(authToken, signature, url, params)
    }
  }

  /** The request input with every parameter named in the URL's query string
      removed, whatever its value; nothing is added and every other entry keeps
      its value. */
  function WithoutQueryKeys(all: map<string, string>, queryKeys: set<string>): (r: map<string, string>)
    ensures r.Keys == all.Keys - queryKeys
    ensures forall k :: k in r ==> r[k] == all[k]
  {
    all - queryKeys
  }

  /** A body entry that shares its name with a query parameter is dropped even
      when the two values differ. */
  lemma QueryNameShadowsBodyEntry(all: map<string, string>, queryKeys: set<string>, k: string)
    requires k in queryKeys
    ensures k !in WithoutQueryKeys(all, queryKeys)
  {
  }

  class WebhookSignature {
    const request: Request
    const signature: string
    const secret: string
    const validator: RequestValidator

    /** The validator was built from the stored secret. */
    ghost predicate Valid() {
      validator == RequestValidator(secret)
    }

    constructor (request: Request, signature: string, secret: string)
      ensures this.request == request && this.signature == signature && this.secret == secret
      ensures Valid()
    {
      this.request := request;
      this.signature := signature;
      this.secret := secret;
      this.validator := RequestValidator(secret);
    }

    static method Make(request: Request, signature: string, secret: string) returns (s: WebhookSignature)
      ensures fresh(s)
      ensures s.request == request && s.signature == signature && s.secret == secret
      ensures s.Valid()
    {
      s := new WebhookSignature(request, signature, secret);
    }

    /** The validator's verdict on the stored signature, the full URL (query
        string included) and the request input stripped of the query parameters. */
    method Verify(scheme: Scheme) returns (valid: bool)
      requires Valid()
      ensures valid == scheme(secret, signature, request.fullUrl, WithoutQueryKeys(request.all, request.queryKeys))
    {
      var fullUrl := request.fullUrl;
      var queryParams := request.queryKeys;
      var requestData := request.all;
      var pending := queryParams;
      while pending != {}
        invariant pending <= queryParams
        invariant requestData == request.all - (queryParams - pending)
        decreases pending
      {
        var key :| key in pending;
        requestData := requestData - {key};
        pending := pending - {key};
      }
      assert queryParams - pending == queryParams;
      valid := validator.Validate(scheme, signature, fullUrl, requestData);
    }
  }
}
