/**
 * The exception values the core raises, their messages and codes, and how a
 * failure is rendered into an HTTP response.
 */
module Failures {
  import opened Strings
  import Http
  import opened Records

  /** A `WebhookFailed` exception: its message and its code. */
  datatype WebhookFailed = WebhookFailed(message: string, code: int)

  /** Whatever escapes the shown code: a `WebhookFailed`; the `ErrorException`
      that Laravel's error handler makes of PHP's warning for reading an absent
      array key (an `Exception`, so `catch (Exception)` would catch it); or the
      `TypeError` PHP raises when null is passed where a string parameter is
      declared (an `Error`, which `catch (Exception)` does not catch). */
  datatype Thrown =
    | Failed(failure: WebhookFailed)
    | UndefinedArrayKey(key: string)
    | NullArgument(parameter: string)

  /** The code PHP gives an exception constructed without one. */
  const DefaultCode := 0

  const InvalidSignatureMessage := "The signature is invalid."
  const SecretNotSetMessage :=
    "The webhook signing secret is not set." + " Make sure that the `signing_secret` config key is set to the correct value."

  function InvalidSignature(): (e: WebhookFailed)
    ensures e.message == InvalidSignatureMessage && e.code == 422
  {
    WebhookFailed(InvalidSignatureMessage, 422)
  }

  function SigningSecretNotSet(): (e: WebhookFailed)
    ensures e.message == SecretNotSetMessage && e.code == DefaultCode
  {
    WebhookFailed(SecretNotSetMessage, DefaultCode)
  }

  /** The part of the missing-type message that follows the id. */
  const MissingTypeTail := "` did not contain a type." + " Valid Twilio webhook calls should contain a type."

  function MissingType(call: WebhookCall): (e: WebhookFailed)
    ensures e.code == DefaultCode
    ensures e.message == "Webhook call id `" + Decimal(call.id) + MissingTypeTail
  {
    WebhookFailed("Webhook call id `" + Decimal(call.id) + MissingTypeTail, DefaultCode)
  }

  /**
   * The failure for a configured job class that does not exist. Its message
   * always reads the payload's `CallStatus` entry, whatever key the job was told
   * to read the type from; when the payload has no such entry, building the
   * message itself fails with PHP's undefined-key error.
   */
  function JobClassDoesNotExist(jobClass: string, call: WebhookCall): (t: Thrown)
    ensures t.Failed? <==> "CallStatus" in call.payload
    ensures !t.Failed? ==> t == UndefinedArrayKey("CallStatus")
    ensures t.Failed? ==> t.failure.code == DefaultCode
    ensures t.Failed? ==> (t.failure.message ==
      "Could not process webhook id `" + Decimal(call.id) + "` of type `" + call.payload["CallStatus"]
      + "` because the configured jobclass `" + jobClass + "` does not exist.")
  {
    if "CallStatus" in call.payload then
      Failed(WebhookFailed(
        "Could not process webhook id `" + Decimal(call.id) + "` of type `" + call.payload["CallStatus"]
        + "` because the configured jobclass `" + jobClass + "` does not exist.",
        DefaultCode))
    else
      UndefinedArrayKey("CallStatus")
  }

  /** `render`: status 400 and a body holding only the message under `error`. */
  function Render(e: WebhookFailed): (r: Http.Response)
    ensures r.status == 400
    ensures r.body.Keys == {"error"} && r.body["error"] == e.message
  {
    Http.Response(400, map["error" := e.message])
  }

  /** The rendered response depends on the message alone: the exception's own
      code (422 for an invalid signature) never reaches the status. */
  lemma RenderIgnoresCode(e: WebhookFailed, f: WebhookFailed)
    requires e.message == f.message
    ensures Render(e) == Render(f)
  {
  }

  /** Since the code is dropped on rendering, the message alone tells the kinds of
      failure apart: no two kinds ever share a message. */
  lemma FailureKindsDistinct(a: WebhookCall, b: WebhookCall, jobClass: string)
    ensures InvalidSignature().message != SigningSecretNotSet().message
    ensures InvalidSignature().message != MissingType(a).message
    ensures SigningSecretNotSet().message != MissingType(a).message
    ensures JobClassDoesNotExist(jobClass, b).Failed? ==>
      var m := JobClassDoesNotExist(jobClass, b).failure.message;
      m != InvalidSignature().message && m != SigningSecretNotSet().message && m != MissingType(a).message
  {
    assert InvalidSignature().message[4] == 's';
    assert SecretNotSetMessage[4] == 'w';
    assert MissingType(a).message[0] == 'W';
    if JobClassDoesNotExist(jobClass, b).Failed? {
      assert JobClassDoesNotExist(jobClass, b).failure.message[0] == 'C';
    }
  }

  /** The missing-type message names the call: two calls whose messages agree have
      the same id. */
  lemma MissingTypeIdentifiesCall(a: WebhookCall, b: WebhookCall)
    requires MissingType(a).message == MissingType(b).message
    ensures a.id == b.id
  {
    var p := "Webhook call id `";
    var da, db := Decimal(a.id), Decimal(b.id);
    var ma, mb := MissingType(a).message, MissingType(b).message;
    assert |da| == |db|;
    assert ma[|p|..|p| + |da|] == da;
    assert mb[|p|..|p| + |db|] == db;
    DecimalInjective(a.id, b.id);
  }

  /** The message expected for the first stored call (id 1) that lacks a type. */
  lemma MissingTypeMessageForFirstCall(call: WebhookCall)
    requires call.id == 1
    ensures MissingType(call).message ==
      "Webhook call id `1` did not contain a type." + " Valid Twilio webhook calls should contain a type."
  {
    assert Decimal(1) == "1";
    assert MissingType(call).message == "Webhook call id `" + "1" + MissingTypeTail;
    assert "Webhook call id `" + "1" + "` did not contain a type." == "Webhook call id `1` did not contain a type.";
  }
}
