# Twilio webhooks for Laravel: a Dafny model of the ingestion core

This project models the decision code of a Laravel package that receives Twilio
webhooks. It covers five parts:

- the signature gate (`TwilioSignatureValidator`, `Webhook::constructEvent`,
  `WebhookSignature`), which decides whether a request is accepted, rejected or
  throws;
- the per-endpoint configuration built by `TwilioWebhooksController`, and the
  secret it selects through the optional route parameter `configKey`;
- the queued job `ProcessTwilioWebhookJob`, which reads the event type from one
  payload field, fires an event named after it, and dispatches the job class
  configured for that type;
- the `WebhookFailed` exceptions: their messages and codes, and how they are
  rendered;
- the published configuration defaults.

Modules, one per source file, with small helper modules:

| module | file | models |
|---|---|---|
| `Failures` | WebhookFailed.dfy | src/Exceptions/WebhookFailed.php |
| `Signature` | WebhookSignature.dfy | src/WebhookSignature.php (class `WebhookSignature`) |
| `Webhooks` | Webhook.dfy | src/Webhook.php |
| `Validation` | TwilioSignatureValidator.dfy | src/TwilioSignatureValidator.php |
| `Config` | Config.dfy | config/twilio-webhooks.php and the processor's `WebhookConfig` value |
| `Controller` | TwilioWebhooksController.dfy | src/TwilioWebhooksController.php |
| `Processing` | ProcessTwilioWebhookJob.dfy | src/ProcessTwilioWebhookJob.php (class `ProcessTwilioWebhookJob`) |
| `Records`, `Http`, `Php`, `Strings`, `Wrappers` | WebhookCall.dfy, Http.dfy, Php.dfy, Strings.dfy, Wrappers.dfy | the stored call, requests and responses, PHP truthiness and Laravel's dot-path getter, ASCII lower-casing, dot replacement, decimal printing, Option/Result |

How the model is built:

- **Foreign code becomes parameters.** Twilio's signing scheme (HMAC-SHA1 over
  the URL and parameters, computed by Twilio's SDK) is the parameter `scheme`.
  `class_exists` is membership in `knownClasses`. The job table is the parameter
  `jobs`. The event bus and the queue are the ghost logs `events` and `queue` of
  the job object.
- **Exceptions become values.** An exception that escapes is the `Thrown` value
  `Err(...)` or `Some(...)`. `isValid` returns `Ok(true)` to accept, `Ok(false)`
  to reject, or `Err(thrown)`.
- **Values are strings or null.** Payload and configuration values are strings,
  and null is `None`. Because of this, a dot-notation path that holds a dot
  (`payload.a.b`, `twilio-webhooks.signing_token_a.b`) reads nothing: it would
  have to descend into a string.
- **Two PHP errors are modelled.** When the signature header is missing,
  `header()` returns null. Passing that null to the `string $signature`
  parameter of `constructEvent` raises a `TypeError`. `catch (Exception)` does
  not catch a `TypeError`, so it escapes (`NullArgument("signature")`). Second,
  `jobClassDoesNotExist` always reads `payload['CallStatus']`. If the job's key
  was changed and the payload has no `CallStatus`, reading that absent key makes
  PHP emit an `E_WARNING`. Laravel's error handler converts the warning into a
  thrown `ErrorException`, which is an `Exception`, not an `Error`
  (`UndefinedArrayKey("CallStatus")`).

Further facts about the package that the model keeps:

- The type is read from one configurable field, `CallStatus` unless `setKey`
  changes it.
- Query parameters are always removed from the parameters whose signature is
  checked; the URL keeps its query string.
- `signingSecretNotSet` carries the default code 0.
- Header names are looked up as Symfony's header bag stores them: case folded
  and `_` read as `-`.

## Model

| member | source | states |
|---|---|---|
| `Strings.Lower` | src/ProcessTwilioWebhookJob.php:91-96 | lower-casing keeps the length, leaves no upper-case letter, keeps every non-letter character (dots included) and maps each upper-case letter to its lower-case partner |
| `Strings.ReplaceDots` | src/ProcessTwilioWebhookJob.php:79-85 | every dot becomes `_` and every other character is kept, so the result holds no dot |
| `Strings.DecimalRoundTrip` | src/Exceptions/WebhookFailed.php:40-43 | the id printed into a message reads back as the same id |
| `Php.FlatGet` | src/ProcessTwilioWebhookJob.php:26 | a dot-path lookup finds a value exactly when the path holds no dot and names an entry, and then it is that entry |
| `Php.Truthy` | src/ProcessTwilioWebhookJob.php:28 | a string or null is false exactly when it is null, `''` or `'0'`; every other string is true (also the test of `$configKey` at src/TwilioWebhooksController.php:23) |
| `Php.IsEmpty` | src/TwilioSignatureValidator.php:29 | `empty()` holds for null, `''` and `'0'`, and is exactly the negation of truthiness |
| `Strings.Decimal` | src/Exceptions/WebhookFailed.php:33 | PHP's decimal digits of the id interpolated into the messages: at least one digit, all digits, and no leading zero except for the id 0 itself; `Strings.DecimalRoundTrip` reads them back |
| `Http.HeaderKey` | src/TwilioSignatureValidator.php:26 | the header bag's key for a name keeps the length, folds upper-case letters to lower case, turns `_` into `-` and keeps every other character |
| `Http.Header` | src/TwilioSignatureValidator.php:26 | a header is found exactly when the request carries one under the name's normalised key, and then it is that value; otherwise the lookup reads null |
| `Http.SignatureHeaderSpellings` | src/TwilioSignatureValidator.php:26 | `X_Twilio_Signature`, `x-twilio-signature` and `X-Twilio-Signature` find the same header |
| `Failures.InvalidSignature` | src/Exceptions/WebhookFailed.php:13-16 | message `The signature is invalid.` and code 422 |
| `Failures.SigningSecretNotSet` | src/Exceptions/WebhookFailed.php:21-24 | the fixed "signing secret is not set" message and the default code 0 |
| `Failures.MissingType` | src/Exceptions/WebhookFailed.php:40-43 | the message embeds the call's id between the fixed head and tail; default code |
| `Failures.JobClassDoesNotExist` | src/Exceptions/WebhookFailed.php:31-34 | the message embeds the id, `payload['CallStatus']` (whatever key the job used) and the class name; when the payload has no `CallStatus`, PHP's undefined-key error is thrown instead |
| `Failures.Render` | src/Exceptions/WebhookFailed.php:49-52 | the response always has status 400 and a body holding only `error`, which is the message |
| `Failures.RenderIgnoresCode` | src/Exceptions/WebhookFailed.php:49-52 | two failures with the same message render identically, whatever their codes (422 included) |
| `Failures.FailureKindsDistinct` | src/Exceptions/WebhookFailed.php:13-43 | no two kinds of failure ever share a message, so the rendered body alone tells them apart |
| `Failures.MissingTypeIdentifiesCall` | src/Exceptions/WebhookFailed.php:40-43 | equal missing-type messages imply equal call ids |
| `Failures.MissingTypeMessageForFirstCall` | tests/IntegrationTest.php:168 | for call id 1 the message is exactly the text the integration test expects |
| `Signature.WithoutQueryKeys` | src/WebhookSignature.php:69-72 | the stripped data keeps exactly the input's names that are not query parameters, each with its original value; nothing is added |
| `Signature.QueryNameShadowsBodyEntry` | src/WebhookSignature.php:70-71 | an input entry named like a query parameter is removed whatever its value |
| `Signature.WebhookSignature.constructor` | src/WebhookSignature.php:35-41 | stores request, signature and secret unchanged and builds the validator from that secret |
| `Signature.WebhookSignature.Make` | src/WebhookSignature.php:51-54 | returns a fresh object holding the same request, signature and secret, with the validator built from the secret |
| `Signature.WebhookSignature.Verify` | src/WebhookSignature.php:61-75 | the result is exactly the validator's verdict on the stored signature, the full URL (query string included) and the input with every query parameter removed |
| `Webhooks.ConstructEvent` | src/Webhook.php:19-26 | succeeds exactly when the signature check passes, and then yields the full unstripped input; otherwise throws `invalidSignature` |
| `Validation.IsValid` | src/TwilioSignatureValidator.php:20-40 | the outcome equals `Validation.Decision`: bypass, then secret check, then header, then signature; any exception from the check becomes a rejection |
| `Validation.BypassAcceptsEverything` | src/TwilioSignatureValidator.php:22-24 | with verification disabled every request passes, whatever the signature and even with no secret |
| `Validation.EmptySecretThrows` | src/TwilioSignatureValidator.php:29 | with verification enabled, a null, `''` or `'0'` secret throws `signingSecretNotSet` instead of rejecting |
| `Validation.AcceptedIffSignatureMatches` | src/TwilioSignatureValidator.php:26-39 | with verification enabled, a request passes if and only if a secret is set, the header is present and the signature matches the URL and the stripped input |
| `Validation.InvalidSignatureNeverEscapes` | src/TwilioSignatureValidator.php:31-36 | `invalidSignature` never leaves the validator: a mismatch is a rejection |
| `Config.Defaults` | config/twilio-webhooks.php:8-39 | the published defaults verify signatures, configure no job, read the secret from the environment and name the stock model and job classes |
| `Controller.ConfigFor` | src/TwilioWebhooksController.php:21-31 | name `twilio`, header `X-Twilio-Signature`, the fixed validator and profile, model and job taken from config; a truthy key selects `signing_token_<key>`, any other the default `signing_token` |
| `Controller.FalsyKeysShareDefaultEndpoint` | src/TwilioWebhooksController.php:23-25 | a null, `''` or `'0'` route key yields the same configuration as the default endpoint |
| `Controller.DistinctKeysReadDistinctSettings` | src/TwilioWebhooksController.php:23-24 | two different truthy keys read two different secret settings |
| `Controller.EndpointWithoutTokenThrows` | src/TwilioWebhooksController.php:23-24 | a keyed endpoint whose own token is absent (or whose key holds a dot) never falls back to the default token: an enabled check throws `signingSecretNotSet` |
| `Controller.EndpointChecksItsOwnSecret` | src/TwilioWebhooksController.php:21-27 | on any endpoint with a secret, the verdict is the scheme applied to that endpoint's secret and the `X-Twilio-Signature` header |
| `Processing.DetermineEventKey` | src/ProcessTwilioWebhookJob.php:91-96 | the event name is `twilio-webhooks::` followed by the lower-cased type, dots kept |
| `Processing.DetermineJobConfigKey` | src/ProcessTwilioWebhookJob.php:79-85 | the path is the `jobs` section followed by the type with dots made `_` and lower-cased; the segment holds no dot and the path no upper-case letter |
| `Processing.DetermineJobClass` | src/ProcessTwilioWebhookJob.php:70-73 | the class configured under that segment of `jobs`, or `''` when there is none |
| `Processing.ProcessTwilioWebhookJob.constructor` | src/ProcessTwilioWebhookJob.php:17 | a new job reads the type from `CallStatus`, and nothing has been fired or queued |
| `Processing.ProcessTwilioWebhookJob.GetKey` | src/ProcessTwilioWebhookJob.php:50-53 | returns the current key |
| `Processing.ProcessTwilioWebhookJob.SetKey` | src/ProcessTwilioWebhookJob.php:59-64 | sets the key and returns the same job |
| `Processing.ProcessTwilioWebhookJob.Handle` | src/ProcessTwilioWebhookJob.php:24-45 | appends to the event and queue logs exactly the effects of `Processing.HandleEffects`, and throws what it says |
| `Processing.KeyScenario` | tests/TwilioWebhookCallTest.php:97-104 | a new job reports `CallStatus`; after `SetKey(k)` the returned job reports `k` |
| `Processing.MissingTypeIffNothingHappens` | src/ProcessTwilioWebhookJob.php:26-30 | `missingType` is thrown if and only if the type is missing or falsy, and then nothing is fired or queued |
| `Processing.EventFiresBeforeJobLookup` | src/ProcessTwilioWebhookJob.php:32-42 | with a truthy type exactly one event fires, the same whatever the job table and known classes (so also when no job is configured or the class is missing) |
| `Processing.AtMostOneJob` | src/ProcessTwilioWebhookJob.php:34-45 | at most one job is queued; one is queued if and only if the configured class is non-empty and exists, and it carries the same call with nothing thrown |
| `Processing.NoJobConfiguredIsQuiet` | src/ProcessTwilioWebhookJob.php:36-38 | a lookup result of `''` ends the run without throwing or queueing, after the event |
| `Processing.MissingClassThrows` | src/ProcessTwilioWebhookJob.php:40-42 | a configured class that does not exist throws after the event and queues nothing; without `CallStatus` in the payload the throw is the undefined-key error |
| `Processing.RoutingIgnoresCase` | src/ProcessTwilioWebhookJob.php:79-96 | types equal up to ASCII case fire the same event and select the same job |
| `Processing.UnreachableJobEntries` | src/ProcessTwilioWebhookJob.php:79-85 | a `jobs` entry whose name holds an upper-case letter or a dot is never selected by any type |
| `Processing.DefaultsQueueNothing` | config/twilio-webhooks.php:20-22 | with the published defaults no job is ever queued |
| `Processing.InitiatedCallIsRouted` | tests/IntegrationTest.php:65-92 | `Initiated` with `initiated` configured fires `twilio-webhooks::initiated` and queues the configured class with the call |

## Left out

- Twilio's signing scheme (HMAC-SHA1 and base64 in `RequestValidator`) is foreign code. It is the parameter `scheme`.
- Parsing the query string (`parse_url`, `parse_str`, and PHP turning dots in names into underscores) is not modelled. The parsed parameter names are an input, `Request.queryKeys`.
- Laravel's merging of body and query into `all()` is not modelled. `Request.all` is taken as given.
- Spatie's `WebhookProcessor` is not part of this model. It stores the call, records exceptions on it, maps exceptions to HTTP statuses (for example 500 on a bad signature) and queues the job.
- `Event::constructFrom` is not part of this model. `Webhooks.ConstructEvent` returns the data the event would be built from.
- The event bus, `dispatch`, the queue, `class_exists` and `report()` are not modelled as code. They are the ghost logs, the `knownClasses` set, and a no-op.
- `Strings.Lower`: ASCII only. `mb_strtolower` also lower-cases non-ASCII letters.
- Payload and configuration values that are not strings (numbers, booleans, nested arrays from a JSON body) are not modelled. Only strings and null are.
- The route macro and config publishing (src/TwilioWebhooksServiceProvider.php) are framework wiring and are not modelled.
