# Flask-PubSub: SNS message validation, modelled in Dafny

Flask-PubSub's `AwsSns` class receives Amazon SNS push deliveries over HTTP.
Before it trusts a delivery, it authenticates it. This project models that
inbound path as pure functions and proves properties about them:

- `is_valid_message` runs a fixed sequence of checks:
  1. the signature version must be `"1"`;
  2. the signing-certificate URL must match
     `^https://sns\.[-a-z0-9]+\.amazonaws\.com/.*$`, ignoring case;
  3. the certificate is fetched and parsed;
  4. a string builder is chosen by the body's `Type`;
  5. a SHA-1 public-key verification must return exactly `1`.
- `subscription_endpoint` validates the body, then acts on the
  message type read from the request headers:
  - it confirms a subscription with a GET of `SubscribeURL`; or
  - it returns the notification's `Message`.

Every call is modelled as a `Run`: an outcome plus the list of
`requests.get` calls it made, in order.

- The outcome is `Accept(value)` when the Python returns.
- It is `Reject(reason)` when the Python raises. There is one `Reason` per
  `raise`, per failing dictionary lookup and per outside call.

The call list lets the proofs state which checks happen before the
certificate is fetched.

The outside world is a value of type `Env`. Each field is one outside call,
and `None` stands for that call raising. The fields are:

- the certificate GET;
- `X509.load_cert_string`;
- the two canonical-string builders;
- `get_pubkey`;
- `reset_context` with `verify_init`, then `verify_update`, then
  `verify_final` (three fields, called in the source's order);
- `b64decode`;
- the confirmation GET.

The builders `build_notification_string` and `build_subscription_string`
are called at `__init__.py:126` and `__init__.py:128` but are defined
nowhere in the repository. They stay opaque, and the model assumes nothing
about the strings they return. The module does not import them either, so as
it stands lines 126 and 128 raise `NameError` and no message is ever
accepted. The model covers that case: a builder field may return `None`
(`BuilderFailed`). The scenarios that accept a message assume builders
that exist and return a string.

The repository is Python 2 code. Its mixed tab and space indentation
compiles only there, with tabs eight columns wide. The model follows
Python 2 semantics where they matter:

- `re.IGNORECASE` on a `str` pattern folds ASCII letters only.
- `.` matches any character except a newline.
- Without MULTILINE, `$` also matches just before a final newline. So a
  certificate URL that ends in one newline is trusted.
- `str_to_sign.encode()` with no argument uses the ASCII codec. A string to
  sign that contains any other character makes line 133 raise.

Four behaviours of the code are worth stating on their own:

- The code never checks the HTTP status of the certificate response. The
  body of any response is handed to the X.509 parser.
- An unknown `Type` is noticed only after the certificate has been fetched
  and parsed. It leaves `str_to_sign` as `None`, so line 133 raises an
  `AttributeError`; there is no dedicated error for it.
- The string to sign is encoded with the ASCII codec, as described above.
- The endpoint dispatches on the request header, not on the body's `Type`.
  The two are read separately and may disagree. The header key looked up
  has a trailing colon (see Findings).

Modules:

- `CertUrl` is the hand-coded URL matcher.
- `SnsTypes` holds the shared values.
- `Validation` is `is_valid_message`.
- `Endpoint` is `subscription_endpoint`.
- `Scenarios` holds concrete deliveries.

## Model

| member | source | states |
|---|---|---|
| `CertUrl.LabelEnd` | __init__.py:118 | the label run `[-a-z0-9]+` (folded) ends at the first index holding no label character |
| `CertUrl.IsTrustedCertUrl` | __init__.py:117-120 | a trusted URL is at least `https://sns.` + one character + `.amazonaws.com/` long |
| `CertUrl.MatcherAgreesWithPattern` | __init__.py:118-119 | the hand-coded matcher (longest label, no backtracking) accepts exactly the pattern's language, where the label length may be any split that makes the rest fit |
| `CertUrl.AcceptsDocumentedShape` | __init__.py:118-119 | every text `https://sns.` + non-empty label of letters/digits/`-` + `.amazonaws.com/` + text without newline (or ending in one newline) is trusted, whatever the case of the fixed parts |
| `CertUrl.CaseInsensitive` | __init__.py:118 | two URLs equal after ASCII case folding are both trusted or both untrusted |
| `CertUrl.TrustedAuthorityIsSnsHost` | __init__.py:117-120 | in a trusted URL the authority (up to the first `/`) is `sns.` + one label + `.amazonaws.com`: no further dot, no `@`, no `:` port |
| `Validation.AsciiEncode` | __init__.py:133 | `encode()` succeeds exactly when every character is below 128, and then yields one byte per character with the same code |
| `Validation.AsciiRoundTrip` | __init__.py:133 | ASCII decoding recovers the string that was encoded |
| `Validation.ChooseBuilder` | __init__.py:124-128 | a builder is chosen exactly for the three known `Type` values: the notification builder exactly for `Notification`, the subscription builder exactly for `SubscriptionConfirmation` and `UnsubscribeConfirmation` |
| `Validation.IsValidMessage` | __init__.py:113-138 | never returns `False`; `requests.get` is called on the certificate exactly when the version is `"1"` and the URL is trusted, and that is then its only call, on `SigningCertURL`; acceptance implies that call was made |
| `Validation.CheckSignature` | __init__.py:122-128 | after the certificate is fetched, the outcome is never `False` |
| `Validation.VerifyStringToSign` | __init__.py:130-138 | acceptance needs a string to sign (a known `Type`) and a `Signature` key; never returns `False`; once the earlier steps succeed, each of key extraction, context set-up, the `None` test, encoding, update, `Signature` lookup, decoding and the final check decides its own reason, in that order; the final check accepts exactly on result 1 |
| `Validation.AcceptedIffVerifierReturnsOne` | __init__.py:113-138 | a message is accepted if and only if every step succeeds and the verifier, given the key, the encoded string and the decoded signature, returns exactly 1 |
| `Validation.VerifierResultDecides` | __init__.py:134-138 | once every earlier step succeeds, result 1 accepts and any other result raises "could not be confirmed" carrying that result |
| `Validation.WrongVersionRejectedWithoutFetch` | __init__.py:114-115 | a missing or non-`"1"` `SignatureVersion` is rejected (missing key or wrong version) with no `requests.get` call |
| `Validation.UntrustedUrlRejectedWithoutFetch` | __init__.py:117-122 | with version `"1"`, an untrusted `SigningCertURL` is rejected with that URL and no `requests.get` call |
| `Validation.UnknownTypeRejectedAfterFetch` | __init__.py:122-133 | a `Type` outside the three known values is always rejected, yet only after the certificate request; the reason is one of the steps at lines 122-133 |
| `Validation.BuilderChosenByType` | __init__.py:124-128 | for `Notification` the subscription builder is never consulted; for the two confirmation types the notification builder is never consulted |
| `Validation.NonAsciiStringToSignRejected` | __init__.py:133 | a canonical string holding a non-ASCII character is never accepted |
| `Endpoint.Dispatch` | __init__.py:96-109 | header `SubscriptionConfirmation`: returns `True` iff `SubscribeURL` is present and its GET answers 200, else raises; header `Notification`: returns `Message` iff present and non-empty, else raises "no message"; any other or missing header: returns `None` with no request |
| `Endpoint.HandleDelivery` | __init__.py:95-111 | a rejected body propagates its own reason and requests; an accepted one is followed by the dispatch's requests and outcome; "SNS validation failed" is never raised |
| `Endpoint.SubscriptionEndpoint` | __init__.py:88-111 | never raises "SNS validation failed"; returns only for bodies `is_valid_message` accepted |
| `Endpoint.CorrectedSubscriptionEndpoint` | __init__.py:95-109 | the endpoint with the header key `x-amz-sns-message-type`: never raises "SNS validation failed", returns only for validated bodies, and for a validated body with header `Notification` returns iff `Message` is present and non-empty |
| `Endpoint.ActsOnlyOnValidatedMessages` | __init__.py:95-111 | a normal return or a request to `SubscribeURL` happens only after the body was accepted |
| `Endpoint.HeaderNotBodyDecides` | __init__.py:96-99 | a body validated as a `Notification` still triggers the confirmation GET when the header says `SubscriptionConfirmation` |
| `Endpoint.AsWrittenIgnoresTypeHeader` | __init__.py:96 | without a header key ending in `:`, a validated message is neither confirmed nor delivered: the call returns `None` and issues no confirmation request |
| `Endpoint.ConfirmationHeaderMissedAsWritten` | __init__.py:96-101 | for a validated confirmation with the real SNS header, the endpoint as written returns `None` without confirming, while the corrected endpoint confirms |
| `Endpoint.CorrectedEndpointReadsTypeHeader` | __init__.py:96-109 | the corrected endpoint confirms (status 200) or delivers (non-empty `Message`) according to the `x-amz-sns-message-type` header |
| `Scenarios.RegionalCertUrlTrusted` | __init__.py:118-119 | `https://sns.us-east-1.amazonaws.com/cert.pem` is trusted |
| `Scenarios.UpperCaseCertUrlTrusted` | __init__.py:118-119 | the same URL written in upper case is trusted |
| `Scenarios.TrailingNewlineCertUrlTrusted` | __init__.py:118-119 | the URL followed by one newline is trusted |
| `Scenarios.ForeignHostUntrusted` | __init__.py:118-120 | `https://evil.example.com/cert.pem` is not trusted |
| `Scenarios.PlainHttpUntrusted` | __init__.py:118-120 | an `http://` URL is not trusted |
| `Scenarios.DottedLabelUntrusted` | __init__.py:118-120 | `https://sns.us.east.amazonaws.com/...` (dot inside the label) is not trusted |
| `Scenarios.SuffixedDomainUntrusted` | __init__.py:118-120 | `https://sns.us-east-1.amazonaws.com.evil.com/...` is not trusted |
| `Scenarios.EmbeddedNewlineUntrusted` | __init__.py:118-120 | a newline inside the path is not accepted |
| `Scenarios.SignedNotificationDelivered` | __init__.py:95-138 | a correctly signed `Notification` with header `Notification` returns `"hello"` after one certificate request |
| `Scenarios.AlteredSignatureRejected` | __init__.py:134-136 | the same body with a signature the verifier answers 0 to is rejected as not confirmed |
| `Scenarios.ForeignCertificateNeverFetched` | __init__.py:117-122 | a body naming `https://evil.example.com/cert.pem` is rejected with no request at all |
| `Scenarios.ConfirmationHandshake` | __init__.py:97-103 | a validated confirmation returns `True` when the GET answers 200 and raises on 404 |
| `Scenarios.BogusTypeNeverAccepted` | __init__.py:122-133 | `Type: "Bogus"` is rejected after exactly one certificate request, whatever the signature |

## Left out

- Session and client construction through boto3 (`__init__.py:16-48`) is left out. It is a third-party SDK.
- `publish_message` (`__init__.py:50-80`) is left out. It forwards to boto3, and as written it cannot run: line 69 reads `self.subscription_handler`, but the method is spelled `subsciption_handler`, and line 74 uses an undefined `sns`.
- Route registration with Flask (`__init__.py:82-86`) is left out. It is web-framework wiring.
- `AwsSnsError` and `RedisPs` (`__init__.py:140-160`) are left out. They hold no logic.
- The network GETs, X.509 parsing, public-key extraction, base64 decoding and the SHA-1 verification are fields of `Env`. They are not implemented.
- Each entry of `Run.requests` is one call of `requests.get`, not one HTTP request. That library follows redirects by default, possibly to other hosts, and neither call at lines 99 and 122 sets a timeout. Redirect chains and calls that never return are not modelled: `certGet` and `confirmGet` always answer.
- The canonical-string builders are `Env` fields with no assumed format, because their definitions are not in the repository.
- Flask's case-insensitive header lookup is not modelled. Headers are an exact-key `map`, because the method is given the headers as a parameter.
- JSON values other than strings are not modelled. The body is a `map<string, string>`, so `if message:` is modelled as "non-empty string".
- The text of exception messages is not modelled. Each exception is a `Reason` constructor.
- A `requests.get(None)` for a missing `SubscribeURL` is recorded as a failed confirmation with no `requests.get` call in the list. No connection is attempted in that case.

## Findings

| source | as written | input that shows it | evidently intended | confidence | as-written member | corrected member |
|---|---|---|---|---|---|---|
| __init__.py:96 | the message type is read from header key `x-amz-sns-message-type:`, with a trailing colon | a validated `SubscriptionConfirmation` delivered with header `x-amz-sns-message-type: SubscriptionConfirmation` returns `None` and never confirms | read header `x-amz-sns-message-type`, the name SNS sends; a header name cannot contain a colon | high; not executed | `Endpoint.ConfirmationHeaderMissedAsWritten` | `Endpoint.CorrectedEndpointReadsTypeHeader` |

Both endpoints use the same `Endpoint.HandleDelivery` and differ only in
the header key. `Endpoint.SubscriptionEndpoint` keeps the key as written.
`Endpoint.CorrectedSubscriptionEndpoint` uses the key SNS sends.
