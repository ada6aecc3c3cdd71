/**
 `AwsSns.is_valid_message`: the fixed sequence of checks an inbound SNS
 message goes through before it is trusted. The method returns `True` or
 raises; here it returns a `Run` whose outcome is `Accept(true)` or
 `Reject(reason)` and which lists the `requests.get` calls made on the way.
 */
module Validation {
  import opened SnsTypes
  import opened CertUrl

  /** The `Type` values that select a string builder (lines 125 and 127). */
  const KnownTypes: set<string> := {"Notification", "SubscriptionConfirmation", "UnsubscribeConfirmation"}

  datatype Builder = NotificationBuilder | SubscriptionBuilder

  /** Lines 124-128: the builder `msg['Type']` selects; `None` leaves `str_to_sign` as `None`. */
  function ChooseBuilder(messageType: string): (r: Option<Builder>)
    ensures r.Some? <==> messageType in KnownTypes
    ensures r == Some(NotificationBuilder) <==> messageType == "Notification"
    ensures r == Some(SubscriptionBuilder) <==> messageType in KnownTypes - {"Notification"}
  {
    if messageType == "Notification" then Some(NotificationBuilder)
    else if messageType in KnownTypes then Some(SubscriptionBuilder)
    else None
  }

  function RunBuilder(b: Builder, msg: Message, env: Env): Option<string> {
    match b
    case NotificationBuilder => env.buildNotification(msg)
    case SubscriptionBuilder => env.buildSubscription(msg)
  }

  /** `unicode.encode()` with no argument on Python 2: the ascii codec, which raises on any other character. */
  function AsciiEncode(s: string): (r: Option<Bytes>)
    ensures r.Some? <==> forall i :: 0 <= i < |s| ==> s[i] as int < 128
    ensures r.Some? ==> |r.value| == |s| && forall i :: 0 <= i < |s| ==> r.value[i] as int == s[i] as int
  {
    if forall i :: 0 <= i < |s| ==> s[i] as int < 128
    then Some(seq(|s|, i requires 0 <= i < |s| => s[i] as int as Byte))
    else None
  }

  /** `bytes.decode('ascii')`, the inverse of `AsciiEncode`. */
  function AsciiDecode(b: Bytes): string {
    seq(|b|, i requires 0 <= i < |b| => b[i] as int as char)
  }

  lemma AsciiRoundTrip(s: string)
    requires AsciiEncode(s).Some?
    ensures AsciiDecode(AsciiEncode(s).value) == s
  {
  }

  /** The first two checks pass (lines 114-120): the only state in which `requests.get` fetches the certificate. */
  predicate CertSourceTrusted(msg: Message) {
    && Get(msg, "SignatureVersion") == Some("1")
    && "SigningCertURL" in msg
    && IsTrustedCertUrl(msg["SigningCertURL"])
  }

  /** Lines 113-122: version check, URL check, then one GET of the certificate. */
  function IsValidMessage(msg: Message, env: Env): (run: Run<bool>)
    ensures run.outcome != Accept(false)
    ensures run.requests != [] <==> CertSourceTrusted(msg)
    ensures run.requests != [] ==> run.requests == [CertGet(msg["SigningCertURL"])]
    ensures run.outcome.Accept? ==> run.requests != []
  {
    if "SignatureVersion" !in msg then Run(Reject(MissingKey("SignatureVersion")), [])
    else if msg["SignatureVersion"] != "1" then Run(Reject(WrongSignatureVersion(msg["SignatureVersion"])), [])
    else if "SigningCertURL" !in msg then Run(Reject(MissingKey("SigningCertURL")), [])
    else
      var url := msg["SigningCertURL"];
      if !IsTrustedCertUrl(url) then Run(Reject(UntrustedCertUrl(url)), [])
      else Run(CheckSignature(msg, url, env), [CertGet(url)])
  }

  /** Lines 122-128: load the fetched certificate, read `Type`, build the string to sign. */
  function CheckSignature(msg: Message, url: string, env: Env): (outcome: Outcome<bool>)
    ensures outcome != Accept(false)
  {
    match env.certGet(url)
    case None => Reject(CertRequestFailed)
    case Some(body) =>
      match env.loadCert(body)
      case None => Reject(CertLoadFailed)
      case Some(cert) =>
        if "Type" !in msg then Reject(MissingKey("Type"))
        else
          var builder := ChooseBuilder(msg["Type"]);
          var strToSign := if builder.Some? then RunBuilder(builder.value, msg, env) else None;
          if builder.Some? && strToSign.None? then Reject(BuilderFailed)
          else VerifyStringToSign(msg, cert, strToSign, env)
  }

  /**
   Lines 130-138: the SHA-1 public-key check, which must return exactly 1.
   The calls happen in source order: key, context set-up, the `None` test and
   encoding of `str_to_sign`, the update, the `Signature` lookup and decoding,
   and the final check.
   */
  function VerifyStringToSign(msg: Message, cert: Certificate, strToSign: Option<string>, env: Env): (outcome: Outcome<bool>)
    ensures outcome != Accept(false)
    ensures outcome.Accept? ==> strToSign.Some? && "Signature" in msg
    ensures env.publicKey(cert).None? ==> outcome == Reject(PublicKeyFailed)
    ensures env.publicKey(cert).Some? ==>
      var key := env.publicKey(cert).value;
      && (!env.verifyInit(key) ==> outcome == Reject(VerifyInitFailed))
      && (env.verifyInit(key) && strToSign.None? ==> outcome == Reject(NoStringToSign))
      && (env.verifyInit(key) && strToSign.Some? && AsciiEncode(strToSign.value).None? ==>
            outcome == Reject(NonAsciiStringToSign))
    ensures env.publicKey(cert).Some? && env.verifyInit(env.publicKey(cert).value)
            && strToSign.Some? && AsciiEncode(strToSign.value).Some? ==>
      var key, signed := env.publicKey(cert).value, AsciiEncode(strToSign.value).value;
      && (!env.verifyUpdate(key, signed) ==> outcome == Reject(VerifyUpdateFailed))
      && (env.verifyUpdate(key, signed) && "Signature" !in msg ==> outcome == Reject(MissingKey("Signature")))
      && (env.verifyUpdate(key, signed) && "Signature" in msg && env.b64decode(msg["Signature"]).None? ==>
            outcome == Reject(SignatureDecodeFailed))
      && (env.verifyUpdate(key, signed) && "Signature" in msg && env.b64decode(msg["Signature"]).Some? ==>
            var signature := env.b64decode(msg["Signature"]).value;
            && (env.verifyFinal(key, signed, signature).None? ==> outcome == Reject(VerifyRaised))
            && (env.verifyFinal(key, signed, signature).Some? ==>
                  outcome == (if env.verifyFinal(key, signed, signature).value == 1 then Accept(true)
                              else Reject(NotConfirmed(env.verifyFinal(key, signed, signature).value)))))
  {
    match env.publicKey(cert)
    case None => Reject(PublicKeyFailed)
    case Some(key) =>
      if !env.verifyInit(key) then Reject(VerifyInitFailed)
      else match strToSign
      case None => Reject(NoStringToSign)
      case Some(text) =>
        match AsciiEncode(text)
        case None => Reject(NonAsciiStringToSign)
        case Some(signed) =>
          if !env.verifyUpdate(key, signed) then Reject(VerifyUpdateFailed)
          else if "Signature" !in msg then Reject(MissingKey("Signature"))
          else
            match env.b64decode(msg["Signature"])
            case None => Reject(SignatureDecodeFailed)
            case Some(signature) =>
              match env.verifyFinal(key, signed, signature)
              case None => Reject(VerifyRaised)
              case Some(result) => if result != 1 then Reject(NotConfirmed(result)) else Accept(true)
  }

  /**
   The arguments the verifier is called with, when every step before it
   succeeds; stated as one conjunction of conditions rather than as a
   sequence of early exits.
   */
  ghost function VerifierInputs(msg: Message, env: Env): Option<(PublicKey, Bytes, Bytes)> {
    if && CertSourceTrusted(msg)
       && env.certGet(msg["SigningCertURL"]).Some?
       && env.loadCert(env.certGet(msg["SigningCertURL"]).value).Some?
       && env.publicKey(env.loadCert(env.certGet(msg["SigningCertURL"]).value).value).Some?
       && "Type" in msg && msg["Type"] in KnownTypes
       && "Signature" in msg
    then
      var cert := env.loadCert(env.certGet(msg["SigningCertURL"]).value).value;
      var built := if msg["Type"] == "Notification" then env.buildNotification(msg) else env.buildSubscription(msg);
      var key := env.publicKey(cert).value;
      if && env.verifyInit(key)
         && built.Some? && AsciiEncode(built.value).Some?
         && env.verifyUpdate(key, AsciiEncode(built.value).value)
         && env.b64decode(msg["Signature"]).Some?
      then Some((key, AsciiEncode(built.value).value, env.b64decode(msg["Signature"]).value))
      else None
    else None
  }

  /** A message is accepted exactly when every step succeeds and the verifier returns 1. */
  lemma AcceptedIffVerifierReturnsOne(msg: Message, env: Env)
    ensures IsValidMessage(msg, env).outcome.Accept?
      <==> (&& VerifierInputs(msg, env).Some?
            && var (key, signed, signature) := VerifierInputs(msg, env).value;
            env.verifyFinal(key, signed, signature) == Some(1))
  {
  }

  /**
   Once every earlier step succeeds, the verifier's answer decides: exactly 1
   accepts, any other value raises "Notification could not be confirmed".
   */
  lemma VerifierResultDecides(msg: Message, env: Env, key: PublicKey, signed: Bytes, signature: Bytes, result: int)
    requires VerifierInputs(msg, env) == Some((key, signed, signature))
    requires env.verifyFinal(key, signed, signature) == Some(result)
    ensures IsValidMessage(msg, env).outcome == if result == 1 then Accept(true) else Reject(NotConfirmed(result))
  {
  }

  /** A missing or wrong `SignatureVersion` is rejected before any request. */
  lemma WrongVersionRejectedWithoutFetch(msg: Message, env: Env)
    requires Get(msg, "SignatureVersion") != Some("1")
    ensures IsValidMessage(msg, env).requests == []
    ensures IsValidMessage(msg, env).outcome == Reject(
      if "SignatureVersion" in msg then WrongSignatureVersion(msg["SignatureVersion"]) else MissingKey("SignatureVersion"))
  {
  }

  /** An untrusted `SigningCertURL` is rejected before the certificate is requested. */
  lemma UntrustedUrlRejectedWithoutFetch(msg: Message, env: Env)
    requires Get(msg, "SignatureVersion") == Some("1")
    requires "SigningCertURL" in msg && !IsTrustedCertUrl(msg["SigningCertURL"])
    ensures IsValidMessage(msg, env) == Run(Reject(UntrustedCertUrl(msg["SigningCertURL"])), [])
  {
  }

  /**
   A `Type` outside the three known values leaves `str_to_sign` as `None`:
   the message is rejected, but only after the certificate was requested,
   and whatever the builders, the decoder and the verifier would have said.
   */
  lemma UnknownTypeRejectedAfterFetch(msg: Message, env: Env)
    requires CertSourceTrusted(msg)
    requires "Type" in msg && msg["Type"] !in KnownTypes
    ensures IsValidMessage(msg, env).requests == [CertGet(msg["SigningCertURL"])]
    ensures IsValidMessage(msg, env).outcome.Reject?
    ensures IsValidMessage(msg, env).outcome.reason in {CertRequestFailed, CertLoadFailed, PublicKeyFailed, VerifyInitFailed, NoStringToSign}
  {
  }

  /**
   The builder follows `Type`: for a `Notification` the subscription builder
   is never consulted, and for the two confirmation types the notification
   builder is never consulted.
   */
  lemma BuilderChosenByType(msg: Message, env: Env, other: Message -> Option<string>)
    requires "Type" in msg && msg["Type"] in KnownTypes
    ensures msg["Type"] == "Notification" ==>
      IsValidMessage(msg, env) == IsValidMessage(msg, env.(buildSubscription := other))
    ensures msg["Type"] != "Notification" ==>
      IsValidMessage(msg, env) == IsValidMessage(msg, env.(buildNotification := other))
  {
  }

  /** A string to sign with a character outside ASCII is never accepted (line 133 raises). */
  lemma NonAsciiStringToSignRejected(msg: Message, env: Env)
    requires CertSourceTrusted(msg) && "Type" in msg && msg["Type"] in KnownTypes
    requires var b := if msg["Type"] == "Notification" then env.buildNotification(msg) else env.buildSubscription(msg);
      b.Some? && exists i :: 0 <= i < |b.value| && b.value[i] as int >= 128
    ensures IsValidMessage(msg, env).outcome.Reject?
  {
  }
}
