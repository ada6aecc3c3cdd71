/**
 Values shared by the SNS validation pipeline and the subscription endpoint
 of `AwsSns`: the decoded JSON body, the outside world the two methods call
 into, and the outcome of one call together with the `requests.get` calls it made.
 */
module SnsTypes {

  datatype Option<T> = None | Some(value: T)

  /** The decoded JSON body of an SNS delivery. */
  type Message = map<string, string>

  function Get(m: map<string, string>, key: string): Option<string> {
    if key in m then Some(m[key]) else None
  }

  newtype Byte = x: int | 0 <= x < 256

  type Bytes = seq<Byte>

  /** An X.509 certificate object, as returned by `X509.load_cert_string`. */
  type Certificate

  /** The public key taken from a certificate with `get_pubkey`. */
  type PublicKey

  /**
   Everything the two methods call outside themselves. `None` stands for the
   call raising an exception. Each field is a total function, so the same
   input always produces the same answer within one model run.
   */
  datatype Env = Env(
    /** `requests.get(url).text`; the status code of this response is never looked at. */
    certGet: string -> Option<string>,
    /** `X509.load_cert_string(str(text))`. */
    loadCert: string -> Option<Certificate>,
    /** `build_notification_string(msg)`; not defined in the repository. */
    buildNotification: Message -> Option<string>,
    /** `build_subscription_string(msg)`; not defined in the repository. */
    buildSubscription: Message -> Option<string>,
    /** `cert.get_pubkey()`. */
    publicKey: Certificate -> Option<PublicKey>,
    /** `b64decode(text)`. */
    b64decode: string -> Option<Bytes>,
    /** `reset_context(md='sha1')` then `verify_init()`; false when either raises. */
    verifyInit: PublicKey -> bool,
    /** `verify_update(data)`; false when it raises. */
    verifyUpdate: (PublicKey, Bytes) -> bool,
    /** `verify_final(signature)` after the update with `data`. */
    verifyFinal: (PublicKey, Bytes, Bytes) -> Option<int>,
    /** `requests.get(url).status_code`. */
    confirmGet: string -> Option<int>)

  /** Why a call raised: one constructor per `raise` and per failing lookup or foreign call. */
  datatype Reason =
    | MissingKey(key: string)
    | WrongSignatureVersion(version: string)
    | UntrustedCertUrl(url: string)
    | CertRequestFailed
    | CertLoadFailed
    | BuilderFailed
    | PublicKeyFailed
    | VerifyInitFailed
    | NoStringToSign
    | NonAsciiStringToSign
    | VerifyUpdateFailed
    | SignatureDecodeFailed
    | VerifyRaised
    | NotConfirmed(result: int)
    | ValidationFailed
    | ConfirmRequestFailed
    | SubscriptionNotConfirmed(status: int)
    | NoMessage

  /** A Python call either returns a value or raises. */
  datatype Outcome<T> = Accept(value: T) | Reject(reason: Reason)

  /** A call of `requests.get`, which may itself follow redirects. */
  datatype Request = CertGet(url: string) | ConfirmGet(url: string)

  /** The outcome of a call and the `requests.get` calls it made, in order. */
  datatype Run<T> = Run(outcome: Outcome<T>, requests: seq<Request>)

  /** What `subscription_endpoint` returns when it does not raise. */
  datatype Response =
    | Confirmed            // `return True`
    | Delivered(text: string)  // `return message`
    | NoneReturned         // falling off the end of the method
}
