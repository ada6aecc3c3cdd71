/**
 Concrete deliveries: the trust decision on particular certificate URLs, and
 end-to-end runs of the endpoint on particular bodies. The outside calls stay
 abstract; each lemma says only what it assumes about them.
 */
module Scenarios {
  import opened SnsTypes
  import opened CertUrl
  import opened Validation
  import opened Endpoint

  const UsEast1CertUrl: string := "https://sns.us-east-1.amazonaws.com/cert.pem"

  /** The regional URL split into the parts of the documented shape. */
  lemma UsEast1CertUrlParts()
    ensures UsEast1CertUrl == "https://sns." + "us-east-1" + ".amazonaws.com/" + "cert.pem"
    ensures UsEast1CertUrl + "\n" == "https://sns." + "us-east-1" + ".amazonaws.com/" + "cert.pem\n"
  {
  }

  lemma RegionalCertUrlTrusted()
    ensures IsTrustedCertUrl(UsEast1CertUrl)
  {
    UsEast1CertUrlParts();
    AcceptsDocumentedShape("https://sns.", "us-east-1", ".amazonaws.com/", "cert.pem");
  }

  lemma UpperCaseCertUrlTrusted()
    ensures IsTrustedCertUrl("HTTPS://SNS.US-EAST-1.AMAZONAWS.COM/cert.pem")
  {
    assert "HTTPS://SNS.US-EAST-1.AMAZONAWS.COM/cert.pem"
      == "HTTPS://SNS." + "US-EAST-1" + ".AMAZONAWS.COM/" + "cert.pem";
    AcceptsDocumentedShape("HTTPS://SNS.", "US-EAST-1", ".AMAZONAWS.COM/", "cert.pem");
  }

  /** Python's `$` also matches just before a final newline. */
  lemma TrailingNewlineCertUrlTrusted()
    ensures IsTrustedCertUrl(UsEast1CertUrl + "\n")
  {
    UsEast1CertUrlParts();
    AcceptsDocumentedShape("https://sns.", "us-east-1", ".amazonaws.com/", "cert.pem\n");
  }

  lemma ForeignHostUntrusted()
    ensures !IsTrustedCertUrl("https://evil.example.com/cert.pem")
  {
  }

  lemma PlainHttpUntrusted()
    ensures !IsTrustedCertUrl("http://sns.us-east-1.amazonaws.com/cert.pem")
  {
    var http := "http://sns.us-east-1.amazonaws.com/cert.pem";
    assert Lower(http[4]) != Scheme[4];
  }

  /** A dot inside the label ends it, and `amazonaws.com` must follow at once. */
  lemma DottedLabelUntrusted()
    ensures !IsTrustedCertUrl("https://sns.us.east.amazonaws.com/cert.pem")
  {
    var dotted := "https://sns.us.east.amazonaws.com/cert.pem";
    LabelEndAt(dotted, 12, 14);
    assert Lower(dotted[15]) != Domain[1];
  }

  const SuffixedCertUrl: string := "https://sns.us-east-1.amazonaws.com.evil.com/cert.pem"

  lemma SuffixedLabelEnd()
    ensures LabelEnd(SuffixedCertUrl, 12) == 21
  {
    assert forall j :: 12 <= j < 21 ==> LabelChar(SuffixedCertUrl[j]);
    LabelEndAt(SuffixedCertUrl, 12, 21);
  }

  /** A host that only starts with `sns.<region>.amazonaws.com` is not trusted. */
  lemma SuffixedDomainUntrusted()
    ensures !IsTrustedCertUrl(SuffixedCertUrl)
  {
    SuffixedLabelEnd();
    assert Lower(SuffixedCertUrl[35]) != Domain[14];
  }

  lemma EmbeddedNewlineUntrusted()
    ensures !IsTrustedCertUrl("https://sns.us-east-1.amazonaws.com/cert\n.pem")
  {
    var broken := "https://sns.us-east-1.amazonaws.com/cert\n.pem";
    assert forall j :: 12 <= j < 21 ==> LabelChar(broken[j]);
    LabelEndAt(broken, 12, 21);
    var rest := broken[36..];
    assert rest[4] == '\n' && rest[|rest| - 1] != '\n';
    assert rest[..|rest| - 1][4] == '\n';
  }

  /** A `Notification` body in the shape SNS posts, signed with version 1. */
  const HelloNotification: Message := map[
    "Type" := "Notification",
    "SignatureVersion" := "1",
    "Message" := "hello",
    "MessageId" := "abc",
    "Timestamp" := "2024-01-01T00:00:00Z",
    "TopicArn" := "arn:test",
    "Signature" := "c2lnbmF0dXJl",
    "SigningCertURL" := UsEast1CertUrl]

  /** A correctly signed notification is delivered, after one certificate request. */
  lemma SignedNotificationDelivered(env: Env, key: PublicKey, signed: Bytes, signature: Bytes)
    requires VerifierInputs(HelloNotification, env) == Some((key, signed, signature))
    requires env.verifyFinal(key, signed, signature) == Some(1)
    ensures SubscriptionEndpoint(map[TypeHeaderAsWritten := "Notification"], HelloNotification, env)
      == Run(Accept(Delivered("hello")), [CertGet(UsEast1CertUrl)])
  {
    AcceptedIffVerifierReturnsOne(HelloNotification, env);
  }

  /** The same body with a signature the verifier does not confirm is rejected. */
  lemma AlteredSignatureRejected(env: Env, key: PublicKey, signed: Bytes, signature: Bytes)
    requires VerifierInputs(HelloNotification, env) == Some((key, signed, signature))
    requires env.verifyFinal(key, signed, signature) == Some(0)
    ensures SubscriptionEndpoint(map[TypeHeaderAsWritten := "Notification"], HelloNotification, env)
      == Run(Reject(NotConfirmed(0)), [CertGet(UsEast1CertUrl)])
  {
    VerifierResultDecides(HelloNotification, env, key, signed, signature, 0);
  }

  /** A certificate hosted elsewhere is rejected with no request at all. */
  lemma ForeignCertificateNeverFetched(env: Env, headers: map<string, string>)
    ensures var msg := HelloNotification["SigningCertURL" := "https://evil.example.com/cert.pem"];
      SubscriptionEndpoint(headers, msg, env) == Run(Reject(UntrustedCertUrl("https://evil.example.com/cert.pem")), [])
  {
  }

  /** A subscription confirmation completes on status 200 and raises on 404. */
  lemma ConfirmationHandshake(env: Env, msg: Message)
    requires IsValidMessage(msg, env).outcome.Accept?
    requires Get(msg, "SubscribeURL") == Some("https://sns.example/confirm")
    ensures var headers := map[TypeHeaderAsWritten := "SubscriptionConfirmation"];
      var run := SubscriptionEndpoint(headers, msg, env);
      && (env.confirmGet("https://sns.example/confirm") == Some(200) ==> run.outcome == Accept(Confirmed))
      && (env.confirmGet("https://sns.example/confirm") == Some(404) ==> run.outcome == Reject(SubscriptionNotConfirmed(404)))
  {
  }

  /** An unknown `Type` is never accepted, whatever the signature. */
  lemma BogusTypeNeverAccepted(env: Env, headers: map<string, string>)
    ensures var msg := HelloNotification["Type" := "Bogus"];
      && SubscriptionEndpoint(headers, msg, env).outcome.Reject?
      && SubscriptionEndpoint(headers, msg, env).requests == [CertGet(UsEast1CertUrl)]
  {
    var msg := HelloNotification["Type" := "Bogus"];
    RegionalCertUrlTrusted();
    UnknownTypeRejectedAfterFetch(msg, env);
  }
}
