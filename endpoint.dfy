/**
 `AwsSns.subscription_endpoint`: validate the body, then act on the message
 type read from the request headers. The header and the body's `Type` are
 read separately and need not agree.
 */
module Endpoint {
  import opened SnsTypes
  import opened Validation

  /** The header key as the method looks it up, trailing colon included (line 96). */
  const TypeHeaderAsWritten: string := "x-amz-sns-message-type:"

  /** The header SNS sends; the corrected endpoint looks this one up. */
  const TypeHeader: string := "x-amz-sns-message-type"

  /** Lines 96-109: the action chosen by the header value, on a message that already passed validation. */
  function Dispatch(messageType: Option<string>, data: Message, env: Env): (run: Run<Response>)
    ensures messageType == Some("SubscriptionConfirmation") ==>
      && (run.outcome == Accept(Confirmed) <==> "SubscribeURL" in data && env.confirmGet(data["SubscribeURL"]) == Some(200))
      && (run.outcome.Accept? ==> run.outcome == Accept(Confirmed))
      && run.requests == (if "SubscribeURL" in data then [ConfirmGet(data["SubscribeURL"])] else [])
    ensures messageType == Some("Notification") ==>
      && (run.outcome.Accept? <==> Get(data, "Message").Some? && data["Message"] != "")
      && (run.outcome.Accept? ==> run.outcome.value == Delivered(data["Message"]))
      && (run.outcome.Reject? ==> run.outcome.reason == NoMessage)
      && run.requests == []
    ensures messageType != Some("SubscriptionConfirmation") && messageType != Some("Notification") ==>
      run == Run(Accept(NoneReturned), [])
  {
    if messageType == Some("SubscriptionConfirmation") then
      match Get(data, "SubscribeURL")
      // requests.get(None) raises before any connection is made
      case None => Run(Reject(ConfirmRequestFailed), [])
      case Some(url) =>
        var status := env.confirmGet(url);
        if status.None? then Run(Reject(ConfirmRequestFailed), [ConfirmGet(url)])
        else if status.value == 200 then Run(Accept(Confirmed), [ConfirmGet(url)])
        else Run(Reject(SubscriptionNotConfirmed(status.value)), [ConfirmGet(url)])
    else if messageType == Some("Notification") then
      match Get(data, "Message")
      case Some(text) => if text != "" then Run(Accept(Delivered(text)), []) else Run(Reject(NoMessage), [])
      case None => Run(Reject(NoMessage), [])
    else
      Run(Accept(NoneReturned), [])
  }

  /** Lines 95-111 with the message type looked up under `typeKey`. */
  function HandleDelivery(typeKey: string, headers: map<string, string>, data: Message, env: Env): (run: Run<Response>)
    ensures run.outcome != Reject(ValidationFailed)
    ensures var v := IsValidMessage(data, env);
      v.outcome.Reject? ==> run == Run(Reject(v.outcome.reason), v.requests)
    ensures var v := IsValidMessage(data, env);
      v.outcome.Accept? ==>
        var d := Dispatch(Get(headers, typeKey), data, env);
        run == Run(d.outcome, v.requests + d.requests)
  {
    var validation := IsValidMessage(data, env);
    match validation.outcome
    case Reject(reason) => Run(Reject(reason), validation.requests)
    case Accept(ok) =>
      if !ok then Run(Reject(ValidationFailed), validation.requests)
      else
        var dispatched := Dispatch(Get(headers, typeKey), data, env);
        Run(dispatched.outcome, validation.requests + dispatched.requests)
  }

  /**
   The endpoint as written. `is_valid_message` never returns `False`, so the
   `else` branch raising "SNS validation failed" is unreachable: a rejected
   body surfaces as the exception `is_valid_message` raised.
   */
  function SubscriptionEndpoint(headers: map<string, string>, data: Message, env: Env): (run: Run<Response>)
    ensures run.outcome != Reject(ValidationFailed)
    ensures run.outcome.Accept? ==> IsValidMessage(data, env).outcome == Accept(true)
  {
    HandleDelivery(TypeHeaderAsWritten, headers, data, env)
  }

  /** The endpoint with the header key SNS actually sends. */
  function CorrectedSubscriptionEndpoint(headers: map<string, string>, data: Message, env: Env): (run: Run<Response>)
    ensures run.outcome != Reject(ValidationFailed)
    ensures run.outcome.Accept? ==> IsValidMessage(data, env).outcome == Accept(true)
    ensures IsValidMessage(data, env).outcome.Accept? && Get(headers, TypeHeader) == Some("Notification") ==>
      (run.outcome.Accept? <==> Get(data, "Message").Some? && data["Message"] != "")
  {
    HandleDelivery(TypeHeader, headers, data, env)
  }

  /**
   Nothing happens on behalf of an unvalidated message: the endpoint returns
   normally, or requests the `SubscribeURL`, only after `IsValidMessage`
   accepted the body.
   */
  lemma ActsOnlyOnValidatedMessages(typeKey: string, headers: map<string, string>, data: Message, env: Env)
    ensures var run := HandleDelivery(typeKey, headers, data, env);
      (run.outcome.Accept? || exists u :: ConfirmGet(u) in run.requests) ==>
        IsValidMessage(data, env).outcome == Accept(true)
  {
  }

  /**
   The header, not the body's `Type`, decides the action: a body validated as
   a `Notification` still triggers the confirmation request when the header
   says `SubscriptionConfirmation`.
   */
  lemma HeaderNotBodyDecides(headers: map<string, string>, data: Message, env: Env)
    requires IsValidMessage(data, env).outcome.Accept?
    requires Get(data, "Type") == Some("Notification") && "SubscribeURL" in data
    requires Get(headers, TypeHeaderAsWritten) == Some("SubscriptionConfirmation")
    ensures SubscriptionEndpoint(headers, data, env).requests
      == [CertGet(data["SigningCertURL"]), ConfirmGet(data["SubscribeURL"])]
  {
  }

  /**
   As written, the endpoint looks for a header whose name ends in a colon.
   When that key is absent (it is absent from every real HTTP request, where
   a header name cannot contain a colon), a validated message never confirms
   a subscription and never delivers its text: the call returns `None`.
   */
  lemma AsWrittenIgnoresTypeHeader(headers: map<string, string>, data: Message, env: Env)
    requires TypeHeaderAsWritten !in headers
    ensures var run := SubscriptionEndpoint(headers, data, env);
      && (run.outcome.Accept? ==> run.outcome.value == NoneReturned)
      && forall r :: r in run.requests ==> r.CertGet?
  {
  }

  /**
   The discrepancy on a concrete delivery: SNS sends
   `x-amz-sns-message-type: SubscriptionConfirmation` with a validated body;
   the endpoint as written returns `None` without confirming, the corrected
   one confirms.
   */
  lemma ConfirmationHeaderMissedAsWritten(data: Message, env: Env)
    requires IsValidMessage(data, env).outcome.Accept?
    requires "SubscribeURL" in data && env.confirmGet(data["SubscribeURL"]) == Some(200)
    ensures var headers := map[TypeHeader := "SubscriptionConfirmation"];
      && SubscriptionEndpoint(headers, data, env) == Run(Accept(NoneReturned), [CertGet(data["SigningCertURL"])])
      && CorrectedSubscriptionEndpoint(headers, data, env)
         == Run(Accept(Confirmed), [CertGet(data["SigningCertURL"]), ConfirmGet(data["SubscribeURL"])])
  {
  }

  /** The corrected endpoint dispatches on the header SNS sends. */
  lemma CorrectedEndpointReadsTypeHeader(t: string, headers: map<string, string>, data: Message, env: Env)
    requires Get(headers, TypeHeader) == Some(t)
    requires IsValidMessage(data, env).outcome.Accept?
    ensures var run := CorrectedSubscriptionEndpoint(headers, data, env);
      && (t == "SubscriptionConfirmation" ==>
           (run.outcome == Accept(Confirmed) <==> "SubscribeURL" in data && env.confirmGet(data["SubscribeURL"]) == Some(200)))
      && (t == "Notification" ==>
           (run.outcome.Accept? <==> "Message" in data && data["Message"] != ""))
  {
  }
}
