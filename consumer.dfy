/**
 * The consumer (consumer.js): a Service Bus subscription whose message
 * handler forwards each message's destination and body to the SMS sender,
 * and whose error handler decides, from the error code the broker reports,
 * whether to close the subscription, log and carry on, or wait and carry on.
 *
 * The SDK's settlement rule is part of the model: a handler that returns
 * without settling has its message completed, one that throws has it
 * abandoned. The Twilio call is an opaque step whose reply is a parameter.
 */
module Consumer {
  import opened Wrappers

  // ---------------------------------------------------------------------
  // Error codes and their classification
  // ---------------------------------------------------------------------

  /** The Service Bus error codes the error handler distinguishes. */
  datatype ErrorCode =
    | MessagingEntityDisabled
    | MessagingEntityNotFound
    | UnauthorizedAccess
    | MessageLockLost
    | ServiceBusy
    | OtherCode(text: string)

  const FatalCodes: set<string> := {"MessagingEntityDisabled", "MessagingEntityNotFound", "UnauthorizedAccess"}
  const HandledCodes: set<string> := FatalCodes + {"MessageLockLost", "ServiceBusy"}

  /** The code as the SDK spells it. */
  function CodeText(c: ErrorCode): string {
    match c
    case MessagingEntityDisabled => "MessagingEntityDisabled"
    case MessagingEntityNotFound => "MessagingEntityNotFound"
    case UnauthorizedAccess => "UnauthorizedAccess"
    case MessageLockLost => "MessageLockLost"
    case ServiceBusy => "ServiceBusy"
    case OtherCode(text) => text
  }

  /** An OtherCode never carries one of the spellings that has its own constructor. */
  predicate WellFormedCode(c: ErrorCode) {
    c.OtherCode? ==> c.text !in HandledCodes
  }

  /** Reads the code string of a Service Bus error. */
  function ParseCode(s: string): (c: ErrorCode)
    ensures WellFormedCode(c) && CodeText(c) == s
    ensures c.OtherCode? <==> s !in HandledCodes
  {
    if s == "MessagingEntityDisabled" then MessagingEntityDisabled
    else if s == "MessagingEntityNotFound" then MessagingEntityNotFound
    else if s == "UnauthorizedAccess" then UnauthorizedAccess
    else if s == "MessageLockLost" then MessageLockLost
    else if s == "ServiceBusy" then ServiceBusy
    else OtherCode(s)
  }

  lemma ParseCodeText(c: ErrorCode)
    requires WellFormedCode(c)
    ensures ParseCode(CodeText(c)) == c
  {
  }

  /** What the error handler receives: a Service Bus error with its code, or any other error. */
  datatype ReportedError = ServiceBusError(code: string) | OtherError(description: string)

  /** The fixed wait after a ServiceBusy error, in milliseconds. */
  const BackoffMs: nat := 1000

  /**
   * What the error handler does after the log line it writes for every
   * error. LogLockLost and NoAction differ only by one more log line.
   */
  datatype Action = CloseSubscription | LogLockLost | WaitThenContinue(ms: nat) | NoAction

  /**
   * myErrorHandler's decision: the three fatal codes get an extra log line
   * and close the subscription, a lost lock gets an extra log line (which is
   * all LogLockLost stands for), a busy broker is waited out for
   * BackoffMs, and every other code and every error that is not a Service
   * Bus error gets nothing beyond the first log line (the switch has no
   * default branch).
   */
  function Classify(e: ReportedError): (a: Action)
    ensures a == CloseSubscription <==> e.ServiceBusError? && e.code in FatalCodes
    ensures a == LogLockLost <==> e.ServiceBusError? && e.code == "MessageLockLost"
    ensures a.WaitThenContinue? <==> e.ServiceBusError? && e.code == "ServiceBusy"
    ensures a.WaitThenContinue? ==> a.ms == 1000
    ensures a == NoAction <==> !e.ServiceBusError? || e.code !in HandledCodes
  {
    match e
    case OtherError(_) => NoAction
    case ServiceBusError(code) =>
      match ParseCode(code)
      case MessagingEntityDisabled => CloseSubscription
      case MessagingEntityNotFound => CloseSubscription
      case UnauthorizedAccess => CloseSubscription
      case MessageLockLost => LogLockLost
      case ServiceBusy => WaitThenContinue(BackoffMs)
      case OtherCode(_) => NoAction
  }

  // ---------------------------------------------------------------------
  // Message handling and settlement
  // ---------------------------------------------------------------------

  /** The application properties a message may carry; only `to` is read, and it may be missing. */
  datatype AppProperties = AppProperties(to: Option<string>)

  /** A received message: its application properties, when it has any, and its body. */
  datatype ReceivedMessage = ReceivedMessage(applicationProperties: Option<AppProperties>, body: string)

  /** One call of the SMS sender; `to` is missing when the properties have no `to`. */
  datatype SmsRequest = SmsRequest(to: Option<string>, body: string)

  /** How Twilio's messages.create settles: resolved with a message sid, or rejected. */
  datatype GatewayReply = Accepted(sid: string) | Rejected(error: string)

  /** How a handler invocation ends. */
  datatype HandlerOutcome = Returned | Threw(error: string)

  datatype Settlement = Completed | Abandoned

  predicate HasProperties(msg: ReceivedMessage) {
    msg.applicationProperties.Some?
  }

  /** The sender call for a message that has application properties. */
  function RequestFor(msg: ReceivedMessage): SmsRequest
    requires HasProperties(msg)
  {
    SmsRequest(msg.applicationProperties.value.to, msg.body)
  }

  /**
   * sendSMSWithTwilio: a rejection (a missing `to` among them) is caught and
   * logged, so the call always returns.
   */
  function SendSMSWithTwilio(request: SmsRequest, reply: GatewayReply): (o: HandlerOutcome)
    ensures o == Returned
  {
    match reply
    case Accepted(_) => Returned
    case Rejected(_) => Returned
  }

  /**
   * myMessageHandler: the sender call it makes and how it ends. Its
   * parameter pattern takes `to` out of applicationProperties, which throws
   * a TypeError before any call when the message has no properties.
   */
  function MyMessageHandler(msg: ReceivedMessage, reply: GatewayReply): (r: (Option<SmsRequest>, HandlerOutcome))
    ensures HasProperties(msg) ==>
      r.0 == Some(SmsRequest(msg.applicationProperties.value.to, msg.body)) && r.1 == Returned
    ensures !HasProperties(msg) ==> r.0 == None && r.1.Threw?
  {
    match msg.applicationProperties
    case None => (None, Threw("TypeError"))
    case Some(props) =>
      var request := SmsRequest(props.to, msg.body);
      (Some(request), SendSMSWithTwilio(request, reply))
  }

  /** The SDK's auto-complete rule: completed if the handler returned, abandoned if it threw. */
  function Settle(o: HandlerOutcome): (s: Settlement)
    ensures s == Completed <==> o.Returned?
    ensures s == Abandoned <==> o.Threw?
  {
    if o.Returned? then Completed else Abandoned
  }

  /** How a received message ends up settled. */
  function ExpectedSettlement(msg: ReceivedMessage): Settlement {
    if HasProperties(msg) then Completed else Abandoned
  }

  /**
   * Whatever Twilio replies, a message with application properties is
   * completed; a message without them is abandoned.
   */
  lemma CompletedExactlyWithProperties(msg: ReceivedMessage, reply: GatewayReply)
    ensures Settle(MyMessageHandler(msg, reply).1) == Completed <==> HasProperties(msg)
    ensures Settle(MyMessageHandler(msg, reply).1) == Abandoned <==> !HasProperties(msg)
  {
  }

  // ---------------------------------------------------------------------
  // The subscription as a sequence of events
  // ---------------------------------------------------------------------

  datatype Settled = Settled(msg: ReceivedMessage, settlement: Settlement)

  /** The observable state of a subscription: open or closed, sender calls, settlements. */
  datatype ConsumerState = ConsumerState(open: bool, requests: seq<SmsRequest>, settled: seq<Settled>)

  /** What the SDK hands the subscription: a message (with Twilio's reply to it) or an error. */
  datatype Event = Delivery(msg: ReceivedMessage, reply: GatewayReply) | Fault(error: ReportedError)

  /**
   * One callback. While open, a delivery runs the message handler and
   * settles the message by its outcome; a fault runs the error handler,
   * which closes the subscription on a fatal code. A closed subscription
   * receives nothing more.
   */
  function OnEvent(s: ConsumerState, ev: Event): (t: ConsumerState)
    ensures !s.open ==> t == s
    ensures ev.Fault? ==>
      t.requests == s.requests && t.settled == s.settled &&
      t.open == (s.open && Classify(ev.error) != CloseSubscription)
    ensures ev.Delivery? && s.open ==>
      && t.open
      && t.requests == s.requests + (if HasProperties(ev.msg) then [RequestFor(ev.msg)] else [])
      && t.settled == s.settled + [Settled(ev.msg, ExpectedSettlement(ev.msg))]
  {
    match ev
    case Fault(e) =>
      if Classify(e) == CloseSubscription then s.(open := false) else s
    case Delivery(msg, reply) =>
      if !s.open then s
      else
        var (request, outcome) := MyMessageHandler(msg, reply);
        s.(requests := s.requests + (if request.Some? then [request.value] else []),
           settled := s.settled + [Settled(msg, Settle(outcome))])
  }

  /** The callbacks in order. */
  function Run(s: ConsumerState, evs: seq<Event>): ConsumerState
    decreases |evs|
  {
    if evs == [] then s else Run(OnEvent(s, evs[0]), evs[1..])
  }

  /** The sender calls made for a sequence of settled messages: one per message with properties. */
  function ForwardedRequests(settled: seq<Settled>): seq<SmsRequest> {
    if settled == [] then []
    else
      var n := |settled| - 1;
      var m := settled[n].msg;
      ForwardedRequests(settled[..n]) + (if HasProperties(m) then [RequestFor(m)] else [])
  }

  /**
   * The settlement invariant: a message is completed exactly when it has
   * application properties, and the sender calls are, in order, one call
   * with `to` and body for each message that has them.
   */
  ghost predicate Consistent(s: ConsumerState) {
    && s.requests == ForwardedRequests(s.settled)
    && forall i :: 0 <= i < |s.settled| ==> s.settled[i].settlement == ExpectedSettlement(s.settled[i].msg)
  }

  lemma {:induction false} RunAppend(s: ConsumerState, a: seq<Event>, b: seq<Event>)
    ensures Run(s, a + b) == Run(Run(s, a), b)
    decreases |a|
  {
    if a == [] {
      assert a + b == b;
    } else {
      assert (a + b)[0] == a[0] && (a + b)[1..] == a[1..] + b;
      RunAppend(OnEvent(s, a[0]), a[1..], b);
    }
  }

  /** Closed is terminal: a closed subscription stays closed and handles nothing. */
  lemma {:induction false} ClosedIgnoresEverything(s: ConsumerState, evs: seq<Event>)
    requires !s.open
    ensures Run(s, evs) == s
    decreases |evs|
  {
    if evs != [] {
      ClosedIgnoresEverything(OnEvent(s, evs[0]), evs[1..]);
    }
  }

  /** After a fatal fault the subscription is closed and later events change nothing. */
  lemma FatalFaultIsFinal(s: ConsumerState, before: seq<Event>, e: ReportedError, after: seq<Event>)
    requires Classify(e) == CloseSubscription
    ensures !Run(s, before + [Fault(e)]).open
    ensures Run(s, before + [Fault(e)] + after) == Run(s, before + [Fault(e)])
  {
    RunAppend(s, before, [Fault(e)]);
    RunAppend(s, before + [Fault(e)], after);
    ClosedIgnoresEverything(Run(s, before + [Fault(e)]), after);
  }

  /** Faults other than the three fatal codes leave the subscription as it was. */
  lemma NonFatalFaultsChangeNothing(s: ConsumerState, e: ReportedError)
    requires !(e.ServiceBusError? && e.code in FatalCodes)
    ensures OnEvent(s, Fault(e)) == s
  {
  }

  /** A message without application properties gets no sender call and is abandoned. */
  lemma MessageWithoutPropertiesIsAbandoned(s: ConsumerState, msg: ReceivedMessage, reply: GatewayReply)
    requires s.open && !HasProperties(msg)
    ensures OnEvent(s, Delivery(msg, reply)) == s.(settled := s.settled + [Settled(msg, Abandoned)])
  {
  }

  /** One callback keeps the settlement invariant. */
  lemma OnEventIsConsistent(s: ConsumerState, ev: Event)
    requires Consistent(s)
    ensures Consistent(OnEvent(s, ev))
  {
    var t := OnEvent(s, ev);
    if ev.Delivery? && s.open {
      assert t.settled[..|s.settled|] == s.settled;
      assert forall i :: 0 <= i < |s.settled| ==> t.settled[i] == s.settled[i];
    }
  }

  /** Every run keeps the settlement invariant. */
  lemma {:induction false} RunIsConsistent(s: ConsumerState, evs: seq<Event>)
    requires Consistent(s)
    ensures Consistent(Run(s, evs))
    decreases |evs|
  {
    if evs != [] {
      OnEventIsConsistent(s, evs[0]);
      RunIsConsistent(OnEvent(s, evs[0]), evs[1..]);
    }
  }

  /**
   * On an open subscription every delivered message that has application
   * properties gets exactly one sender call with its own `to` and body, in
   * delivery order, and is completed.
   */
  lemma {:induction false} DeliveriesAreForwardedAndCompleted(s: ConsumerState, evs: seq<Event>)
    requires s.open
    requires forall i :: 0 <= i < |evs| ==> evs[i].Delivery? && HasProperties(evs[i].msg)
    ensures var t := Run(s, evs);
      && t.open
      && |t.requests| == |s.requests| + |evs| && |t.settled| == |s.settled| + |evs|
      && t.requests[..|s.requests|] == s.requests && t.settled[..|s.settled|] == s.settled
      && (forall i :: 0 <= i < |evs| ==>
            t.requests[|s.requests| + i] == RequestFor(evs[i].msg) &&
            t.settled[|s.settled| + i] == Settled(evs[i].msg, Completed))
    decreases |evs|
  {
    if evs != [] {
      var s1 := OnEvent(s, evs[0]);
      DeliveriesAreForwardedAndCompleted(s1, evs[1..]);
      var t := Run(s, evs);
      assert t == Run(s1, evs[1..]);
      assert t.requests[..|s1.requests|] == s1.requests;
      assert t.settled[..|s1.settled|] == s1.settled;
      assert t.requests[..|s.requests|] == s1.requests[..|s.requests|];
      assert t.settled[..|s.settled|] == s1.settled[..|s.settled|];
      forall i | 0 <= i < |evs|
        ensures t.requests[|s.requests| + i] == RequestFor(evs[i].msg)
        ensures t.settled[|s.settled| + i] == Settled(evs[i].msg, Completed)
      {
        if i == 0 {
          assert t.requests[|s.requests|] == s1.requests[|s.requests|];
          assert t.settled[|s.settled|] == s1.settled[|s.settled|];
        } else {
          assert evs[1..][i - 1] == evs[i];
        }
      }
    }
  }

  // ---------------------------------------------------------------------
  // The subscription object
  // ---------------------------------------------------------------------

  /** The subscription returned by receiver.subscribe, with the two handlers attached. */
  class Subscription {
    var open: bool
    var requests: seq<SmsRequest>
    var settled: seq<Settled>

    function State(): ConsumerState
      reads this
    {
      ConsumerState(open, requests, settled)
    }

    constructor ()
      ensures open && requests == [] && settled == []
      ensures Consistent(State())
    {
      open := true;
      requests := [];
      settled := [];
    }

    /** subscription.close(): closing a closed subscription changes nothing. */
    method Close()
      modifies this
      ensures State() == old(State()).(open := false)
    {
      open := false;
    }

    /** processError: classify the error and act on it. */
    method ProcessError(e: ReportedError) returns (action: Action)
      modifies this
      ensures action == Classify(e)
      ensures State() == OnEvent(old(State()), Fault(e))
      ensures open == (old(open) && action != CloseSubscription)
      ensures requests == old(requests) && settled == old(settled)
    {
      action := Classify(e);
      match action {
        case CloseSubscription =>
          Close();
        case LogLockLost =>
        case WaitThenContinue(_) =>
        case NoAction =>
      }
    }

    /**
     * processMessage followed by the SDK's settlement. Returns the
     * settlement, or None when the subscription is closed and the message
     * is not delivered.
     */
    method ProcessMessage(msg: ReceivedMessage, reply: GatewayReply) returns (settlement: Option<Settlement>)
      requires Consistent(State())
      modifies this
      ensures Consistent(State())
      ensures State() == OnEvent(old(State()), Delivery(msg, reply))
      ensures old(open) ==> settlement == Some(ExpectedSettlement(msg))
      ensures !old(open) ==> settlement == None
    {
      ghost var s0 := State();
      if !open {
        settlement := None;
        return;
      }
      var (request, outcome) := MyMessageHandler(msg, reply);
      if request.Some? {
        requests := requests + [request.value];
      }
      var s := Settle(outcome);
      settled := settled + [Settled(msg, s)];
      settlement := Some(s);
      OnEventIsConsistent(s0, Delivery(msg, reply));
    }
  }
}
