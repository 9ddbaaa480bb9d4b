/** What goes wrong, and why: transport errors and their causes, the queue's bound, and when nothing leaves. */
module ClientFailures {
  import opened Wrappers
  import opened Protocol
  import opened DecimalText
  import opened Transport
  import opened Client
  import opened ClientRun
  import opened ClientInvariant
  import opened ClientSafety

  // ---------- Why a call failed ----------

  /** A transport error has a cause: the child's error output, a refusal by the actor, or a dropped sender. */
  predicate Explained(s: State, c: nat, e: TransportError) {
    c < |s.channels| &&
    match e
    case StdioProcessError => s.kind == Stdio && (s.actor == Cleaning || s.actor == Returned)
    case NotConnected => s.kind == Sse && s.channels[c].sender == Used(Err(NotConnected))
    case Serialization => s.channels[c].sender == Used(Err(Serialization))
    case ChannelClosed => s.channels[c].sender == Dropped
    case UnsupportedMessage => false
  }

  predicate ErrorsOk(s: State) {
    && (s.stderrError ==> s.kind == Stdio && (s.actor == Cleaning || s.actor == Returned))
    && (forall c: nat, e | c < |s.channels| && s.channels[c].sender == Used(Err(e)) :: Explained(s, c, e))
    && (s.caller.Checking? && s.caller.call.Some? && s.caller.reply.Err? ==>
          Explained(s, s.caller.call.value, s.caller.reply.error))
    && (forall i | 0 <= i < |s.log| && Failed(s.log[i]) ::
          && Explained(s, s.log[i].channel, s.log[i].result.error.source)
          && s.log[i].result.error.methodName == s.channels[s.log[i].channel].request.methodName)
  }

  predicate Failed(e: Event) {
    e.Replied? && e.result.Err? && e.result.error.McpServerError?
  }

  // An explanation stays good while senders are final and the actor goes on.
  predicate GoesOn(s: State, t: State) {
    && t.kind == s.kind && SendersFinal(s.channels, t.channels)
    && (s.actor == Cleaning || s.actor == Returned ==> t.actor == Cleaning || t.actor == Returned)
  }

  lemma ExplainedKept(s: State, t: State, c: nat, e: TransportError)
    requires Explained(s, c, e) && GoesOn(s, t)
    ensures Explained(t, c, e)
  {
  }

  lemma StepGoesOn(s: State, step: Step)
    requires Enabled(s, step) && Good(s)
    ensures GoesOn(s, Apply(s, step))
  {
    SenderUsedOnce(s, step);
    hide Good;
    match step
    case Call(c) => CallActor(s, c);
    case Out(o) => SendActor(s, o);
    case In(i) => ArriveActor(s, i);
    case Act(a) =>
  }

  lemma CallActor(s: State, step: CallStep)
    requires CanCall(s, step)
    ensures var t := DoCall(s, step); t.kind == s.kind && t.actor == s.actor && t.endpoint == s.endpoint
    ensures DoCall(s, step).stderrError ==> s.stderrError
    ensures DoCall(s, step).clientAlive <==> s.clientAlive && step != DropClient
  {
    hide Outcome, AdvertisedBy, FinalReply, LastId;
  }

  lemma SendActor(s: State, step: OutgoingStep)
    requires CanSend(s, step)
    ensures var t := DoSend(s, step);
            && t.kind == s.kind && t.actor == s.actor && t.endpoint == s.endpoint && t.stderrError == s.stderrError
            && t.clientAlive == s.clientAlive && |t.queue| <= |s.queue|
  {
    hide Decimal;
  }

  lemma ArriveActor(s: State, step: IncomingStep)
    requires CanArrive(s, step)
    ensures var t := DoArrive(s, step);
            && t.kind == s.kind && t.actor == s.actor && t.stderrError == s.stderrError
            && t.clientAlive == s.clientAlive && t.queue == s.queue
            && (t.endpoint <==> s.endpoint || step == FindEndpoint)
  {
    hide Decimal;
  }

  // What each part may add: the actor's two refusals.
  predicate OnlyRefusals(s: State, t: State) {
    forall c: nat, e | c < |t.channels| && t.channels[c].sender == Used(Err(e)) ::
      || (c < |s.channels| && s.channels[c].sender == Used(Err(e)))
      || (e == NotConnected && s.kind == Sse) || e == Serialization
  }

  lemma CallRefusals(s: State, step: CallStep)
    requires CanCall(s, step)
    ensures OnlyRefusals(s, DoCall(s, step))
  {
    hide Outcome, AdvertisedBy, FinalReply, LastId;
  }

  lemma SendRefusals(s: State, step: OutgoingStep)
    requires CanSend(s, step)
    ensures OnlyRefusals(s, DoSend(s, step))
  {
  }

  lemma ArriveRefusals(s: State, step: IncomingStep)
    requires CanArrive(s, step)
    ensures OnlyRefusals(s, DoArrive(s, step))
  {
    hide Decimal;
  }

  lemma ActRefusals(s: State, step: ActorStep)
    requires CanAct(s, step)
    ensures OnlyRefusals(s, DoAct(s, step))
  {
  }

  predicate CallerExplained(s: State) {
    s.caller.Checking? && s.caller.call.Some? && s.caller.reply.Err? ==>
      Explained(s, s.caller.call.value, s.caller.reply.error)
  }

  predicate NewFailureOk(s: State, t: State) {
    && s.log <= t.log && |t.log| <= |s.log| + 1
    && (|t.log| > |s.log| && Failed(t.log[|s.log|]) ==>
          var e := t.log[|s.log|];
          && Explained(s, e.channel, e.result.error.source)
          && e.result.error.methodName == s.channels[e.channel].request.methodName)
  }

  lemma ErrorsKept(s: State, t: State)
    requires ErrorsOk(s) && GoesOn(s, t) && OnlyRefusals(s, t) && CallerExplained(t) && NewFailureOk(s, t)
    requires t.stderrError ==> t.kind == Stdio && (t.actor == Cleaning || t.actor == Returned)
    ensures ErrorsOk(t)
  {
    forall c: nat, e | c < |t.channels| && t.channels[c].sender == Used(Err(e)) ensures Explained(t, c, e) {
      if c < |s.channels| && s.channels[c].sender == Used(Err(e)) { ExplainedKept(s, t, c, e); }
    }
    forall i | 0 <= i < |t.log| && Failed(t.log[i])
      ensures Explained(t, t.log[i].channel, t.log[i].result.error.source)
      ensures t.log[i].result.error.methodName == t.channels[t.log[i].channel].request.methodName
    {
      assert i < |s.log| ==> t.log[i] == s.log[i];
      ExplainedKept(s, t, t.log[i].channel, t.log[i].result.error.source);
    }
  }

  lemma WakeExplained(s: State)
    requires CanCall(s, Wake) && ErrorsOk(s)
    ensures CallerExplained(Woken(s))
  {
    var c := s.caller.channel;
    var sender := s.channels[c].sender;
    if sender.Used? && sender.reply.Err? { assert Explained(s, c, sender.reply.error); }
  }

  lemma RefusedOfferExplained(s: State)
    requires CanCall(s, OfferRefused) && CallerOk(s)
    ensures CallerExplained(DoCall(s, OfferRefused))
  {
    var e := s.caller.envelope;
    if e.sender.Some? { assert e in [e] && e.sender.value in SendersOf([e]); }
  }

  lemma FinishExplained(s: State, decodes: bool)
    requires s.caller.Checking? && CallerOk(s) && ErrorsOk(s)
    ensures NewFailureOk(s, Finished(s, decodes))
  {
    hide AdvertisedBy, Interpret;
    FinishFrame(s, decodes);
    if s.caller.call.Some? && FinalReply(s, s.caller.reply).Ok? {
      NoTransportError(LastId(s.nextId), FinalReply(s, s.caller.reply).value);
    }
  }

  // Reading a reply never yields a transport error.
  lemma NoTransportError(expected: U64, m: Message)
    ensures Interpret(expected, m).Err? ==> !Interpret(expected, m).error.McpServerError?
  {
  }

  lemma CallErrors(s: State, step: CallStep)
    requires CanCall(s, step) && Good(s) && ErrorsOk(s)
    ensures CallerExplained(DoCall(s, step)) && NewFailureOk(s, DoCall(s, step))
  {
    hide ErrorsOk, Finished, Core;
    match step
    case Wake => WakeExplained(s);
    case OfferRefused => RefusedOfferExplained(s);
    case Finish(decodes) => FinishExplained(s, decodes); FinishedFrame(s, decodes);
    case _ =>
  }

  lemma ErrorsStep(s: State, step: Step)
    requires Enabled(s, step) && Good(s) && ShutdownOk(s) && ErrorsOk(s)
    ensures ErrorsOk(Apply(s, step))
  {
    StepGoesOn(s, step);
    StepAdds(s, step);
    hide Good, Enabled, Apply, Explained, OnlyRefusals, GoesOn, ErrorsOk, CallerExplained, NewFailureOk;
    ErrorsKept(s, Apply(s, step));
  }

  lemma StepAdds(s: State, step: Step)
    requires Enabled(s, step) && Good(s) && ShutdownOk(s) && ErrorsOk(s)
    ensures var t := Apply(s, step);
            && OnlyRefusals(s, t) && CallerExplained(t) && NewFailureOk(s, t)
            && (t.stderrError ==> t.kind == Stdio && (t.actor == Cleaning || t.actor == Returned))
  {
    StepGoesOn(s, step);
    hide Good, OnlyRefusals, CanCall, CanSend, CanArrive, DoCall, DoSend, DoArrive;
    match step
    case Call(c) => CallRefusals(s, c); CallErrors(s, c); CallActor(s, c);
    case Out(o) => SendRefusals(s, o); SendFrame(s, o); SendActor(s, o); SameCaller(s, Apply(s, step));
    case In(i) => ArriveRefusals(s, i); ArriveFrame(s, i); ArriveActor(s, i); SameCaller(s, Apply(s, step));
    case Act(a) => ActRefusals(s, a); ActFrame(s, a); SameCaller(s, Apply(s, step));
  }

  lemma SameCaller(s: State, t: State)
    requires ErrorsOk(s) && GoesOn(s, t) && ClientSame(s, t)
    ensures CallerExplained(t) && NewFailureOk(s, t)
  {
    if s.caller.Checking? && s.caller.call.Some? && s.caller.reply.Err? {
      ExplainedKept(s, t, s.caller.call.value, s.caller.reply.error);
    }
  }

  lemma {:induction false} RunErrors(kind: Kind, steps: seq<Step>)
    requires After(kind, steps).Some? && |After(kind, steps).value.channels| < TWO64 - 1
    ensures ErrorsOk(After(kind, steps).value)
  {
    if steps != [] {
      var before, s, step := LastStep(kind, steps);
      RunErrors(kind, before);
      ErrorsStep(s, step);
    }
  }

  /**
   * A call that ended with a transport error names its own method, and the error tells what became
   * of its sender: refused for want of an endpoint (SSE only), not serialisable, or dropped; or else
   * the child's error output had been read.
   */
  lemma ErrorsAreExplained(kind: Kind, steps: seq<Step>, i: nat)
    requires After(kind, steps).Some? && |After(kind, steps).value.channels| < TWO64 - 1
    requires i < |After(kind, steps).value.log| && Failed(After(kind, steps).value.log[i])
    ensures var s := After(kind, steps).value;
            var Replied(c, result) := s.log[i];
            && c < |s.channels| && result.error.methodName == s.channels[c].request.methodName
            && match result.error.source
               case StdioProcessError => s.kind == Stdio && (s.actor == Cleaning || s.actor == Returned)
               case NotConnected => s.kind == Sse && s.channels[c].sender == Used(Err(NotConnected))
               case Serialization => s.channels[c].sender == Used(Err(Serialization))
               case ChannelClosed => s.channels[c].sender == Dropped
               case UnsupportedMessage => false
  {
    RunErrors(kind, steps);
    assert Explained(After(kind, steps).value, After(kind, steps).value.log[i].channel,
                     After(kind, steps).value.log[i].result.error.source);
  }

  // ---------- The queue, and what leaves ----------

  /** The queue never holds more than 32 messages. */
  lemma {:induction false} QueueIsBounded(kind: Kind, steps: seq<Step>)
    requires After(kind, steps).Some?
    ensures |After(kind, steps).value.queue| <= 32
  {
    AfterStep(kind, steps);
    if steps != [] {
      var n := |steps| - 1;
      QueueIsBounded(kind, steps[..n]);
      QueueStep(After(kind, steps[..n]).value, steps[n]);
    }
  }

  lemma QueueStep(s: State, step: Step)
    requires Enabled(s, step) && |s.queue| <= 32
    ensures |Apply(s, step).queue| <= 32
  {
    hide DoCall, DoSend, DoArrive, DoAct, CanCall, CanSend, CanArrive, CanAct;
    match step
    case Call(c) => QueueCall(s, c);
    case Out(o) => SendActor(s, o);
    case In(i) => ArriveActor(s, i);
    case Act(a) => QueueAct(s, a);
  }

  lemma QueueCall(s: State, step: CallStep)
    requires CanCall(s, step) && |s.queue| <= 32
    ensures |DoCall(s, step).queue| <= 32
  {
    hide Outcome, AdvertisedBy, FinalReply, LastId;
  }

  lemma QueueAct(s: State, step: ActorStep)
    requires CanAct(s, step)
    ensures |DoAct(s, step).queue| <= |s.queue|
  {
  }

  /** The loop that writes has come to its end, or its actor has. */
  predicate WritingIsOver(s: State) {
    s.outgoing == OutClearing || s.outgoing == OutDone || s.actor != Running
  }

  lemma OverStaysOver(s: State, step: Step)
    requires Enabled(s, step) && WritingIsOver(s)
    ensures WritingIsOver(Apply(s, step)) && Apply(s, step).wire == s.wire
  {
    hide DoCall, DoSend, DoArrive, DoAct, CanCall, CanSend, CanArrive;
    match step
    case Call(c) => CallFrame(s, c); CallActor(s, c);
    case Out(o) => SendOver(s, o);
    case In(i) => ArriveFrame(s, i); ArriveActor(s, i);
    case Act(a) => ActFrame(s, a); ActOver(s, a);
  }

  lemma SendOver(s: State, step: OutgoingStep)
    requires CanSend(s, step) && WritingIsOver(s)
    ensures WritingIsOver(DoSend(s, step)) && DoSend(s, step).wire == s.wire
  {
  }

  lemma ActOver(s: State, step: ActorStep)
    requires CanAct(s, step)
    ensures DoAct(s, step).actor != Running
  {
  }

  lemma {:induction false} NothingLeavesAfter(kind: Kind, steps: seq<Step>, k: nat)
    requires After(kind, steps).Some? && k <= |steps|
    ensures After(kind, steps[..k]).Some?
    ensures WritingIsOver(After(kind, steps[..k]).value) ==>
              && WritingIsOver(After(kind, steps).value)
              && After(kind, steps).value.wire == After(kind, steps[..k]).value.wire
  {
    AfterStep(kind, steps);
    if k < |steps| {
      var n := |steps| - 1;
      assert steps[..n][..k] == steps[..k];
      NothingLeavesAfter(kind, steps[..n], k);
      if WritingIsOver(After(kind, steps[..n]).value) { OverStaysOver(After(kind, steps[..n]).value, steps[n]); }
    } else {
      assert steps[..k] == steps;
    }
  }

  /** After a failed write, or once the stdio actor has stopped, no message leaves any more. */
  lemma NothingLeavesAfterFailure(kind: Kind, steps: seq<Step>, k: nat)
    requires After(kind, steps).Some? && k < |steps|
    requires steps[k] == Out(FinishWrite(false)) || steps[k] == Act(Stop)
    ensures After(kind, steps[..k + 1]).Some?
    ensures After(kind, steps).value.wire == After(kind, steps[..k + 1]).value.wire
  {
    NothingLeavesAfter(kind, steps, k + 1);
    AfterStep(kind, steps[..k + 1]);
  }

  /** Whatever an SSE client has past its pending map, or on the wire, went there with an endpoint. */
  predicate EndpointFirst(s: State) {
    s.kind == Sse && (s.wire != [] || s.outgoing.Inserting? || s.outgoing.Writing? || s.outgoing.Flushing?) ==>
      s.endpoint
  }

  lemma EndpointStep(s: State, step: Step)
    requires Enabled(s, step) && EndpointFirst(s)
    ensures EndpointFirst(Apply(s, step))
  {
    hide DoCall, DoSend, DoArrive, DoAct, CanCall, CanSend, CanArrive, CanAct;
    match step
    case Call(c) => CallFrame(s, c); CallActor(s, c);
    case Out(o) => SendEndpoint(s, o);
    case In(i) => ArriveFrame(s, i); ArriveActor(s, i);
    case Act(a) => ActEndpoint(s, a);
  }

  lemma SendEndpoint(s: State, step: OutgoingStep)
    requires CanSend(s, step) && EndpointFirst(s)
    ensures EndpointFirst(DoSend(s, step))
  {
    hide Decimal;
  }

  lemma ActEndpoint(s: State, step: ActorStep)
    requires CanAct(s, step) && EndpointFirst(s)
    ensures EndpointFirst(DoAct(s, step))
  {
  }

  /** An SSE client writes nothing before it has found an endpoint. */
  lemma {:induction false} NothingBeforeTheEndpoint(kind: Kind, steps: seq<Step>)
    requires After(kind, steps).Some?
    ensures EndpointFirst(After(kind, steps).value)
  {
    AfterStep(kind, steps);
    if steps != [] {
      var n := |steps| - 1;
      NothingBeforeTheEndpoint(kind, steps[..n]);
      EndpointStep(After(kind, steps[..n]).value, steps[n]);
    }
  }

  // ---------- Steps with a result of their own ----------

  /** What the child wrote to its error output is told to the next call that finishes, whatever its reply, and once. */
  lemma StderrIsTold(steps: seq<Step>, s: State, c: nat, decodes: bool)
    requires After(Stdio, steps) == Some(s) && s.kind == Stdio && s.stderrError
    requires s.caller.Checking? && s.caller.call == Some(c) && c < |s.channels|
    ensures After(Stdio, steps + [Call(Finish(decodes))]).Some?
    ensures var t := After(Stdio, steps + [Call(Finish(decodes))]).value;
            var error := McpServerError(s.channels[c].request.methodName, StdioProcessError);
            t.log == s.log + [Replied(c, Err(error))] && !t.stderrError
  {
    NextState(Stdio, steps, Call(Finish(decodes)));
    hide AdvertisedBy, Interpret;
  }

  /** The actor's refusals: a request taken without an endpoint, and one that does not serialise. */
  lemma RefusalsAreTold(kind: Kind, steps: seq<Step>, s: State, c: nat)
    requires After(kind, steps) == Some(s) && s.outgoing.Got? && s.outgoing.envelope.sender == Some(c)
    requires c < |s.channels|
    ensures CanSend(s, RefuseUnconnected) ==>
              && After(kind, steps + [Out(RefuseUnconnected)]).Some?
              && var t := After(kind, steps + [Out(RefuseUnconnected)]).value;
                 c < |t.channels| && t.outgoing == Receiving && t.channels[c].sender == Used(Err(NotConnected))
    ensures CanSend(s, FailSerialize) ==>
              && After(kind, steps + [Out(FailSerialize)]).Some?
              && var t := After(kind, steps + [Out(FailSerialize)]).value;
                 c < |t.channels| && t.outgoing == Receiving && t.channels[c].sender == Used(Err(Serialization))
    ensures CanSend(s, RefuseUnconnected) <==> s.actor == Running && s.kind == Sse && !s.endpoint
  {
    if CanSend(s, RefuseUnconnected) { NextState(kind, steps, Out(RefuseUnconnected)); }
    if CanSend(s, FailSerialize) { NextState(kind, steps, Out(FailSerialize)); }
    hide After, Apply;
  }

  /** The three places that clear the pending map leave it empty, and drop the sender of every request in it. */
  lemma ClearsAreComplete(kind: Kind, steps: seq<Step>, step: Step)
    requires After(kind, steps).Some? && Enabled(After(kind, steps).value, step)
    requires |After(kind, steps).value.channels| < TWO64 - 1
    requires step == In(ClearIncoming) || step == Out(ClearOutgoing) || step == Act(Return)
    ensures After(kind, steps + [step]).Some?
    ensures var s, t := After(kind, steps).value, After(kind, steps + [step]).value;
            && t.pending == map[]
            && forall k | k in s.pending :: s.pending[k] < |t.channels| && t.channels[s.pending[k]].sender == Dropped
  {
    RunGood(kind, steps);
    NextState(kind, steps, step);
    var s := After(kind, steps).value;
    PendingHeld(s);
    hide After, Good, Core;
  }

  /** Neither loop of an SSE client ends without clearing the map. */
  lemma {:induction false} SseLoopsEndClearing(steps: seq<Step>)
    requires After(Sse, steps).Some?
    ensures After(Sse, steps).value.kind == Sse && After(Sse, steps).value.actor == Running
    ensures After(Sse, steps).value.incoming == InDone ==> In(ClearIncoming) in steps
    ensures After(Sse, steps).value.outgoing == OutDone ==> Out(ClearOutgoing) in steps
  {
    AfterStep(Sse, steps);
    if steps != [] {
      var n := |steps| - 1;
      assert steps == steps[..n] + [steps[n]];
      SseLoopsEndClearing(steps[..n]);
      SseStep(After(Sse, steps[..n]).value, steps[n]);
    }
  }

  lemma SseStep(s: State, step: Step)
    requires Enabled(s, step) && s.kind == Sse && s.actor == Running
    ensures var t := Apply(s, step);
            && t.kind == Sse && t.actor == Running
            && (t.incoming == InDone ==> s.incoming == InDone || step == In(ClearIncoming))
            && (t.outgoing == OutDone ==> s.outgoing == OutDone || step == Out(ClearOutgoing))
  {
    hide DoCall, DoSend, DoArrive, CanCall, CanSend, CanArrive;
    match step
    case Call(c) => CallFrame(s, c); CallActor(s, c);
    case Out(o) => SendFrame(s, o); SendActor(s, o); SseSend(s, o);
    case In(i) => ArriveFrame(s, i); ArriveActor(s, i); SseArrive(s, i);
    case Act(a) =>
  }

  lemma SseSend(s: State, step: OutgoingStep)
    requires CanSend(s, step) && s.kind == Sse
    ensures DoSend(s, step).outgoing == OutDone ==> s.outgoing == OutDone || step == ClearOutgoing
  {
    hide Decimal;
  }

  lemma SseArrive(s: State, step: IncomingStep)
    requires CanArrive(s, step) && s.kind == Sse
    ensures DoArrive(s, step).incoming == InDone ==> s.incoming == InDone || step == ClearIncoming
  {
    hide Decimal;
  }

  /** The endpoint is known exactly once its event was seen, and the client lives exactly until it was dropped. */
  lemma {:induction false} EndpointAndClient(kind: Kind, steps: seq<Step>)
    requires After(kind, steps).Some?
    ensures After(kind, steps).value.endpoint <==> In(FindEndpoint) in steps
    ensures After(kind, steps).value.clientAlive <==> Call(DropClient) !in steps
  {
    AfterStep(kind, steps);
    if steps != [] {
      var n := |steps| - 1;
      assert steps == steps[..n] + [steps[n]];
      EndpointAndClient(kind, steps[..n]);
      EndpointAndClientStep(After(kind, steps[..n]).value, steps[n]);
    }
  }

  lemma EndpointAndClientStep(s: State, step: Step)
    requires Enabled(s, step)
    ensures Apply(s, step).endpoint <==> s.endpoint || step == In(FindEndpoint)
    ensures Apply(s, step).clientAlive <==> s.clientAlive && step != Call(DropClient)
  {
    hide DoCall, DoSend, DoArrive, CanCall, CanSend, CanArrive;
    match step
    case Call(c) => CallActor(s, c);
    case Out(o) => SendActor(s, o);
    case In(i) => ArriveActor(s, i);
    case Act(a) =>
  }
}
