/** Every step of `ClientRun` keeps the invariant, so every run does. */
module ClientSafety {
  import opened Wrappers
  import opened Json
  import opened Protocol
  import opened DecimalText
  import opened Transport
  import opened Client
  import opened ClientRun
  import opened ClientInvariant

  /** The call in progress is about the newest channel, and holds the reply that was sent to it. */
  predicate CallerOk(s: State) {
    match s.caller
    case Idle => true
    case Offering(e) => e.sender.Some? ==> e.sender.value + 1 == |s.channels|
    case Waiting(c) => c + 1 == |s.channels|
    case Checking(None, reply) => reply.Ok? ==> reply == Ok(Nil)
    case Checking(Some(c), reply) => c + 1 == |s.channels| && (reply.Ok? ==> s.channels[c].sender == Used(reply))
  }

  predicate LoopsOk(s: State) {
    && (s.outgoing.Inserting? ==> s.outgoing.envelope.sender.Some?)
    && (s.incoming.Responding? ==> ReplyId(s.incoming.message).Some? && Survives(s.incoming.message))
  }

  /** How far each part has shut down. */
  predicate ShutdownOk(s: State) {
    && (s.outgoing == OutDone ==> s.queue == [])
    && (s.outgoing == OutDone && s.kind == Sse ==> s.pending == map[])
    && (s.actor == Returned ==> s.outgoing == OutDone && s.pending == map[])
    && (s.kind == Sse ==> s.actor == Running)
    && (!s.clientAlive ==> s.caller.Idle? && s.phase == Ready)
    && (s.kind == Sse && (s.outgoing == OutClearing || s.outgoing == OutDone) ==> !s.clientAlive)
  }

  predicate Good(s: State) {
    Core(ViewOf(s)) && CallerOk(s) && LoopsOk(s)
  }

  // ---------- What each part leaves alone ----------

  // The call keeps to the client's side of the queue.
  predicate TransportSame(s: State, t: State) {
    && t.kind == s.kind && t.outgoing == s.outgoing && t.incoming == s.incoming && t.pending == s.pending
    && t.wire == s.wire && t.inserted == s.inserted && t.answered == s.answered && t.cleared == s.cleared
    && t.delivered == s.delivered && |s.channels| <= |t.channels|
  }

  lemma IssueFrame(s: State, methodName: string, params: Value)
    ensures TransportSame(s, Issue(s, methodName, params))
  {
  }

  lemma WokenFrame(s: State)
    requires CanCall(s, Wake)
    ensures TransportSame(s, Woken(s)) && Woken(s).queue == s.queue && Woken(s).nextId == s.nextId
    ensures !Woken(s).caller.Offering?
  {
  }

  lemma FinishedFrame(s: State, decodes: bool)
    requires s.caller.Checking?
    ensures var t := Finished(s, decodes);
            TransportSame(s, t) && t.queue == s.queue && t.nextId == s.nextId && t.caller.Idle?
  {
    hide Outcome, AdvertisedBy;
  }

  lemma AbandonedFrame(s: State)
    ensures var t := Abandoned(s);
            TransportSame(s, t) && t.queue == s.queue && t.nextId == s.nextId && t.caller.Idle?
  {
  }

  lemma CallFrame(s: State, step: CallStep)
    requires CanCall(s, step)
    ensures TransportSame(s, DoCall(s, step))
  {
    hide Issue, Woken, Finished, Abandoned;
    match step
    case BeginInitialize(params) => IssueFrame(s, "initialize", params);
    case Invoke(op, params) => IssueFrame(s, MethodName(op), params);
    case BeginNotify =>
    case Offer =>
    case OfferRefused =>
    case Wake => WokenFrame(s);
    case Finish(decodes) => FinishedFrame(s, decodes);
    case Abandon => AbandonedFrame(s);
    case DropClient =>
  }

  lemma FinishFrame(s: State, decodes: bool)
    requires s.caller.Checking?
    ensures var t := Finished(s, decodes);
            && t.channels == s.channels && s.log <= t.log && |t.log| <= |s.log| + 1
            && (|t.log| > |s.log| ==> !t.log[|s.log|].Issued?)
  {
    hide Outcome, AdvertisedBy, FinalReply, LastId;
  }

  // The other parts keep to the transport: the client's own fields stay.
  predicate ClientSame(s: State, t: State) {
    && t.log == s.log && t.capabilities == s.capabilities && t.phase == s.phase && t.caller == s.caller
    && |t.channels| == |s.channels|
  }

  lemma SendFrame(s: State, step: OutgoingStep)
    requires CanSend(s, step)
    ensures var t := DoSend(s, step);
            && ClientSame(s, t) && t.incoming == s.incoming
            && t.answered == s.answered && t.delivered == s.delivered && s.inserted <= t.inserted
  {
  }

  lemma ArriveFrame(s: State, step: IncomingStep)
    requires CanArrive(s, step)
    ensures var t := DoArrive(s, step);
            && ClientSame(s, t) && t.outgoing == s.outgoing && t.wire == s.wire && t.inserted == s.inserted
  {
  }

  lemma ActFrame(s: State, step: ActorStep)
    requires CanAct(s, step)
    ensures var t := DoAct(s, step);
            && ClientSame(s, t) && t.incoming == s.incoming && (t.outgoing == s.outgoing || t.outgoing == OutDone)
            && t.wire == s.wire && t.inserted == s.inserted && t.answered == s.answered && t.delivered == s.delivered
  {
  }

  // ---------- Steps of the call ----------

  lemma UnsentSplit(s: State)
    ensures var u, n := Unsent(s), |LocalEnvelope(s.outgoing) + s.queue|;
            && n <= |u|
            && u[..n] == LocalEnvelope(s.outgoing) + s.queue
            && u[n..] == Offered(s.caller)
  {
  }

  lemma IssueCore(s: State, methodName: string, params: Value)
    requires Good(s) && s.caller.Idle? && |s.channels| + 1 < TWO64 - 1
    ensures Core(ViewOf(Issue(s, methodName, params)))
  {
    var request := MakeRequest(s.nextId, methodName, params);
    CoreIssue(ViewOf(s), request);
    assert Unsent(Issue(s, methodName, params)) == Unsent(s) + [Envelope(Request(request), Some(|s.channels|))];
  }

  lemma DropOffered(s: State, t: State)
    requires Good(s) && s.caller.Offering? && !t.caller.Offering?
    requires ViewOf(t) == ViewOf(s).(unsent := LocalEnvelope(s.outgoing) + s.queue,
                                     channels := DropEnvelopes(s.channels, [s.caller.envelope]))
    ensures Core(ViewOf(t))
  {
    var v, n := ViewOf(s), |LocalEnvelope(s.outgoing) + s.queue|;
    UnsentSplit(s);
    assert v.unsent[..0] + v.unsent[n..] == [s.caller.envelope];
    CoreSlice(v, 0, n, t.channels) by { assert Loses(v.channels, t.channels, Outside(v.unsent, 0, n)); }
    assert v.unsent[0..n] == Unsent(t);
  }

  // Steps that leave the unsent messages as they are, or only stop a receiver listening.
  predicate KeepsUnsent(s: State, step: CallStep) {
    step.Wake? || step.Finish? || step.DropClient? || (step.Abandon? && !s.caller.Offering?)
  }

  lemma KeepingView(s: State, step: CallStep)
    requires CanCall(s, step) && KeepsUnsent(s, step)
    ensures var t := DoCall(s, step);
            t.queue == s.queue && Offered(t.caller) == Offered(s.caller) && t.nextId == s.nextId
  {
    hide Issue, Woken, Finished, Abandoned;
    match step
    case Wake => WokenFrame(s);
    case Finish(decodes) => FinishedFrame(s, decodes);
    case Abandon => AbandonedFrame(s);
    case DropClient =>
  }

  lemma KeepingSenders(s: State, step: CallStep)
    requires CanCall(s, step) && KeepsUnsent(s, step)
    ensures Loses(s.channels, DoCall(s, step).channels, {})
  {
  }

  lemma KeepingCore(s: State, step: CallStep)
    requires CanCall(s, step) && Good(s) && KeepsUnsent(s, step)
    ensures Core(ViewOf(DoCall(s, step)))
  {
    hide Core, DoCall;
    var v, t := ViewOf(s), DoCall(s, step);
    CallFrame(s, step);
    KeepingView(s, step);
    KeepingSenders(s, step);
    CoreMute(v, t.channels);
    SameView(s, t);
  }

  lemma SameView(s: State, t: State)
    requires t.outgoing == s.outgoing && t.queue + Offered(t.caller) == s.queue + Offered(s.caller)
    requires t.wire == s.wire && t.nextId == s.nextId && t.pending == s.pending
    requires t.inserted == s.inserted && t.answered == s.answered && t.cleared == s.cleared
    ensures ViewOf(t) == ViewOf(s).(channels := t.channels)
  {
    assert Unsent(t) == LocalEnvelope(t.outgoing) + (t.queue + Offered(t.caller));
    assert Unsent(s) == LocalEnvelope(s.outgoing) + (s.queue + Offered(s.caller));
  }

  lemma CallCore(s: State, step: CallStep)
    requires CanCall(s, step) && Good(s) && ShutdownOk(s) && |DoCall(s, step).channels| < TWO64 - 1
    ensures Core(ViewOf(DoCall(s, step)))
  {
    if KeepsUnsent(s, step) {
      KeepingCore(s, step);
    } else {
      match step {
        case BeginInitialize(params) => IssueCore(s, "initialize", params);
        case Invoke(op, params) => IssueCore(s, MethodName(op), params);
        case BeginNotify =>
          CoreNotify(ViewOf(s), INITIALIZED);
          assert Unsent(DoCall(s, step)) == Unsent(s) + [Envelope(INITIALIZED, None)];
        case Offer => SameView(s, DoCall(s, step));
        case OfferRefused => DropOffered(s, DoCall(s, step));
        case Abandon => DropOffered(s, DoCall(s, step));
      }
    }
  }

  // ---------- Steps of the outgoing loop ----------

  // The loop drops the message it holds, after failing its sender.
  lemma FailCore(s: State, error: TransportError)
    requires Good(s) && s.outgoing.Got?
    ensures Core(ViewOf(Fail(s, s.outgoing.envelope, error)))
  {
    var v, t := ViewOf(s), Fail(s, s.outgoing.envelope, error);
    FailLoses(s, error);
    CoreSlice(v, 1, |v.unsent|, t.channels);
    hide Core, SendersOf, Send, Loses, Outside;
    FailUnsent(s, error);
  }

  lemma FailUnsent(s: State, error: TransportError)
    requires s.outgoing.Got?
    ensures Unsent(s) == [s.outgoing.envelope] + (s.queue + Offered(s.caller))
    ensures Unsent(s)[1..|Unsent(s)|] == Unsent(Fail(s, s.outgoing.envelope, error))
    ensures Gone(Fail(s, s.outgoing.envelope, error)) == Gone(s)
  {
    hide Send;
    var e, rest := s.outgoing.envelope, s.queue + Offered(s.caller);
    assert LocalEnvelope(s.outgoing) == [e] && Unsent(s) == [e] + rest;
    assert Unsent(Fail(s, e, error)) == rest;
  }

  lemma FailLoses(s: State, error: TransportError)
    requires Good(s) && s.outgoing.Got?
    ensures Unsent(s) != []
    ensures Loses(s.channels, Fail(s, s.outgoing.envelope, error).channels, Outside(Unsent(s), 1, |Unsent(s)|))
  {
    FailUnsent(s, error);
    var v, e := ViewOf(s), s.outgoing.envelope;
    assert v.unsent[0] == e && GoodEnvelope(v, v.unsent[0]);
    assert Unsent(s)[..1] + Unsent(s)[|Unsent(s)|..] == [e];
    hide Core, Unsent;
  }

  // A message that was being written is forgotten, which loses no sender.
  lemma EndOutgoingCore(s: State)
    requires Core(ViewOf(s))
    ensures Core(ViewOf(EndOutgoing(s)))
  {
    CoreForget(ViewOf(s), s.wire);
    var v, t, n := ViewOf(s).(gone := s.wire), EndOutgoing(s), |LocalEnvelope(s.outgoing) + s.queue|;
    UnsentSplit(s);
    assert v.unsent[..n] + v.unsent[|v.unsent|..] == LocalEnvelope(s.outgoing) + s.queue;
    CoreSlice(v, n, |v.unsent|, t.channels) by {
      assert Loses(v.channels, t.channels, Outside(v.unsent, n, |v.unsent|));
    }
    assert v.unsent[n..|v.unsent|] == Unsent(t);
    assert ViewOf(t) == v.(unsent := v.unsent[n..|v.unsent|], channels := t.channels);
  }

  // The insertion replaces no entry.
  lemma InsertedIs(s: State)
    requires Good(s) && s.outgoing.Inserting?
    ensures Unsent(s) != [] && Unsent(s)[0] == s.outgoing.envelope
    ensures Inserted(s, s.outgoing.envelope)
         == s.(pending := s.pending[Key(s.outgoing.envelope.sender.value) := s.outgoing.envelope.sender.value],
               inserted := s.inserted + {s.outgoing.envelope.sender.value},
               outgoing := Writing(s.outgoing.envelope.message))
  {
    assert ViewOf(s).unsent[0] == s.outgoing.envelope;
    CoreInsert(ViewOf(s));
  }

  lemma InsertCore(s: State)
    requires Good(s) && s.outgoing.Inserting?
    ensures Core(ViewOf(Inserted(s, s.outgoing.envelope)))
  {
    InsertedIs(s);
    CoreInsert(ViewOf(s));
    hide Core, Inserted;
    var v, t := ViewOf(s), Inserted(s, s.outgoing.envelope);
    assert Unsent(t) == v.unsent[1..];
    assert Gone(s) == s.wire && Gone(t) == s.wire + [s.outgoing.envelope.message];
  }

  lemma PrepareCore(s: State)
    requires CanSend(s, Prepare) && Good(s)
    ensures Core(ViewOf(DoSend(s, Prepare)))
  {
    var v, t := ViewOf(s), DoSend(s, Prepare);
    assert v.unsent[0] == s.outgoing.envelope && Gone(s) == s.wire;
    if s.outgoing.envelope.sender.None? {
      CorePass(v);
      assert Unsent(t) == v.unsent[1..];
    }
  }

  lemma StartWriteCore(s: State)
    requires CanSend(s, StartWrite) && Good(s)
    ensures Core(ViewOf(DoSend(s, StartWrite)))
  {
    assert Gone(DoSend(s, StartWrite)) == Gone(s);
  }

  lemma ClearAndEndCore(s: State)
    requires Good(s)
    ensures Core(ViewOf(EndOutgoing(ClearPending(s))))
  {
    CoreClear(ViewOf(s));
    EndOutgoingCore(ClearPending(s));
  }

  lemma ReceiveCore(s: State)
    requires CanSend(s, Receive) && Good(s)
    ensures Core(ViewOf(DoSend(s, Receive)))
  {
    assert Unsent(DoSend(s, Receive)) == Unsent(s);
  }

  lemma SendCore(s: State, step: OutgoingStep)
    requires CanSend(s, step) && Good(s)
    ensures Core(ViewOf(DoSend(s, step)))
  {
    hide Core;
    match step
    case Receive => ReceiveCore(s);
    case ReceiveClosed => if s.kind == Stdio { EndOutgoingCore(s); }
    case RefuseUnconnected => FailCore(s, NotConnected);
    case FailSerialize => FailCore(s, Serialization);
    case Prepare => PrepareCore(s);
    case Insert => InsertCore(s);
    case StartWrite => StartWriteCore(s);
    case FinishWrite(_) =>
    case ClearOutgoing => ClearAndEndCore(s);
  }

  // ---------- Steps of the incoming loop and the actor ----------

  lemma RespondedIs(s: State, m: Message)
    requires Good(s) && s.incoming == Responding(m)
    ensures var t, id := Responded(s, m), ReplyId(m).value;
            if Decimal(id) in s.pending then
              && id >= 1 && s.pending[Decimal(id)] == id - 1 < |s.channels|
              && ViewOf(t) == AfterRespond(ViewOf(s), Decimal(id), m)
            else t == s.(incoming := Reading)
  {
    if Decimal(ReplyId(m).value) in s.pending { ReplyFindsItsChannel(ViewOf(s), ReplyId(m).value); }
    hide Core, Send, Decimal;
  }

  lemma RespondedCore(s: State, m: Message)
    requires Good(s) && s.incoming == Responding(m)
    ensures Core(ViewOf(Responded(s, m)))
  {
    var v, id := ViewOf(s), ReplyId(m).value;
    RespondedIs(s, m);
    hide Send, Decimal, Responded;
    if Decimal(id) in s.pending { RespondCore(v, id - 1, m); }
  }

  lemma RespondedFrame(s: State, m: Message)
    requires PendingOk(ViewOf(s)) && ReplyId(m).Some?
    ensures var t := Responded(s, m);
            && t.delivered == s.delivered && t.inserted == s.inserted && t.incoming == Reading
            && (t.answered == s.answered
                || (ReplyId(m).value >= 1 && t.answered == s.answered + {ReplyId(m).value - 1}))
  {
    if Decimal(ReplyId(m).value) in s.pending { ReplyFindsItsChannel(ViewOf(s), ReplyId(m).value); }
  }

  lemma ArriveCore(s: State, step: IncomingStep)
    requires CanArrive(s, step) && Good(s)
    ensures Core(ViewOf(DoArrive(s, step)))
  {
    match step
    case FindEndpoint =>
    case GiveUpEndpoint =>
    case Deliver(_) =>
    case Respond => RespondedCore(s, s.incoming.message);
    case EndIncoming =>
    case ClearIncoming => CoreClear(ViewOf(s));
  }

  lemma ActCore(s: State, step: ActorStep)
    requires CanAct(s, step) && Good(s)
    ensures Core(ViewOf(DoAct(s, step)))
  {
    if step == Return { ClearAndEndCore(s); }
  }

  // ---------- A sender is used or dropped once ----------

  lemma PendingHeld(s: State)
    requires PendingOk(ViewOf(s))
    ensures forall k | k in s.pending :: s.pending[k] < |s.channels| && s.channels[s.pending[k]].sender.Held?
  {
    forall k | k in s.pending ensures s.pending[k] < |s.channels| && s.channels[s.pending[k]].sender.Held? {
      assert GoodEntry(ViewOf(s), k);
    }
  }

  lemma UnsentHeld(s: State)
    requires UnsentOk(ViewOf(s))
    ensures forall e | e in Unsent(s) && e.sender.Some? ::
              e.sender.value < |s.channels| && s.channels[e.sender.value].sender.Held?
  {
    forall e | e in Unsent(s) && e.sender.Some?
      ensures e.sender.value < |s.channels| && s.channels[e.sender.value].sender.Held?
    {
      var i :| 0 <= i < |Unsent(s)| && Unsent(s)[i] == e;
      assert GoodEnvelope(ViewOf(s), ViewOf(s).unsent[i]);
    }
  }

  lemma CallFinal(s: State, step: CallStep)
    requires CanCall(s, step) && Good(s)
    ensures SendersFinal(s.channels, DoCall(s, step).channels)
  {
    UnsentHeld(s);
  }

  lemma EndOutgoingFinal(s: State)
    requires Core(ViewOf(s))
    ensures SendersFinal(s.channels, EndOutgoing(s).channels)
  {
    UnsentHeld(s);
    UnsentSplit(s);
    forall c | c in SendersOf(s.queue + LocalEnvelope(s.outgoing))
      ensures c < |s.channels| && s.channels[c].sender.Held?
    {
      var e :| e in s.queue + LocalEnvelope(s.outgoing) && e.sender == Some(c);
      assert e in Unsent(s);
    }
  }

  lemma ClearFinal(s: State)
    requires Core(ViewOf(s))
    ensures SendersFinal(s.channels, ClearPending(s).channels)
  {
    PendingHeld(s);
  }

  lemma SendFinal(s: State, step: OutgoingStep)
    requires CanSend(s, step) && Good(s)
    ensures SendersFinal(s.channels, DoSend(s, step).channels) && |DoSend(s, step).channels| == |s.channels|
  {
    match step
    case Receive =>
    case ReceiveClosed => EndOutgoingFinal(s);
    case RefuseUnconnected => UnsentHeld(s); assert s.outgoing.envelope in Unsent(s);
    case FailSerialize => UnsentHeld(s); assert s.outgoing.envelope in Unsent(s);
    case Prepare =>
    case Insert => InsertedIs(s);
    case StartWrite =>
    case FinishWrite(_) =>
    case ClearOutgoing => ClearFinal(s); CoreClear(ViewOf(s)); EndOutgoingFinal(ClearPending(s));
  }

  lemma ArriveFinal(s: State, step: IncomingStep)
    requires CanArrive(s, step) && Good(s)
    ensures SendersFinal(s.channels, DoArrive(s, step).channels) && |DoArrive(s, step).channels| == |s.channels|
  {
    PendingHeld(s);
  }

  lemma ActFinal(s: State, step: ActorStep)
    requires CanAct(s, step) && Good(s)
    ensures SendersFinal(s.channels, DoAct(s, step).channels) && |DoAct(s, step).channels| == |s.channels|
  {
    if step == Return { ClearFinal(s); CoreClear(ViewOf(s)); EndOutgoingFinal(ClearPending(s)); }
  }

  /** No step touches a sender that has been used or dropped. */
  lemma SenderUsedOnce(s: State, step: Step)
    requires Enabled(s, step) && Good(s)
    ensures SendersFinal(s.channels, Apply(s, step).channels)
  {
    match step
    case Call(c) => CallFinal(s, c);
    case Out(o) => SendFinal(s, o);
    case In(i) => ArriveFinal(s, i);
    case Act(a) => ActFinal(s, a);
  }

  // ---------- The rest of the invariant ----------

  lemma CallControl(s: State, step: CallStep)
    requires CanCall(s, step) && Good(s)
    ensures CallerOk(DoCall(s, step))
  {
    CallFinal(s, step);
  }

  lemma SendControl(s: State, step: OutgoingStep)
    requires CanSend(s, step) && LoopsOk(s)
    ensures LoopsOk(DoSend(s, step))
  {
  }

  lemma ArriveControl(s: State, step: IncomingStep)
    requires CanArrive(s, step) && LoopsOk(s)
    ensures LoopsOk(DoArrive(s, step))
  {
    if step.Deliver? && Parse(step.value).Ok? && Parse(step.value).value != Nil { ParsedIsFixedPoint(step.value); }
  }

  lemma CallerKept(s: State, t: State)
    requires CallerOk(s) && t.caller == s.caller
    requires SendersFinal(s.channels, t.channels) && |t.channels| == |s.channels|
    ensures CallerOk(t)
  {
  }

  lemma StepGood(s: State, step: Step)
    requires Enabled(s, step) && Good(s) && ShutdownOk(s)
    requires |Apply(s, step).channels| < TWO64 - 1
    ensures Good(Apply(s, step))
  {
    var t := Apply(s, step);
    match step {
      case Call(c) => CallCore(s, c); CallControl(s, c); CallFrame(s, c);
      case Out(o) => SendCore(s, o); SendFinal(s, o); SendControl(s, o); SendFrame(s, o); CallerKept(s, t);
      case In(i) => ArriveCore(s, i); ArriveFinal(s, i); ArriveControl(s, i); ArriveFrame(s, i); CallerKept(s, t);
      case Act(a) => ActCore(s, a); ActFinal(s, a); ActFrame(s, a); CallerKept(s, t);
    }
  }

  lemma CallShutdown(s: State, step: CallStep)
    requires CanCall(s, step) && ShutdownOk(s)
    ensures ShutdownOk(DoCall(s, step)) && DoCall(s, step).kind == s.kind
  {
  }

  lemma SendShutdown(s: State, step: OutgoingStep)
    requires CanSend(s, step) && ShutdownOk(s)
    ensures var t := DoSend(s, step); ShutdownOk(t) && t.kind == s.kind && |t.channels| == |s.channels|
  {
  }

  lemma ArriveShutdown(s: State, step: IncomingStep)
    requires CanArrive(s, step) && ShutdownOk(s)
    ensures var t := DoArrive(s, step); ShutdownOk(t) && t.kind == s.kind && |t.channels| == |s.channels|
  {
  }

  lemma ActShutdown(s: State, step: ActorStep)
    requires CanAct(s, step) && ShutdownOk(s)
    ensures var t := DoAct(s, step); ShutdownOk(t) && t.kind == s.kind && |t.channels| == |s.channels|
  {
  }

  lemma ShutdownKept(s: State, step: Step)
    requires Enabled(s, step) && ShutdownOk(s)
    ensures ShutdownOk(Apply(s, step))
    ensures Apply(s, step).kind == s.kind && |s.channels| <= |Apply(s, step).channels|
  {
    hide DoCall, DoSend, DoArrive, DoAct, ShutdownOk;
    match step
    case Call(c) => CallShutdown(s, c); CallFrame(s, c);
    case Out(o) => SendShutdown(s, o);
    case In(i) => ArriveShutdown(s, i);
    case Act(a) => ActShutdown(s, a);
  }

  // ---------- Every run ----------

  lemma InitGood(kind: Kind)
    ensures Good(Init(kind))
  {
    assert Unsent(Init(kind)) == [] && Gone(Init(kind)) == [];
  }

  /** The invariant holds after every run that issued fewer than 2^64 - 1 requests. */
  lemma {:induction false} RunGood(kind: Kind, steps: seq<Step>)
    requires After(kind, steps).Some?
    ensures ShutdownOk(After(kind, steps).value) && After(kind, steps).value.kind == kind
    ensures |After(kind, steps).value.channels| < TWO64 - 1 ==> Good(After(kind, steps).value)
  {
    AfterStep(kind, steps);
    if steps != [] {
      var before, step := steps[..|steps| - 1], steps[|steps| - 1];
      RunGood(kind, before);
      var s := After(kind, before).value;
      ShutdownKept(s, step);
      if |Apply(s, step).channels| < TWO64 - 1 { StepGood(s, step); }
    } else {
      InitGood(kind);
    }
  }

  /** The same for the state one step earlier, with what links the two: the induction step of what follows. */
  lemma LastStep(kind: Kind, steps: seq<Step>) returns (before: seq<Step>, s: State, step: Step)
    requires steps != [] && After(kind, steps).Some? && |After(kind, steps).value.channels| < TWO64 - 1
    ensures before == steps[..|steps| - 1] && After(kind, before) == Some(s) && step == steps[|steps| - 1]
    ensures Enabled(s, step) && After(kind, steps) == Some(Apply(s, step))
    ensures |s.channels| < TWO64 - 1 && Good(s) && ShutdownOk(s)
  {
    AfterStep(kind, steps);
    before, step := steps[..|steps| - 1], steps[|steps| - 1];
    s := After(kind, before).value;
    RunGood(kind, before);
    ShutdownKept(s, step);
  }
}
