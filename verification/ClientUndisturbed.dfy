/**
 * Runs in which nothing disturbs the client: a call, from its first step until its bytes are out and
 * from its reply until it returns, and the notification of a handshake.
 */
module ClientUndisturbed {
  import opened Wrappers
  import opened Json
  import opened Protocol
  import opened DecimalText
  import opened Transport
  import opened Client
  import opened ClientRun
  import opened ClientInvariant
  import opened ClientSafety

  /** The transport has nothing to do: nothing queued, both loops waiting. */
  predicate TransportIdle(s: State) {
    && s.clientAlive && s.queue == [] && !s.stderrError
    && s.outgoing == Receiving && s.incoming == Reading && s.actor == Running && (s.kind == Sse ==> s.endpoint)
  }

  /** And no call or handshake is in progress. */
  predicate Quiescent(s: State) {
    s.caller.Idle? && s.phase == Ready && TransportIdle(s)
  }

  // The steps of a call that nothing disturbs, up to the moment its bytes are out.
  function SendSteps(issue: CallStep): seq<Step> {
    [Call(issue), Call(Offer), Out(Receive), Out(Prepare), Out(Insert), Out(StartWrite), Out(FinishWrite(true))]
  }

  function ReceiveSteps(v: Value): seq<Step> {
    [In(Deliver(v)), In(Respond), Call(Wake), Call(Finish(true))]
  }

  lemma OfferStep(kind: Kind, steps: seq<Step>, s: State)
    requires After(kind, steps) == Some(s) && s.caller.Offering? && ReceiverAlive(s) && |s.queue| < QUEUE_CAPACITY
    requires s.caller.envelope.sender.Some?
    ensures After(kind, steps + [Call(Offer)])
         == Some(s.(queue := s.queue + [s.caller.envelope], caller := Waiting(s.caller.envelope.sender.value)))
  {
    NextState(kind, steps, Call(Offer));
  }

  lemma ReceiveStep(kind: Kind, steps: seq<Step>, s: State)
    requires After(kind, steps) == Some(s) && s.actor == Running && s.outgoing == Receiving && s.queue != []
    ensures After(kind, steps + [Out(Receive)]) == Some(s.(outgoing := Got(s.queue[0]), queue := s.queue[1..]))
  {
    NextState(kind, steps, Out(Receive));
  }

  lemma PrepareStep(kind: Kind, steps: seq<Step>, s: State)
    requires After(kind, steps) == Some(s) && s.actor == Running && s.outgoing.Got? && (s.kind == Sse ==> s.endpoint)
    requires s.outgoing.envelope.sender.Some?
    ensures After(kind, steps + [Out(Prepare)]) == Some(s.(outgoing := Inserting(s.outgoing.envelope)))
  {
    NextState(kind, steps, Out(Prepare));
  }

  lemma InsertStep(kind: Kind, steps: seq<Step>, s: State, id: U64, c: nat)
    requires After(kind, steps) == Some(s) && s.actor == Running && s.outgoing.Inserting?
    requires s.outgoing.envelope.sender == Some(c) && s.outgoing.envelope.message.Request?
    requires s.outgoing.envelope.message.request.id == Some(id) && Decimal(id) !in s.pending
    ensures After(kind, steps + [Out(Insert)])
         == Some(s.(pending := s.pending[Decimal(id) := c], inserted := s.inserted + {c},
                    outgoing := Writing(s.outgoing.envelope.message)))
  {
    NextState(kind, steps, Out(Insert));
  }

  lemma WriteSteps(kind: Kind, steps: seq<Step>, s: State)
    requires After(kind, steps) == Some(s) && s.actor == Running && s.outgoing.Writing?
    ensures After(kind, steps + [Out(StartWrite)] + [Out(FinishWrite(true))])
         == Some(s.(wire := s.wire + [s.outgoing.message], outgoing := Receiving))
  {
    NextState(kind, steps, Out(StartWrite));
    NextState(kind, steps + [Out(StartWrite)], Out(FinishWrite(true)));
  }

  lemma DeliverStep(kind: Kind, steps: seq<Step>, s: State, v: Value)
    requires After(kind, steps) == Some(s) && s.actor == Running && s.incoming == Reading
    requires Parse(v).Ok? && ReplyId(Parse(v).value).Some?
    ensures After(kind, steps + [In(Deliver(v))])
         == Some(s.(incoming := Responding(Parse(v).value), delivered := s.delivered + [ReplyId(Parse(v).value).value]))
  {
    NextState(kind, steps, In(Deliver(v)));
  }

  lemma RespondStep(kind: Kind, steps: seq<Step>, s: State, id: U64, c: nat, m: Message)
    requires After(kind, steps) == Some(s) && s.actor == Running && s.incoming == Responding(m)
    requires ReplyId(m) == Some(id) && Decimal(id) in s.pending && s.pending[Decimal(id)] == c < |s.channels|
    ensures After(kind, steps + [In(Respond)])
         == Some(s.(incoming := Reading, channels := Send(s.channels, c, Ok(m)), pending := s.pending - {Decimal(id)},
                    answered := s.answered + {c}))
  {
    NextState(kind, steps, In(Respond));
  }

  lemma WakeStep(kind: Kind, steps: seq<Step>, s: State, c: nat, m: Message)
    requires After(kind, steps) == Some(s) && s.caller == Waiting(c)
    requires c < |s.channels| && s.channels[c].sender == Used(Ok(m))
    ensures After(kind, steps + [Call(Wake)])
         == Some(s.(caller := Checking(Some(c), Ok(m)),
                    channels := s.channels[c := s.channels[c].(listening := false)]))
  {
    NextState(kind, steps, Call(Wake));
  }

  lemma FinishStep(kind: Kind, steps: seq<Step>, s: State, c: nat, m: Message)
    requires After(kind, steps) == Some(s) && s.caller == Checking(Some(c), Ok(m)) && !s.stderrError
    requires s.nextId == c + 2
    ensures After(kind, steps + [Call(Finish(true))]).Some?
    ensures Concluded(s, After(kind, steps + [Call(Finish(true))]).value, c, Interpret(c + 1, m))
  {
    hide After, Finished, Concluded;
    NextState(kind, steps, Call(Finish(true)));
    FinishedIs(s, c, m);
  }

  /** The phase after a result: a good answer to `initialize` is followed by its notification. */
  function NextPhase(s: State, c: nat, result: Result<Value, ClientError>): Phase {
    if s.phase == Initializing && result.Ok? then Notifying(c, AdvertisedBy(result.value)) else Ready
  }

  // The call on channel `c` is over, with this result, and nothing else changed.
  predicate Concluded(s: State, t: State, c: nat, result: Result<Value, ClientError>) {
    && t.log == s.log + [Replied(c, result)] && t.wire == s.wire && t.capabilities == s.capabilities
    && t.caller == Idle && t.phase == NextPhase(s, c, result) && (TransportIdle(s) ==> TransportIdle(t))
    && |t.channels| == |s.channels|
  }

  lemma FinishedIs(s: State, c: nat, m: Message)
    requires s.caller == Checking(Some(c), Ok(m)) && !s.stderrError && s.nextId == c + 2
    ensures Concluded(s, Finished(s, true), c, Interpret(c + 1, m))
  {
    hide Interpret, AdvertisedBy;
  }

  function IssuedPhase(issue: CallStep): Phase {
    if issue.Invoke? then Ready else Initializing
  }

  function IssuedMethod(issue: CallStep): string {
    if issue.Invoke? then MethodName(issue.op) else "initialize"
  }

  lemma IssueStep(kind: Kind, steps: seq<Step>, s: State, issue: CallStep)
    requires After(kind, steps) == Some(s) && Quiescent(s)
    requires (issue.BeginInitialize? || issue.Invoke?) && CanCall(s, issue)
    ensures After(kind, steps + [Call(issue)])
         == Some(Issue(s, IssuedMethod(issue), issue.params).(phase := IssuedPhase(issue)))
  {
    NextState(kind, steps, Call(issue));
  }

  lemma FreshKey(s: State)
    requires Good(s)
    ensures Key(|s.channels|) !in s.pending
  {
    if Key(|s.channels|) in s.pending {
      assert GoodEntry(ViewOf(s), Key(|s.channels|));
      KeyIsOwn(s.pending[Key(|s.channels|)]);
    }
  }

  // What a call that was sent and is waiting looks like.
  predicate WaitingFor(s: State, request: RpcRequest) {
    && request.id.Some? && request.id.value > 0 && s.caller == Waiting(request.id.value - 1)
    && |s.channels| == request.id.value < TWO64 - 1 && s.nextId == request.id.value + 1
    && TransportIdle(s)
    && Decimal(request.id.value) in s.pending && s.pending[Decimal(request.id.value)] == request.id.value - 1
  }

  lemma SendRun(kind: Kind, steps: seq<Step>, s: State, issue: CallStep) returns (all: seq<Step>, t: State)
    requires After(kind, steps) == Some(s) && Good(s) && Quiescent(s) && |s.channels| + 1 < TWO64 - 1
    requires (issue.BeginInitialize? || issue.Invoke?) && CanCall(s, issue)
    ensures all == steps + SendSteps(issue) && After(kind, all) == Some(t)
    ensures var request := MakeRequest(|s.channels| + 1, IssuedMethod(issue), issue.params);
            && WaitingFor(t, request)
            && t.wire == s.wire + [Request(request)] && t.log == s.log + [Issued(Request(request))]
    ensures t.phase == IssuedPhase(issue) && t.capabilities == s.capabilities
  {
    hide After, CanCall, IssuedMethod, IssuedPhase, Core, Decimal;
    FreshKey(s);
    var c, request := |s.channels|, MakeRequest(|s.channels| + 1, IssuedMethod(issue), issue.params);
    assert s.nextId == c + 1 by { CoreNumbers(s); }
    IssueStep(kind, steps, s, issue);
    all := steps + [Call(issue)];
    t := Issue(s, IssuedMethod(issue), issue.params).(phase := IssuedPhase(issue));
    OfferStep(kind, all, t);
    all, t := all + [Call(Offer)], t.(queue := t.queue + [t.caller.envelope], caller := Waiting(c));
    ReceiveStep(kind, all, t);
    all, t := all + [Out(Receive)], t.(outgoing := Got(t.queue[0]), queue := t.queue[1..]);
    PrepareStep(kind, all, t);
    all, t := all + [Out(Prepare)], t.(outgoing := Inserting(t.outgoing.envelope));
    InsertStep(kind, all, t, c + 1, c);
    all, t := all + [Out(Insert)], t.(pending := t.pending[Decimal(c + 1) := c], inserted := t.inserted + {c},
                                      outgoing := Writing(Request(request)));
    WriteSteps(kind, all, t);
    all, t := all + [Out(StartWrite)] + [Out(FinishWrite(true))],
              t.(wire := t.wire + [Request(request)], outgoing := Receiving);
    assert all == steps + SendSteps(issue);
  }

  lemma CoreNumbers(s: State)
    requires Good(s)
    ensures s.nextId == |s.channels| + 1
  {
  }

  lemma ReceiveRun(kind: Kind, steps: seq<Step>, s: State, request: RpcRequest, v: Value) returns (all: seq<Step>)
    requires After(kind, steps) == Some(s) && WaitingFor(s, request)
    requires Parse(v).Ok? && ReplyId(Parse(v).value) == request.id
    ensures all == steps + ReceiveSteps(v) && After(kind, all).Some?
    ensures Concluded(s, After(kind, all).value, request.id.value - 1, Interpret(request.id.value, Parse(v).value))
  {
    hide After, Parse, Decimal, Interpret, AdvertisedBy;
    var id, c, m := request.id.value, request.id.value - 1, Parse(v).value;
    DeliverStep(kind, steps, s, v);
    all := steps + [In(Deliver(v))];
    var t := s.(incoming := Responding(m), delivered := s.delivered + [id]);
    RespondStep(kind, all, t, id, c, m);
    all, t := all + [In(Respond)],
              t.(incoming := Reading, channels := Send(t.channels, c, Ok(m)), pending := t.pending - {Decimal(id)},
                 answered := t.answered + {c});
    WakeStep(kind, all, t, c, m);
    all, t := all + [Call(Wake)],
              t.(caller := Checking(Some(c), Ok(m)), channels := t.channels[c := t.channels[c].(listening := false)]);
    FinishStep(kind, all, t, c, m);
    all := all + [Call(Finish(true))];
    assert all == steps + ReceiveSteps(v);
  }

  // ---------- The handshake ----------

  // The steps of the notification that nothing disturbs.
  function NotifySteps(): seq<Step> {
    [Call(BeginNotify), Call(Offer), Out(Receive), Out(Prepare), Out(StartWrite), Out(FinishWrite(true)),
     Call(Finish(true))]
  }

  lemma BeginNotifyStep(kind: Kind, steps: seq<Step>, s: State)
    requires After(kind, steps) == Some(s) && s.caller == Idle && s.phase.Notifying?
    ensures After(kind, steps + [Call(BeginNotify)])
         == Some(s.(caller := Offering(Envelope(INITIALIZED, None)), log := s.log + [Issued(INITIALIZED)]))
  {
    NextState(kind, steps, Call(BeginNotify));
  }

  lemma OfferNotification(kind: Kind, steps: seq<Step>, s: State)
    requires After(kind, steps) == Some(s) && s.caller == Offering(Envelope(INITIALIZED, None))
    requires ReceiverAlive(s) && |s.queue| < QUEUE_CAPACITY
    ensures After(kind, steps + [Call(Offer)])
         == Some(s.(queue := s.queue + [Envelope(INITIALIZED, None)], caller := Checking(None, Ok(Nil))))
  {
    NextState(kind, steps, Call(Offer));
  }

  lemma PrepareNotification(kind: Kind, steps: seq<Step>, s: State)
    requires After(kind, steps) == Some(s) && s.actor == Running && (s.kind == Sse ==> s.endpoint)
    requires s.outgoing == Got(Envelope(INITIALIZED, None))
    ensures After(kind, steps + [Out(Prepare)]) == Some(s.(outgoing := Writing(INITIALIZED)))
  {
    NextState(kind, steps, Out(Prepare));
  }

  lemma FinishNotification(kind: Kind, steps: seq<Step>, s: State)
    requires After(kind, steps) == Some(s) && s.caller == Checking(None, Ok(Nil)) && !s.stderrError
    requires s.phase.Notifying?
    ensures After(kind, steps + [Call(Finish(true))])
         == Some(s.(caller := Idle, phase := Ready, capabilities := Some(s.phase.advertised),
                    log := s.log + [Initialized(s.phase.channel, s.phase.advertised)]))
  {
    NextState(kind, steps, Call(Finish(true)));
  }

  lemma NotifyRun(kind: Kind, steps: seq<Step>, s: State) returns (all: seq<Step>, t: State)
    requires After(kind, steps) == Some(s) && s.caller == Idle && s.phase.Notifying? && TransportIdle(s)
    ensures all == steps + NotifySteps() && After(kind, all) == Some(t) && Quiescent(t)
    ensures t.capabilities == Some(s.phase.advertised) && t.wire == s.wire + [INITIALIZED]
    ensures t.log == s.log + [Issued(INITIALIZED), Initialized(s.phase.channel, s.phase.advertised)]
    ensures |t.channels| == |s.channels|
  {
    hide After;
    var e := Envelope(INITIALIZED, None);
    BeginNotifyStep(kind, steps, s);
    all, t := steps + [Call(BeginNotify)], s.(caller := Offering(e), log := s.log + [Issued(INITIALIZED)]);
    OfferNotification(kind, all, t);
    all, t := all + [Call(Offer)], t.(queue := t.queue + [e], caller := Checking(None, Ok(Nil)));
    ReceiveStep(kind, all, t);
    all, t := all + [Out(Receive)], t.(outgoing := Got(t.queue[0]), queue := t.queue[1..]);
    PrepareNotification(kind, all, t);
    all, t := all + [Out(Prepare)], t.(outgoing := Writing(INITIALIZED));
    WriteSteps(kind, all, t);
    all, t := all + [Out(StartWrite)] + [Out(FinishWrite(true))],
              t.(wire := t.wire + [INITIALIZED], outgoing := Receiving);
    FinishNotification(kind, all, t);
    all, t := all + [Call(Finish(true))],
              t.(caller := Idle, phase := Ready, capabilities := Some(s.phase.advertised),
                 log := t.log + [Initialized(s.phase.channel, s.phase.advertised)]);
    assert all == steps + NotifySteps();
  }

  /** A handshake whose `initialize` fails, or whose result does not decode, ends there: nothing was learnt. */
  lemma FailedHandshakeEnds(kind: Kind, steps: seq<Step>, s: State, c: nat, decodes: bool)
    requires After(kind, steps) == Some(s) && s.phase == Initializing && s.caller.Checking? && s.caller.call == Some(c)
    requires s.caller.reply.Err? || !decodes
    ensures After(kind, steps + [Call(Finish(decodes))]).Some?
    ensures var t := After(kind, steps + [Call(Finish(decodes))]).value;
            t.phase == Ready && t.caller == Idle && t.capabilities == s.capabilities
  {
    NextState(kind, steps, Call(Finish(decodes)));
    hide AdvertisedBy, Interpret;
  }
}
