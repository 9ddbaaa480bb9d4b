/**
 * One client over one shipped transport, as a transition system. A step is what happens
 * between two awaits: of the call that holds the client's mutex, of the actor's outgoing loop,
 * of its incoming loop, or of the actor around them. Timeouts and dropped calls are steps of
 * their own, and the peer may deliver any value at any time.
 */
module ClientRun {
  import opened Wrappers
  import opened Json
  import opened Protocol
  import opened DecimalText
  import opened Transport
  import opened Client

  const QUEUE_CAPACITY := 32

  datatype Kind = Stdio | Sse

  /** `TransportMessage`: notifications carry no sender. */
  datatype Envelope = Envelope(message: Message, sender: Option<nat>)

  /** The call that holds the mutex: waiting for room in the queue, for its reply, or about to return. */
  datatype Caller =
    | Idle
    | Offering(envelope: Envelope)
    | Waiting(channel: nat)
    | Checking(call: Option<nat>, reply: Reply)

  /** Where `initialize`, which borrows the client exclusively, has got to. */
  datatype Phase = Ready | Initializing | Notifying(channel: nat, advertised: Capabilities)

  datatype Outgoing =
    | Receiving
    | Got(envelope: Envelope)
    | Inserting(envelope: Envelope)
    | Writing(message: Message)
    | Flushing
    | OutClearing
    | OutDone

  datatype Incoming = AwaitingEndpoint | Reading | Responding(message: Message) | InClearing | InDone

  datatype Actor = Running | ReadingStderr | Cleaning | Returned

  /** Ghost record of what the client did, in order. */
  datatype Event =
    | Issued(message: Message)
    | Replied(channel: nat, result: Result<Value, ClientError>)
    | Initialized(channel: nat, advertised: Capabilities)

  /**
   * `wire`, `log`, `inserted`, `answered`, `cleared` and `delivered` record history: messages whose
   * bytes may have left, the client's events, channels ever put in the pending map, those a reply
   * took out of it, those a `clear` took out, and the ids of delivered replies.
   */
  datatype State = State(
    kind: Kind,
    nextId: U64, capabilities: Option<Capabilities>, phase: Phase, caller: Caller, clientAlive: bool,
    queue: seq<Envelope>, outgoing: Outgoing, incoming: Incoming, actor: Actor,
    endpoint: bool, stderrError: bool,
    pending: map<string, nat>, channels: seq<Channel>,
    wire: seq<Message>, log: seq<Event>,
    inserted: set<nat>, answered: set<nat>, cleared: set<nat>, delivered: seq<U64>)

  function Init(kind: Kind): State {
    State(kind, 1, None, Ready, Idle, true, [], Receiving,
          if kind == Sse then AwaitingEndpoint else Reading, Running,
          false, false, map[], [], [], [], {}, {}, {}, [])
  }

  /**
   * Steps of the call that holds the mutex, and of whoever owns the client: `send_request`,
   * `send_notification`, `initialize` (client.rs:131-264) and `send_message` (transport/mod.rs:64-87).
   */
  datatype CallStep =
    | BeginInitialize(params: Value)
    | Invoke(op: Operation, params: Value)
    | BeginNotify
    | Offer
    | OfferRefused
    | Wake
    | Finish(decodes: bool)
    | Abandon
    | DropClient

  /** Steps of `handle_outgoing_messages` (stdio.rs:114-156, sse.rs:149-215). */
  datatype OutgoingStep =
    | Receive
    | ReceiveClosed
    | RefuseUnconnected
    | FailSerialize
    | Prepare
    | Insert
    | StartWrite
    | FinishWrite(ok: bool)
    | ClearOutgoing

  /**
   * Steps of `handle_incoming_messages` (stdio.rs:74-112, sse.rs:74-144). The SSE loop that looks for the
   * endpoint also ends on a failed event; the next loop then reads on without one.
   */
  datatype IncomingStep =
    | FindEndpoint
    | GiveUpEndpoint
    | Deliver(value: Value)
    | Respond
    | EndIncoming
    | ClearIncoming

  /** Steps of `StdioActor::run` around its loops (stdio.rs:40-71). */
  datatype ActorStep = Stop | ReadStderr(ok: bool) | Return

  datatype Step = Call(call: CallStep) | Out(out: OutgoingStep) | In(arrival: IncomingStep) | Act(act: ActorStep)

  predicate ReceiverAlive(s: State) {
    s.outgoing != OutDone
  }

  predicate LoopsRun(s: State) {
    s.actor == Running
  }

  function Key(c: nat): string {
    Decimal(c + 1)
  }

  function ReplyId(m: Message): Option<U64> {
    match m
    case Response(r) => r.id
    case Error(e) => e.id
    case _ => None
  }

  // Which capabilities an `initialize` result advertises.
  function AdvertisedBy(v: Value): Capabilities {
    var caps := if v.Obj? && "capabilities" in v.fields then v.fields["capabilities"] else Null;
    var has := name => caps.Obj? && name in caps.fields && caps.fields[name] != Null;
    Capabilities(has("prompts"), has("resources"), has("tools"))
  }

  predicate CanCall(s: State, step: CallStep) {
    match step
    case BeginInitialize(_) => s.clientAlive && s.caller.Idle? && s.phase == Ready
    case Invoke(op, _) =>
      s.clientAlive && s.caller.Idle? && s.phase == Ready && s.capabilities.Some? && Allows(s.capabilities.value, op)
    case BeginNotify => s.caller.Idle? && s.phase.Notifying?
    case Offer => s.caller.Offering? && ReceiverAlive(s) && |s.queue| < QUEUE_CAPACITY
    case OfferRefused => s.caller.Offering? && !ReceiverAlive(s)
    case Wake => s.caller.Waiting? && s.caller.channel < |s.channels| && !s.channels[s.caller.channel].sender.Held?
    case Finish(_) => s.caller.Checking?
    case Abandon => !s.caller.Idle? || s.phase != Ready
    case DropClient => s.clientAlive && s.caller.Idle? && s.phase == Ready
  }

  predicate CanSend(s: State, step: OutgoingStep) {
    LoopsRun(s) &&
    match step
    case Receive => s.outgoing == Receiving && s.queue != []
    case ReceiveClosed => s.outgoing == Receiving && s.queue == [] && !s.clientAlive
    case RefuseUnconnected => s.outgoing.Got? && s.kind == Sse && !s.endpoint
    case FailSerialize => s.outgoing.Got? && (s.kind == Sse ==> s.endpoint)
    case Prepare => s.outgoing.Got? && (s.kind == Sse ==> s.endpoint)
    case Insert => s.outgoing.Inserting?
    case StartWrite => s.outgoing.Writing?
    case FinishWrite(ok) => s.outgoing == Flushing && (s.kind == Sse ==> ok)
    case ClearOutgoing => s.outgoing == OutClearing
  }

  predicate CanArrive(s: State, step: IncomingStep) {
    LoopsRun(s) &&
    match step
    case FindEndpoint => s.incoming == AwaitingEndpoint
    case GiveUpEndpoint => s.incoming == AwaitingEndpoint
    case Deliver(_) => s.incoming == Reading
    case Respond => s.incoming.Responding?
    case EndIncoming => s.incoming == AwaitingEndpoint || s.incoming == Reading
    case ClearIncoming => s.incoming == InClearing
  }

  predicate CanAct(s: State, step: ActorStep) {
    match step
    case Stop => s.kind == Stdio && s.actor == Running
    case ReadStderr(_) => s.actor == ReadingStderr
    case Return => s.actor == Cleaning
  }

  predicate Enabled(s: State, step: Step) {
    match step
    case Call(c) => CanCall(s, c)
    case Out(o) => CanSend(s, o)
    case In(i) => CanArrive(s, i)
    case Act(a) => CanAct(s, a)
  }

  // ---------- What a step does ----------

  function Issue(s: State, methodName: string, params: Value): State {
    var request := MakeRequest(s.nextId, methodName, params);
    s.(nextId := NextId(s.nextId),
       channels := s.channels + [Channel(request, Held, true)],
       caller := Offering(Envelope(Request(request), Some(|s.channels|))),
       log := s.log + [Issued(Request(request))])
  }

  function SendersOf(envelopes: seq<Envelope>): set<nat> {
    set e | e in envelopes && e.sender.Some? :: e.sender.value
  }

  // Dropping a message drops the sender inside it.
  function DropEnvelopes(channels: seq<Channel>, envelopes: seq<Envelope>): seq<Channel> {
    DropAll(channels, SendersOf(envelopes))
  }

  function Fail(s: State, e: Envelope, error: TransportError): State
  {
    s.(channels := if e.sender.Some? then Send(s.channels, e.sender.value, Err(error)) else s.channels,
       outgoing := Receiving)
  }

  function ClearPending(s: State): State {
    s.(pending := map[], channels := DropAll(s.channels, s.pending.Values), cleared := s.cleared + s.pending.Values)
  }

  // The outgoing loop returns: its receiver goes, and with it every queued message.
  function EndOutgoing(s: State): State {
    s.(outgoing := OutDone, queue := [], channels := DropEnvelopes(s.channels, s.queue + LocalEnvelope(s.outgoing)))
  }

  function LocalEnvelope(o: Outgoing): seq<Envelope> {
    if o.Got? || o.Inserting? then [o.envelope] else []
  }

  function MuteListener(s: State): seq<Channel>
  {
    if s.caller.Waiting? && s.caller.channel < |s.channels| then
      s.channels[s.caller.channel := s.channels[s.caller.channel].(listening := false)]
    else s.channels
  }

  function Abandoned(s: State): State
  {
    s.(caller := Idle, phase := Ready,
       channels := if s.caller.Offering? then DropEnvelopes(s.channels, [s.caller.envelope]) else MuteListener(s))
  }

  function Woken(s: State): State
    requires s.caller.Waiting? && s.caller.channel < |s.channels| && !s.channels[s.caller.channel].sender.Held?
  {
    var sender := s.channels[s.caller.channel].sender;
    s.(caller := Checking(Some(s.caller.channel), if sender.Used? then sender.reply else Err(ChannelClosed)),
       channels := MuteListener(s))
  }

  // An error left by the child process overrides the reply; `send_request` then reads the rest.
  function FinalReply(s: State, reply: Reply): Reply {
    if s.kind == Stdio && s.stderrError then Err(StdioProcessError) else reply
  }

  function Finished(s: State, decodes: bool): State
    requires s.caller.Checking?
  {
    var reply := FinalReply(s, s.caller.reply);
    var s1 := s.(caller := Idle, stderrError := s.stderrError && s.kind != Stdio);
    if s.caller.call.Some? then
      var c := s.caller.call.value;
      var methodName := if c < |s.channels| then s.channels[c].request.methodName else "";
      var result := Outcome(LastId(s.nextId), methodName, reply);
      var phase := if s.phase == Initializing && result.Ok? && decodes
                   then Notifying(c, AdvertisedBy(result.value)) else Ready;
      s1.(log := s.log + [Replied(c, result)], phase := phase)
    else if s.phase.Notifying? && reply.Ok? then
      s1.(log := s.log + [Initialized(s.phase.channel, s.phase.advertised)],
          capabilities := Some(s.phase.advertised), phase := Ready)
    else s1.(phase := Ready)
  }

  function Inserted(s: State, e: Envelope): State
  {
    if e.message.Request? && e.message.request.id.Some? && e.sender.Some? then
      var key, c := Decimal(e.message.request.id.value), e.sender.value;
      s.(channels := if key in s.pending then DropAll(s.channels, {s.pending[key]}) else s.channels,
         pending := s.pending[key := c], inserted := s.inserted + {c}, outgoing := Writing(e.message))
    else s.(channels := DropEnvelopes(s.channels, [e]), outgoing := Writing(e.message))
  }

  function Responded(s: State, m: Message): State
  {
    var id := ReplyId(m);
    var s1 := s.(incoming := Reading);
    if id.Some? && Decimal(id.value) in s.pending then
      var key := Decimal(id.value);
      s1.(channels := Send(s.channels, s.pending[key], Ok(m)), pending := s.pending - {key},
          answered := s.answered + {s.pending[key]})
    else s1
  }

  // A response or error with an id goes on to the map; anything else is ignored.
  function Arrived(s: State, m: Message): State {
    var id := ReplyId(m);
    if id.None? then s else s.(incoming := Responding(m), delivered := s.delivered + [id.value])
  }

  function Delivered(s: State, v: Value): State {
    match Parse(v)
    case Err(_) => s
    case Ok(m) => Arrived(s, m)
  }

  function DoCall(s: State, step: CallStep): State
    requires CanCall(s, step)
  {
    match step
    case BeginInitialize(params) => Issue(s, "initialize", params).(phase := Initializing)
    case Invoke(op, params) => Issue(s, MethodName(op), params)
    case BeginNotify =>
      s.(caller := Offering(Envelope(INITIALIZED, None)), log := s.log + [Issued(INITIALIZED)])
    case Offer =>
      var e := s.caller.envelope;
      s.(queue := s.queue + [e],
         caller := if e.sender.Some? then Waiting(e.sender.value) else Checking(None, Ok(Nil)))
    case OfferRefused =>
      var e := s.caller.envelope;
      s.(channels := DropEnvelopes(s.channels, [e]), caller := Checking(e.sender, Err(ChannelClosed)))
    case Wake => Woken(s)
    case Finish(decodes) => Finished(s, decodes)
    case Abandon => Abandoned(s)
    case DropClient => s.(clientAlive := false)
  }

  function DoSend(s: State, step: OutgoingStep): State
    requires CanSend(s, step)
  {
    match step
    case Receive => s.(outgoing := Got(s.queue[0]), queue := s.queue[1..])
    case ReceiveClosed => if s.kind == Sse then s.(outgoing := OutClearing) else EndOutgoing(s)
    case RefuseUnconnected => Fail(s, s.outgoing.envelope, NotConnected)
    case FailSerialize => Fail(s, s.outgoing.envelope, Serialization)
    case Prepare =>
      var e := s.outgoing.envelope;
      s.(outgoing := if e.sender.Some? then Inserting(e) else Writing(e.message))
    case Insert => Inserted(s, s.outgoing.envelope)
    case StartWrite => s.(wire := s.wire + [s.outgoing.message], outgoing := Flushing)
    case FinishWrite(ok) => s.(outgoing := if ok then Receiving else OutClearing)
    case ClearOutgoing => EndOutgoing(ClearPending(s))
  }

  function DoArrive(s: State, step: IncomingStep): State
    requires CanArrive(s, step)
  {
    match step
    case FindEndpoint => s.(endpoint := true, incoming := Reading)
    case GiveUpEndpoint => s.(incoming := Reading)
    case Deliver(v) => Delivered(s, v)
    case Respond => Responded(s, s.incoming.message)
    case EndIncoming => s.(incoming := if s.kind == Sse then InClearing else InDone)
    case ClearIncoming => ClearPending(s).(incoming := InDone)
  }

  function DoAct(s: State, step: ActorStep): State
    requires CanAct(s, step)
  {
    match step
    case Stop => s.(actor := ReadingStderr)
    case ReadStderr(ok) => s.(actor := Cleaning, stderrError := s.stderrError || ok)
    case Return => EndOutgoing(ClearPending(s)).(actor := Returned)
  }

  function Apply(s: State, step: Step): State
    requires Enabled(s, step)
  {
    match step
    case Call(c) => DoCall(s, c)
    case Out(o) => DoSend(s, o)
    case In(i) => DoArrive(s, i)
    case Act(a) => DoAct(s, a)
  }

  // ---------- Runs ----------

  /** Step `i` leads from one of the states to the next. */
  predicate Leads(states: seq<State>, steps: seq<Step>, i: nat)
    requires i < |steps| && |states| == |steps| + 1
  {
    Enabled(states[i], steps[i]) && states[i + 1] == Apply(states[i], steps[i])
  }

  predicate IsRun(kind: Kind, steps: seq<Step>, states: seq<State>) {
    && |states| == |steps| + 1 && states[0] == Init(kind)
    && forall i {:trigger Leads(states, steps, i)} | 0 <= i < |steps| :: Leads(states, steps, i)
  }

  /** The state after a run, given as the list of its steps; None when some step was not enabled. */
  ghost function After(kind: Kind, steps: seq<Step>): Option<State> {
    if exists states :: IsRun(kind, steps, states) then
      var states :| IsRun(kind, steps, states);
      Some(states[|steps|])
    else None
  }

  lemma {:induction false} RunsAgree(kind: Kind, steps: seq<Step>, one: seq<State>, other: seq<State>, k: nat)
    requires IsRun(kind, steps, one) && IsRun(kind, steps, other) && k <= |steps|
    ensures one[k] == other[k]
  {
    if k > 0 {
      RunsAgree(kind, steps, one, other, k - 1);
      assert Leads(one, steps, k - 1) && Leads(other, steps, k - 1);
      hide Enabled, Apply;
    }
  }

  lemma AfterIs(kind: Kind, steps: seq<Step>, states: seq<State>)
    requires IsRun(kind, steps, states)
    ensures After(kind, steps) == Some(states[|steps|])
  {
    var some :| IsRun(kind, steps, some) && After(kind, steps) == Some(some[|steps|]);
    RunsAgree(kind, steps, states, some, |steps|);
  }

  /** `After`, step by step: the start, and each run from the run one step shorter. */
  lemma AfterStep(kind: Kind, steps: seq<Step>)
    ensures steps == [] ==> After(kind, steps) == Some(Init(kind))
    ensures steps != [] ==>
              var s, step := After(kind, steps[..|steps| - 1]), steps[|steps| - 1];
              After(kind, steps) == if s.Some? && Enabled(s.value, step) then Some(Apply(s.value, step)) else None
  {
    hide Enabled, Apply;
    if steps == [] {
      assert IsRun(kind, steps, [Init(kind)]);
      AfterIs(kind, steps, [Init(kind)]);
    } else {
      var before, step := steps[..|steps| - 1], steps[|steps| - 1];
      if After(kind, steps).Some? {
        var states :| IsRun(kind, steps, states);
        ShorterRun(kind, steps, states);
      } else if After(kind, before).Some? && Enabled(After(kind, before).value, step) {
        var states :| IsRun(kind, before, states);
        LongerRun(kind, before, states, step);
        assert steps == before + [step];
      }
    }
  }

  lemma ShorterRun(kind: Kind, steps: seq<Step>, states: seq<State>)
    requires steps != [] && IsRun(kind, steps, states)
    ensures var n := |steps| - 1;
            && After(kind, steps[..n]) == Some(states[n]) && Leads(states, steps, n)
            && After(kind, steps) == Some(states[n + 1])
  {
    hide Enabled, Apply;
    var n := |steps| - 1;
    var before, sofar := steps[..n], states[..n + 1];
    forall i | 0 <= i < n ensures Leads(sofar, before, i) { assert Leads(states, steps, i); }
    AfterIs(kind, before, sofar);
    AfterIs(kind, steps, states);
    assert Leads(states, steps, n);
  }

  lemma LongerRun(kind: Kind, steps: seq<Step>, states: seq<State>, step: Step)
    requires IsRun(kind, steps, states) && After(kind, steps).Some? && Enabled(After(kind, steps).value, step)
    ensures After(kind, steps + [step]) == Some(Apply(After(kind, steps).value, step))
  {
    AfterIs(kind, steps, states);
    hide Enabled, Apply;
    var all, more := steps + [step], states + [Apply(After(kind, steps).value, step)];
    forall i | 0 <= i < |all| ensures Leads(more, all, i) {
      if i < |steps| { assert Leads(states, steps, i); }
    }
    AfterIs(kind, all, more);
  }

  /** The run with one more step, enabled at its end. */
  lemma NextState(kind: Kind, steps: seq<Step>, step: Step)
    requires After(kind, steps).Some? && Enabled(After(kind, steps).value, step)
    ensures After(kind, steps + [step]) == Some(Apply(After(kind, steps).value, step))
  {
    assert (steps + [step])[..|steps|] == steps;
    AfterStep(kind, steps + [step]);
  }
}
