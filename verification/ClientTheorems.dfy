/** What every run of one client over a shipped transport guarantees. */
module ClientTheorems {
  import opened Wrappers
  import opened Json
  import opened Protocol
  import opened DecimalText
  import opened Transport
  import opened Client
  import opened ClientRun
  import opened ClientInvariant
  import opened ClientSafety

  // ---------- Correlation ----------

  predicate GotReply(channel: Channel, id: U64, result: Result<Value, ClientError>) {
    && channel.sender.Used? && channel.sender.reply.Ok?
    && var m := channel.sender.reply.value;
       ReplyId(m) == Some(id) && Survives(m) && result == Interpret(id, m)
  }

  /**
   * The call that created channel `c` ended with a transport error, or with the reading of a reply
   * that carries its own id and was sent into its own channel.
   */
  predicate GoodResult(s: State, c: nat, result: Result<Value, ClientError>) {
    && c + 1 < TWO64 && c < |s.channels|
    && ((result.Err? && result.error.McpServerError?) || GotReply(s.channels[c], c + 1, result))
  }

  predicate LogOk(s: State) {
    forall i | 0 <= i < |s.log| && s.log[i].Replied? :: GoodResult(s, s.log[i].channel, s.log[i].result)
  }

  lemma ResultKept(s: State, t: State, c: nat, result: Result<Value, ClientError>)
    requires GoodResult(s, c, result) && SendersFinal(s.channels, t.channels)
    ensures GoodResult(t, c, result)
  {
  }

  lemma FinishLog(s: State, decodes: bool)
    requires s.caller.Checking? && Good(s) && |s.channels| < TWO64 - 1
    ensures var t := Finished(s, decodes);
            && s.log <= t.log && |t.log| <= |s.log| + 1
            && (|t.log| > |s.log| && t.log[|s.log|].Replied? ==>
                  GoodResult(s, t.log[|s.log|].channel, t.log[|s.log|].result))
  {
    if s.caller.call.Some? {
      assert LastId(s.nextId) == |s.channels|;
      assert GoodSender(ViewOf(s), s.caller.call.value);
    }
    hide Core, AdvertisedBy, LastId, Interpret, Survives;
  }

  lemma CallLog(s: State, step: CallStep)
    requires CanCall(s, step) && !step.Finish?
    ensures var t := DoCall(s, step);
            s.log <= t.log && |t.log| <= |s.log| + 1 && (|t.log| > |s.log| ==> t.log[|s.log|].Issued?)
  {
  }

  lemma LogSame(s: State, t: State)
    requires LogOk(s) && SendersFinal(s.channels, t.channels) && s.log <= t.log && |t.log| <= |s.log| + 1
    requires |t.log| > |s.log| && t.log[|s.log|].Replied? ==>
               GoodResult(s, t.log[|s.log|].channel, t.log[|s.log|].result)
    ensures LogOk(t)
  {
    forall i | 0 <= i < |t.log| && t.log[i].Replied? ensures GoodResult(t, t.log[i].channel, t.log[i].result) {
      assert i < |s.log| ==> GoodResult(s, s.log[i].channel, s.log[i].result);
      ResultKept(s, t, t.log[i].channel, t.log[i].result);
    }
  }

  lemma LogKept(s: State, step: Step)
    requires Enabled(s, step) && Good(s) && LogOk(s) && |s.channels| < TWO64 - 1
    ensures LogOk(Apply(s, step))
  {
    SenderUsedOnce(s, step);
    match step {
      case Call(c) => if c.Finish? { FinishLog(s, c.decodes); } else { CallLog(s, c); }
      case Out(o) => SendFrame(s, o);
      case In(i) => ArriveFrame(s, i);
      case Act(a) => ActFrame(s, a);
    }
    LogSame(s, Apply(s, step));
  }

  lemma {:induction false} RunLogOk(kind: Kind, steps: seq<Step>)
    requires After(kind, steps).Some? && |After(kind, steps).value.channels| < TWO64 - 1
    ensures LogOk(After(kind, steps).value)
  {
    AfterStep(kind, steps);
    if steps != [] {
      var before, s, step := LastStep(kind, steps);
      RunLogOk(kind, before);
      LogKept(s, step);
    }
  }

  /**
   * With timeouts, dropped calls and stale, duplicate, reordered or unsolicited replies, a call
   * receives only the reply to its own id: what it returns is a transport error, an RPC failure or
   * a result, and none of the "unexpected response" branches is ever taken.
   */
  lemma RepliesReachTheirCall(kind: Kind, steps: seq<Step>, i: nat)
    requires After(kind, steps).Some? && |After(kind, steps).value.channels| < TWO64 - 1
    requires i < |After(kind, steps).value.log| && After(kind, steps).value.log[i].Replied?
    ensures var s := After(kind, steps).value;
            var Replied(c, result) := s.log[i];
            && GoodResult(s, c, result)
            && s.channels[c].request.id == Some(c + 1)
            && (result.Err? ==> result.error.McpServerError? || result.error.RpcFailure?)
  {
    RunGood(kind, steps);
    RunLogOk(kind, steps);
  }

  // ---------- One place for each sender ----------

  datatype Place = AtCaller | AtQueue(position: nat) | AtActor | AtMap(key: string)

  /** Whether the sender of channel `c` is at place `p`. */
  predicate HeldAt(s: State, c: nat, p: Place) {
    match p
    case AtCaller => s.caller.Offering? && s.caller.envelope.sender == Some(c)
    case AtQueue(i) => i < |s.queue| && s.queue[i].sender == Some(c)
    case AtActor => (s.outgoing.Got? || s.outgoing.Inserting?) && s.outgoing.envelope.sender == Some(c)
    case AtMap(k) => k in s.pending && s.pending[k] == c
  }

  // The position of a place other than the map among the unsent messages.
  function Position(s: State, p: Place): int {
    var local := |LocalEnvelope(s.outgoing)|;
    match p
    case AtCaller => local + |s.queue|
    case AtQueue(i) => local + i
    case AtActor => 0
    case AtMap(_) => -1
  }

  lemma PositionHolds(s: State, c: nat, p: Place)
    requires HeldAt(s, c, p) && !p.AtMap?
    ensures 0 <= Position(s, p) < |Unsent(s)| && Unsent(s)[Position(s, p)].sender == Some(c)
  {
  }

  lemma PlaceAt(s: State, i: nat) returns (p: Place)
    requires i < |Unsent(s)| && Unsent(s)[i].sender.Some?
    ensures HeldAt(s, Unsent(s)[i].sender.value, p)
  {
    var local := |LocalEnvelope(s.outgoing)|;
    p := if i < local then AtActor else if i < local + |s.queue| then AtQueue(i - local) else AtCaller;
  }

  // What is at a place is unused, and was inserted exactly when it is in the map.
  lemma PlaceIsGood(s: State, c: nat, p: Place)
    requires Core(ViewOf(s)) && HeldAt(s, c, p)
    ensures c < |s.channels| && s.channels[c].sender.Held?
    ensures p.AtMap? ==> p.key == Key(c) && c in s.inserted
    ensures !p.AtMap? ==>
              && 0 <= Position(s, p) < |Unsent(s)| && Unsent(s)[Position(s, p)].sender == Some(c)
              && c !in s.inserted
  {
    var v := ViewOf(s);
    if p.AtMap? {
      assert GoodEntry(v, p.key);
    } else {
      PositionHolds(s, c, p);
      assert GoodEnvelope(v, v.unsent[Position(s, p)]);
    }
  }

  lemma OnePlace(s: State, c: nat, p: Place, q: Place)
    requires Core(ViewOf(s)) && HeldAt(s, c, p) && HeldAt(s, c, q)
    ensures p == q && c < |s.channels| && s.channels[c].sender.Held?
  {
    var v := ViewOf(s);
    PlaceIsGood(s, c, p);
    PlaceIsGood(s, c, q);
    if !p.AtMap? && !q.AtMap? {
      assert forall i, j | 0 <= i < j < |v.unsent| :: Before(v.unsent[i], v.unsent[j]);
    }
  }

  /**
   * In every state of every run, a sender that has been neither used nor dropped is in exactly one
   * place: the caller's unsent message, one queue slot, the actor's hands, or the map.
   */
  lemma SenderHasOnePlace(kind: Kind, steps: seq<Step>, c: nat)
    requires After(kind, steps).Some? && |After(kind, steps).value.channels| < TWO64 - 1
    ensures var s := After(kind, steps).value;
            && (c < |s.channels| && s.channels[c].sender.Held? <==> exists p :: HeldAt(s, c, p))
            && (forall p, q | HeldAt(s, c, p) && HeldAt(s, c, q) :: p == q)
  {
    RunGood(kind, steps);
    var s := After(kind, steps).value;
    var v := ViewOf(s);
    if c < |s.channels| && s.channels[c].sender.Held? {
      assert GoodSender(v, c);
      if Key(c) in s.pending {
        ClearPendingOk(v);
        var k :| k in s.pending && s.pending[k] == c;
        assert HeldAt(s, c, AtMap(k));
      } else {
        var i :| 0 <= i < |v.unsent| && v.unsent[i].sender == Some(c);
        var p := PlaceAt(s, i);
      }
    }
    forall p, q | HeldAt(s, c, p) && HeldAt(s, c, q)
      ensures p == q && c < |s.channels| && s.channels[c].sender.Held?
    {
      OnePlace(s, c, p, q);
    }
    forall p | HeldAt(s, c, p) ensures c < |s.channels| && s.channels[c].sender.Held? { OnePlace(s, c, p, p); }
  }

  // ---------- Shutdown ----------

  predicate HasShutDown(s: State) {
    if s.kind == Stdio then s.actor == Returned else s.outgoing == OutDone && s.incoming == InDone
  }

  /** After shutdown the map is empty and no call waits: each can take its next step at once. */
  lemma NobodyWaitsAfterShutdown(kind: Kind, steps: seq<Step>)
    requires After(kind, steps).Some? && |After(kind, steps).value.channels| < TWO64 - 1
    requires HasShutDown(After(kind, steps).value)
    ensures var s := After(kind, steps).value;
            && s.pending == map[] && s.queue == []
            && (forall c | 0 <= c < |s.channels| && s.channels[c].sender.Held? ::
                  s.caller.Offering? && s.caller.envelope.sender == Some(c))
            && (s.caller.Offering? ==> CanCall(s, OfferRefused))
            && (s.caller.Waiting? ==> CanCall(s, Wake))
  {
    RunGood(kind, steps);
    var s := After(kind, steps).value;
    forall c | 0 <= c < |s.channels| && s.channels[c].sender.Held?
      ensures s.caller.Offering? && s.caller.envelope.sender == Some(c)
    {
      assert GoodSender(ViewOf(s), c);
    }
  }

  // ---------- No lost reply ----------

  /** The map holds exactly the requests that were inserted, not answered and not cleared. */
  lemma PendingIsExact(kind: Kind, steps: seq<Step>, c: nat)
    requires After(kind, steps).Some? && |After(kind, steps).value.channels| < TWO64 - 1
    requires c < |After(kind, steps).value.channels|
    ensures var s := After(kind, steps).value;
            && (Key(c) in s.pending <==> c in s.inserted && c !in s.answered && c !in s.cleared)
            && (Key(c) in s.pending ==> s.pending[Key(c)] == c)
            && (Request(s.channels[c].request) in s.wire ==> c in s.inserted)
  {
    RunGood(kind, steps);
    var s := After(kind, steps).value;
    if Key(c) in s.pending {
      assert GoodEntry(ViewOf(s), Key(c));
      DecimalInjective(s.pending[Key(c)] + 1, c + 1);
    }
    if Request(s.channels[c].request) in s.wire {
      var i :| 0 <= i < |s.wire| && s.wire[i] == Request(s.channels[c].request);
      assert GoodGone(ViewOf(s), Gone(s)[i]);
    }
  }

  predicate OnWire(s: State, id: U64) {
    exists m | m in s.wire :: m.Request? && m.request.id == Some(id)
  }

  /** A peer that answers only requests whose bytes may have reached it, and each at most once. */
  ghost predicate AnswersOnce(kind: Kind, steps: seq<Step>) {
    steps == [] ||
    (var before, step := steps[..|steps| - 1], steps[|steps| - 1];
     var s := After(kind, before);
     && AnswersOnce(kind, before)
     && (s.Some? && step.In? && step.arrival.Deliver? ==> FairDelivery(s.value, step.arrival.value)))
  }

  predicate FairDelivery(s: State, v: Value) {
    Parse(v).Ok? && ReplyId(Parse(v).value).Some? ==>
      var id := ReplyId(Parse(v).value).value;
      OnWire(s, id) && id !in s.delivered
  }

  // The deliveries that have been dealt with: all but the one in hand.
  function Handled(s: State): seq<U64> {
    if s.incoming.Responding? && s.delivered != [] then s.delivered[..|s.delivered| - 1] else s.delivered
  }

  predicate DeliveriesOk(s: State) {
    && (s.incoming.Responding? ==>
          s.delivered != [] && ReplyId(s.incoming.message) == Some(s.delivered[|s.delivered| - 1]))
    && (forall c | c in s.answered :: c + 1 in Handled(s))
    && (forall i, j | 0 <= i < j < |s.delivered| :: s.delivered[i] != s.delivered[j])
    && (forall id | id in s.delivered :: id > 0 && id - 1 in s.inserted)
  }

  lemma ArrivedKept(s: State, m: Message)
    requires s.incoming == Reading && Good(s) && DeliveriesOk(s)
    requires ReplyId(m).Some? ==> OnWire(s, ReplyId(m).value) && ReplyId(m).value !in s.delivered
    ensures DeliveriesOk(Arrived(s, m))
  {
    if ReplyId(m).Some? { OnWireInserted(s, ReplyId(m).value); }
    hide Good, OnWire;
  }

  lemma OnWireInserted(s: State, id: U64)
    requires Good(s) && OnWire(s, id)
    ensures id > 0 && id - 1 in s.inserted
  {
    var sent :| sent in s.wire && sent.Request? && sent.request.id == Some(id);
    var i :| 0 <= i < |s.wire| && s.wire[i] == sent;
    assert GoodGone(ViewOf(s), Gone(s)[i]);
  }

  lemma RespondedKept(s: State)
    requires CanArrive(s, Respond) && Good(s) && DeliveriesOk(s)
    ensures DeliveriesOk(DoArrive(s, Respond))
  {
    RespondedFrame(s, s.incoming.message);
    RespondedDeliveries(s, DoArrive(s, Respond));
  }

  lemma RespondedDeliveries(s: State, t: State)
    requires DeliveriesOk(s) && s.incoming.Responding? && t.incoming == Reading
    requires t.delivered == s.delivered && t.inserted == s.inserted
    requires t.answered == s.answered
          || (&& ReplyId(s.incoming.message).value >= 1
              && t.answered == s.answered + {ReplyId(s.incoming.message).value - 1})
    ensures DeliveriesOk(t)
  {
    assert s.delivered == Handled(s) + [ReplyId(s.incoming.message).value];
  }

  lemma ArrivalKept(s: State, step: IncomingStep)
    requires CanArrive(s, step) && Good(s) && DeliveriesOk(s)
    requires step.Deliver? ==> FairDelivery(s, step.value)
    ensures DeliveriesOk(DoArrive(s, step))
  {
    match step
    case FindEndpoint =>
    case GiveUpEndpoint =>
    case Deliver(v) => if Parse(v).Ok? { ArrivedKept(s, Parse(v).value); }
    case Respond => RespondedKept(s);
    case EndIncoming =>
    case ClearIncoming =>
  }

  lemma DeliveriesSame(s: State, t: State)
    requires DeliveriesOk(s) && t.incoming == s.incoming
    requires t.answered == s.answered && t.delivered == s.delivered && s.inserted <= t.inserted
    ensures DeliveriesOk(t)
  {
  }

  lemma DeliveriesKept(s: State, step: Step)
    requires Enabled(s, step) && Good(s) && DeliveriesOk(s)
    requires step.In? && step.arrival.Deliver? ==> FairDelivery(s, step.arrival.value)
    ensures DeliveriesOk(Apply(s, step))
  {
    match step
    case Call(c) => CallFrame(s, c); DeliveriesSame(s, DoCall(s, c));
    case Out(o) => SendFrame(s, o); DeliveriesSame(s, DoSend(s, o));
    case In(i) => ArrivalKept(s, i);
    case Act(a) => ActFrame(s, a); DeliveriesSame(s, DoAct(s, a));
  }

  lemma {:induction false} RunDeliveries(kind: Kind, steps: seq<Step>)
    requires After(kind, steps).Some? && |After(kind, steps).value.channels| < TWO64 - 1
    requires AnswersOnce(kind, steps)
    ensures DeliveriesOk(After(kind, steps).value)
  {
    AfterStep(kind, steps);
    if steps != [] {
      var before, s, step := LastStep(kind, steps);
      RunDeliveries(kind, before);
      DeliveriesKept(s, step);
    }
  }

  lemma FreshReply(s: State)
    requires DeliveriesOk(s) && s.incoming.Responding?
    ensures var id := s.delivered[|s.delivered| - 1];
            ReplyId(s.incoming.message) == Some(id) && id > 0 && id - 1 in s.inserted && id - 1 !in s.answered
  {
    var n := |s.delivered| - 1;
    assert s.delivered[n] in s.delivered;
    assert forall i | 0 <= i < n :: s.delivered[i] != s.delivered[n];
  }

  /** Against such a peer, a reply about to be looked up finds its own entry unless a clear took it. */
  lemma NoLostReply(kind: Kind, steps: seq<Step>)
    requires After(kind, steps).Some? && |After(kind, steps).value.channels| < TWO64 - 1
    requires AnswersOnce(kind, steps) && After(kind, steps).value.incoming.Responding?
    ensures var s := After(kind, steps).value;
            && ReplyId(s.incoming.message).Some?
            && var id := ReplyId(s.incoming.message).value;
               && id > 0 && id - 1 < |s.channels|
               && ((Decimal(id) in s.pending && s.pending[Decimal(id)] == id - 1) || id - 1 in s.cleared)
  {
    RunGood(kind, steps);
    RunDeliveries(kind, steps);
    var s := After(kind, steps).value;
    FreshReply(s);
    var c := s.delivered[|s.delivered| - 1] - 1;
    assert PendingOk(ViewOf(s));
    PendingIsExact(kind, steps, c);
  }

  // ---------- The wire ----------

  /** Request ids leave in increasing order; gaps appear, repetitions do not. */
  lemma WireIdsIncrease(kind: Kind, steps: seq<Step>, i: nat, j: nat)
    requires After(kind, steps).Some? && |After(kind, steps).value.channels| < TWO64 - 1
    requires i < j < |After(kind, steps).value.wire|
    requires After(kind, steps).value.wire[i].Request? && After(kind, steps).value.wire[j].Request?
    ensures var wire := After(kind, steps).value.wire;
            && wire[i].request.id.Some? && wire[j].request.id.Some?
            && wire[i].request.id.value < wire[j].request.id.value
  {
    RunGood(kind, steps);
    var s := After(kind, steps).value;
    assert GoodGone(ViewOf(s), Gone(s)[i]) && GoodGone(ViewOf(s), Gone(s)[j]);
    assert Earlier(Gone(s)[i], Gone(s)[j]);
  }
}
