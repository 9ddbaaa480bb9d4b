/**
 * The inductive invariant of `ClientRun`, stated over the part of a state that holds reply
 * senders, and how each kind of change to that part keeps it.
 */
module ClientInvariant {
  import opened Wrappers
  import opened Protocol
  import opened DecimalText
  import opened Transport
  import opened Client
  import opened ClientRun

  // ---------- The part of a state the senders live in ----------

  /**
   * `unsent`: the messages still holding their senders, oldest first (actor, queue, caller).
   * `gone`: the messages past the pending map, oldest first (wire, then the one being written).
   */
  datatype View = View(
    nextId: U64, channels: seq<Channel>, pending: map<string, nat>,
    unsent: seq<Envelope>, gone: seq<Message>,
    inserted: set<nat>, answered: set<nat>, cleared: set<nat>)

  function Offered(c: Caller): seq<Envelope> {
    if c.Offering? then [c.envelope] else []
  }

  function Unsent(s: State): seq<Envelope> {
    LocalEnvelope(s.outgoing) + s.queue + Offered(s.caller)
  }

  function Gone(s: State): seq<Message> {
    s.wire + (if s.outgoing.Writing? then [s.outgoing.message] else [])
  }

  function ViewOf(s: State): View {
    View(s.nextId, s.channels, s.pending, Unsent(s), Gone(s), s.inserted, s.answered, s.cleared)
  }

  predicate Numbered(v: View) {
    && v.nextId == |v.channels| + 1
    && (forall c | 0 <= c < |v.channels| :: v.channels[c].request.id == Some(c + 1))
  }

  predicate GoodEnvelope(v: View, e: Envelope) {
    match e.sender
    case None => e.message.Notification?
    case Some(c) =>
      && c < |v.channels| && v.channels[c].sender.Held? && c !in v.inserted
      && e.message == Request(v.channels[c].request)
  }

  predicate Before(d: Envelope, e: Envelope) {
    d.sender.Some? && e.sender.Some? ==> d.sender.value < e.sender.value
  }

  predicate UnsentOk(v: View) {
    && (forall i | 0 <= i < |v.unsent| :: GoodEnvelope(v, v.unsent[i]))
    && (forall i, j | 0 <= i < j < |v.unsent| :: Before(v.unsent[i], v.unsent[j]))
    && (forall i, c | 0 <= i < |v.unsent| && c in v.inserted ::
          v.unsent[i].sender.Some? ==> c < v.unsent[i].sender.value)
  }

  // An entry is keyed by the id of its own channel, whose sender it holds.
  predicate GoodEntry(v: View, key: string)
    requires key in v.pending
  {
    var c := v.pending[key];
    c < |v.channels| && key == Key(c) && v.channels[c].sender.Held?
  }

  predicate PendingOk(v: View) {
    && v.answered <= v.inserted && v.cleared <= v.inserted
    && (forall c | c in v.inserted :: c < |v.channels|)
    && (forall k | k in v.pending :: GoodEntry(v, k))
    && (forall c | 0 <= c < |v.channels| ::
          Key(c) in v.pending <==> c in v.inserted && c !in v.answered && c !in v.cleared)
  }

  predicate GoodGone(v: View, m: Message) {
    m.Request? ==>
      && m.request.id.Some? && m.request.id.value > 0
      && m.request.id.value - 1 in v.inserted
      && m.request.id.value <= |v.channels|
      && m.request == v.channels[m.request.id.value - 1].request
  }

  predicate Earlier(m: Message, n: Message) {
    m.Request? && n.Request? && m.request.id.Some? && n.request.id.Some? ==> m.request.id.value < n.request.id.value
  }

  predicate GoneOk(v: View) {
    && (forall i | 0 <= i < |v.gone| :: GoodGone(v, v.gone[i]))
    && (forall i, j | 0 <= i < j < |v.gone| :: Earlier(v.gone[i], v.gone[j]))
  }

  predicate InUnsent(v: View, c: nat) {
    exists i | 0 <= i < |v.unsent| :: v.unsent[i].sender == Some(c)
  }

  predicate GoodSender(v: View, c: nat)
    requires c < |v.channels|
  {
    match v.channels[c].sender
    case Held => Key(c) in v.pending || InUnsent(v, c)
    case Used(Ok(m)) => ReplyId(m) == Some(c + 1) && Survives(m) && c in v.answered
    case _ => true
  }

  predicate Core(v: View) {
    && Numbered(v) && UnsentOk(v) && PendingOk(v) && GoneOk(v)
    && (forall c | 0 <= c < |v.channels| :: GoodSender(v, c))
  }

  // ---------- How the view changes ----------

  lemma KeyIsOwn(c: nat)
    ensures forall d: nat :: Key(d) == Key(c) <==> d == c
  {
    forall d: nat ensures Key(d) == Key(c) <==> d == c { DecimalInjective(c + 1, d + 1); }
  }

  lemma CoreIssue(v: View, request: RpcRequest)
    requires Core(v) && |v.channels| + 1 < TWO64 - 1 && request.id == Some(v.nextId)
    ensures Core(v.(nextId := NextId(v.nextId),
                    channels := v.channels + [Channel(request, Held, true)],
                    unsent := v.unsent + [Envelope(Request(request), Some(|v.channels|))]))
  {
    var n := |v.channels|;
    var w := v.(nextId := NextId(v.nextId), channels := v.channels + [Channel(request, Held, true)],
                unsent := v.unsent + [Envelope(Request(request), Some(n))]);
    KeyIsOwn(n);
    assert Key(n) in v.pending ==> GoodEntry(v, Key(n));
    assert w.unsent[|v.unsent|].sender == Some(n);
    forall c | 0 <= c < |w.channels| ensures GoodSender(w, c) {
      if c < n {
        assert GoodSender(v, c);
        if InUnsent(v, c) {
          var i :| 0 <= i < |v.unsent| && v.unsent[i].sender == Some(c);
          assert w.unsent[i].sender == Some(c);
        }
      }
    }
    forall i | 0 <= i < |w.gone| ensures GoodGone(w, w.gone[i]) { assert GoodGone(v, v.gone[i]); }
    forall i | 0 <= i < |w.unsent| ensures GoodEnvelope(w, w.unsent[i]) {
      if i < |v.unsent| { assert GoodEnvelope(v, v.unsent[i]); }
    }
    forall k | k in w.pending ensures GoodEntry(w, k) { assert GoodEntry(v, k); }
  }

  lemma CoreNotify(v: View, m: Message)
    requires Core(v) && m.Notification?
    ensures Core(v.(unsent := v.unsent + [Envelope(m, None)]))
  {
    var w := v.(unsent := v.unsent + [Envelope(m, None)]);
    forall c | 0 <= c < |w.channels| ensures GoodSender(w, c) {
      assert GoodSender(v, c);
      if InUnsent(v, c) {
        var i :| 0 <= i < |v.unsent| && v.unsent[i].sender == Some(c);
        assert w.unsent[i].sender == Some(c);
      }
    }
    forall i | 0 <= i < |w.unsent| ensures GoodEnvelope(w, w.unsent[i]) {
      if i < |v.unsent| { assert GoodEnvelope(v, v.unsent[i]); }
    }
  }

  // Channels keep their requests; outside `lost` they keep their senders too.
  predicate Loses(before: seq<Channel>, after: seq<Channel>, lost: set<nat>) {
    && |after| == |before|
    && forall c | 0 <= c < |before| ::
         && after[c].request == before[c].request
         && (c !in lost ==> after[c].sender == before[c].sender)
         && (c in lost ==> !after[c].sender.Held? && (after[c].sender.Used? ==> after[c].sender.reply.Err?))
  }

  function Outside(unsent: seq<Envelope>, lo: nat, hi: nat): set<nat>
    requires lo <= hi <= |unsent|
  {
    SendersOf(unsent[..lo] + unsent[hi..])
  }

  lemma OutsideIsLost(unsent: seq<Envelope>, lo: nat, hi: nat, i: nat)
    requires lo <= hi <= |unsent| && i < |unsent| && unsent[i].sender.Some?
    ensures i < lo || hi <= i ==> unsent[i].sender.value in Outside(unsent, lo, hi)
  {
    if i < lo {
      assert (unsent[..lo] + unsent[hi..])[i] == unsent[i];
    } else if hi <= i {
      assert (unsent[..lo] + unsent[hi..])[lo + i - hi] == unsent[i];
    }
  }

  // Senders on both sides of a cut are different ones.
  lemma InsideIsKept(v: View, lo: nat, hi: nat, i: nat)
    requires UnsentOk(v) && lo <= i < hi <= |v.unsent| && v.unsent[i].sender.Some?
    ensures v.unsent[i].sender.value !in Outside(v.unsent, lo, hi)
  {
    forall j | 0 <= j < |v.unsent| && (j < lo || hi <= j) ensures v.unsent[j].sender != v.unsent[i].sender {
      assert if j < i then Before(v.unsent[j], v.unsent[i]) else Before(v.unsent[i], v.unsent[j]);
    }
  }

  lemma LostWereUnsent(v: View, lo: nat, hi: nat, c: nat)
    requires Core(v) && lo <= hi <= |v.unsent|
    ensures c in Outside(v.unsent, lo, hi) ==> c !in v.inserted
  {
    if c in Outside(v.unsent, lo, hi) {
      var e :| e in v.unsent[..lo] + v.unsent[hi..] && e.sender == Some(c);
      var j :| 0 <= j < |v.unsent| && v.unsent[j] == e;
      assert GoodEnvelope(v, v.unsent[j]);
    }
  }

  lemma SliceUnsent(v: View, lo: nat, hi: nat, channels: seq<Channel>)
    requires Core(v) && lo <= hi <= |v.unsent|
    requires Loses(v.channels, channels, Outside(v.unsent, lo, hi))
    ensures UnsentOk(v.(unsent := v.unsent[lo..hi], channels := channels))
  {
    var w := v.(unsent := v.unsent[lo..hi], channels := channels);
    forall i | 0 <= i < |w.unsent| ensures GoodEnvelope(w, w.unsent[i]) {
      assert w.unsent[i] == v.unsent[lo + i] && GoodEnvelope(v, v.unsent[lo + i]);
      if w.unsent[i].sender.Some? { InsideIsKept(v, lo, hi, lo + i); }
    }
    forall i, j | 0 <= i < j < |w.unsent| ensures Before(w.unsent[i], w.unsent[j]) {
      assert Before(v.unsent[lo + i], v.unsent[lo + j]);
    }
  }

  /** Messages leave at the ends, and the senders in them are lost with them. */
  lemma CoreSlice(v: View, lo: nat, hi: nat, channels: seq<Channel>)
    requires Core(v) && lo <= hi <= |v.unsent|
    requires Loses(v.channels, channels, Outside(v.unsent, lo, hi))
    ensures Core(v.(unsent := v.unsent[lo..hi], channels := channels))
  {
    var w := v.(unsent := v.unsent[lo..hi], channels := channels);
    SliceUnsent(v, lo, hi, channels);
    forall k | k in w.pending ensures GoodEntry(w, k) {
      assert GoodEntry(v, k);
      LostWereUnsent(v, lo, hi, v.pending[k]);
    }
    forall c | 0 <= c < |w.channels| ensures GoodSender(w, c) {
      assert GoodSender(v, c);
      if c !in Outside(v.unsent, lo, hi) && InUnsent(v, c) {
        var i :| 0 <= i < |v.unsent| && v.unsent[i].sender == Some(c);
        OutsideIsLost(v.unsent, lo, hi, i);
        assert w.unsent[i - lo].sender == Some(c);
      }
    }
    forall i | 0 <= i < |w.gone| ensures GoodGone(w, w.gone[i]) { assert GoodGone(v, v.gone[i]); }
  }

  function AfterInsert(v: View): View
    requires v.unsent != [] && v.unsent[0].sender.Some?
  {
    var c := v.unsent[0].sender.value;
    v.(unsent := v.unsent[1..], gone := v.gone + [v.unsent[0].message],
       pending := v.pending[Key(c) := c], inserted := v.inserted + {c})
  }

  lemma InsertPending(v: View)
    requires Core(v) && v.unsent != [] && v.unsent[0].sender.Some?
    ensures Key(v.unsent[0].sender.value) !in v.pending
    ensures PendingOk(AfterInsert(v))
  {
    var c, w := v.unsent[0].sender.value, AfterInsert(v);
    assert GoodEnvelope(v, v.unsent[0]);
    KeyIsOwn(c);
    forall k | k in w.pending ensures GoodEntry(w, k) {
      assert k in v.pending ==> GoodEntry(v, k);
    }
  }

  lemma InsertGone(v: View)
    requires Core(v) && v.unsent != [] && v.unsent[0].sender.Some?
    ensures GoneOk(AfterInsert(v)) && UnsentOk(AfterInsert(v))
  {
    var c, w := v.unsent[0].sender.value, AfterInsert(v);
    assert GoodEnvelope(v, v.unsent[0]);
    forall i | 0 <= i < |w.unsent| ensures GoodEnvelope(w, w.unsent[i]) {
      assert GoodEnvelope(v, v.unsent[i + 1]) && Before(v.unsent[0], v.unsent[i + 1]);
    }
    forall i | 0 <= i < |w.gone| ensures GoodGone(w, w.gone[i]) {
      if i < |v.gone| { assert GoodGone(v, v.gone[i]); }
    }
    forall i, j | 0 <= i < j < |w.gone| ensures Earlier(w.gone[i], w.gone[j]) {
      assert GoodGone(v, v.gone[i]);
      if j < |v.gone| { assert Earlier(v.gone[i], v.gone[j]); }
    }
  }

  lemma CoreInsert(v: View)
    requires Core(v) && v.unsent != [] && v.unsent[0].sender.Some?
    ensures var c := v.unsent[0].sender.value;
            && c < |v.channels| && v.unsent[0].message == Request(v.channels[c].request)
            && v.channels[c].request.id == Some(c + 1)
            && Key(c) !in v.pending
    ensures Core(AfterInsert(v))
  {
    var c, w := v.unsent[0].sender.value, AfterInsert(v);
    assert GoodEnvelope(v, v.unsent[0]);
    InsertPending(v);
    InsertGone(v);
    forall d | 0 <= d < |w.channels| ensures GoodSender(w, d) {
      assert GoodSender(v, d);
      if d != c && InUnsent(v, d) {
        var i :| 0 <= i < |v.unsent| && v.unsent[i].sender == Some(d);
        assert w.unsent[i - 1].sender == Some(d);
      }
    }
  }

  lemma CorePass(v: View)
    requires Core(v) && v.unsent != [] && v.unsent[0].sender.None?
    ensures Core(v.(unsent := v.unsent[1..], gone := v.gone + [v.unsent[0].message]))
  {
    CoreSlice(v, 1, |v.unsent|, v.channels) by {
      assert v.unsent[..1] + v.unsent[|v.unsent|..] == [v.unsent[0]];
    }
    assert v.unsent[1..|v.unsent|] == v.unsent[1..];
    var u := v.(unsent := v.unsent[1..]);
    var w := u.(gone := v.gone + [v.unsent[0].message]);
    assert GoodEnvelope(v, v.unsent[0]);
    forall i | 0 <= i < |w.gone| ensures GoodGone(w, w.gone[i]) {
      if i < |v.gone| { assert GoodGone(v, v.gone[i]); }
    }
    forall c | 0 <= c < |w.channels| ensures GoodSender(w, c) { assert GoodSender(u, c); }
    forall k | k in w.pending ensures GoodEntry(w, k) { assert GoodEntry(v, k); }
    forall i | 0 <= i < |w.unsent| ensures GoodEnvelope(w, w.unsent[i]) { assert GoodEnvelope(u, u.unsent[i]); }
  }

  // Changes that leave the waiting messages alone leave them findable.
  lemma StillUnsent(v: View, w: View, c: nat)
    requires w.unsent == v.unsent && InUnsent(v, c)
    ensures InUnsent(w, c)
  {
    var i :| 0 <= i < |v.unsent| && v.unsent[i].sender == Some(c);
    assert w.unsent[i].sender == Some(c);
  }

  function AfterRespond(v: View, key: string, m: Message): View
    requires key in v.pending && v.pending[key] < |v.channels|
  {
    var c := v.pending[key];
    v.(channels := Send(v.channels, c, Ok(m)), pending := v.pending - {key}, answered := v.answered + {c})
  }

  lemma RespondPending(v: View, c: nat, m: Message)
    requires Core(v) && Key(c) in v.pending && v.pending[Key(c)] == c
    ensures c < |v.channels| && PendingOk(AfterRespond(v, Key(c), m))
  {
    assert GoodEntry(v, Key(c));
    KeyIsOwn(c);
    var w := AfterRespond(v, Key(c), m);
    forall k | k in w.pending ensures GoodEntry(w, k) { assert GoodEntry(v, k); }
  }

  lemma RespondUnsent(v: View, c: nat, m: Message)
    requires Core(v) && Key(c) in v.pending && v.pending[Key(c)] == c && c < |v.channels|
    ensures UnsentOk(AfterRespond(v, Key(c), m)) && GoneOk(AfterRespond(v, Key(c), m))
  {
    var w := AfterRespond(v, Key(c), m);
    forall i | 0 <= i < |w.unsent| ensures GoodEnvelope(w, w.unsent[i]) { assert GoodEnvelope(v, v.unsent[i]); }
    forall i | 0 <= i < |w.gone| ensures GoodGone(w, w.gone[i]) { assert GoodGone(v, v.gone[i]); }
  }

  lemma RespondSenders(v: View, c: nat, m: Message)
    requires Core(v) && Key(c) in v.pending && v.pending[Key(c)] == c && c < |v.channels|
    requires ReplyId(m) == Some(c + 1) && Survives(m)
    ensures forall d | 0 <= d < |v.channels| :: GoodSender(AfterRespond(v, Key(c), m), d)
  {
    var w := AfterRespond(v, Key(c), m);
    KeyIsOwn(c);
    forall d | 0 <= d < |v.channels| ensures GoodSender(w, d) {
      assert GoodSender(v, d);
      if InUnsent(v, d) { StillUnsent(v, w, d); }
    }
  }

  lemma RespondCore(v: View, c: nat, m: Message)
    requires Core(v) && Key(c) in v.pending && v.pending[Key(c)] == c && c < |v.channels|
    requires ReplyId(m) == Some(c + 1) && Survives(m)
    ensures Core(AfterRespond(v, Key(c), m))
  {
    RespondPending(v, c, m);
    RespondUnsent(v, c, m);
    RespondSenders(v, c, m);
    assert Numbered(AfterRespond(v, Key(c), m));
  }

  /** A reply finds the channel of the request it names, and only that one. */
  lemma ReplyFindsItsChannel(v: View, id: U64)
    requires PendingOk(v) && Decimal(id) in v.pending
    ensures v.pending[Decimal(id)] < |v.channels| && id == v.pending[Decimal(id)] + 1
  {
    assert GoodEntry(v, Decimal(id));
    DecimalInjective(id, v.pending[Decimal(id)] + 1);
  }

  function AfterClear(v: View): View {
    v.(pending := map[], channels := DropAll(v.channels, v.pending.Values), cleared := v.cleared + v.pending.Values)
  }

  lemma ClearPendingOk(v: View)
    requires Core(v)
    ensures PendingOk(AfterClear(v))
    ensures forall c | c in v.pending.Values :: c in v.inserted && c < |v.channels| && Key(c) in v.pending
    ensures forall c | 0 <= c < |v.channels| && Key(c) in v.pending :: c in v.pending.Values
  {
    forall c | c in v.pending.Values ensures c in v.inserted && c < |v.channels| && Key(c) in v.pending {
      var k :| k in v.pending && v.pending[k] == c;
      assert GoodEntry(v, k);
    }
    forall c | 0 <= c < |v.channels| && Key(c) in v.pending ensures c in v.pending.Values {
      assert GoodEntry(v, Key(c));
      DecimalInjective(v.pending[Key(c)] + 1, c + 1);
    }
  }

  lemma CoreClear(v: View)
    requires Core(v)
    ensures Core(AfterClear(v))
  {
    var w := AfterClear(v);
    ClearPendingOk(v);
    forall i | 0 <= i < |w.unsent| ensures GoodEnvelope(w, w.unsent[i]) { assert GoodEnvelope(v, v.unsent[i]); }
    forall d | 0 <= d < |w.channels| ensures GoodSender(w, d) {
      assert GoodSender(v, d);
      if InUnsent(v, d) { StillUnsent(v, w, d); }
    }
    forall i | 0 <= i < |w.gone| ensures GoodGone(w, w.gone[i]) { assert GoodGone(v, v.gone[i]); }
  }

  /** A receiver that goes away changes no sender. */
  lemma CoreMute(v: View, channels: seq<Channel>)
    requires Core(v) && Loses(v.channels, channels, {})
    ensures Core(v.(channels := channels))
  {
    assert v.unsent[..0] + v.unsent[|v.unsent|..] == [];
    CoreSlice(v, 0, |v.unsent|, channels);
    assert v.unsent[0..|v.unsent|] == v.unsent;
  }

  lemma CoreForget(v: View, gone: seq<Message>)
    requires Core(v) && gone <= v.gone
    ensures Core(v.(gone := gone))
  {
    var w := v.(gone := gone);
    forall i | 0 <= i < |w.gone| ensures GoodGone(w, w.gone[i]) { assert GoodGone(v, v.gone[i]); }
    forall k | k in w.pending ensures GoodEntry(w, k) { assert GoodEntry(v, k); }
    forall i | 0 <= i < |w.unsent| ensures GoodEnvelope(w, w.unsent[i]) { assert GoodEnvelope(v, v.unsent[i]); }
    forall c | 0 <= c < |w.channels| ensures GoodSender(w, c) {
      assert GoodSender(v, c);
      if InUnsent(v, c) { StillUnsent(v, w, c); }
    }
  }
}
