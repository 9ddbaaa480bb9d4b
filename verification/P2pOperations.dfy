/** What whole operations of `P2pHandler` do, one after the other. */
module P2pOperations {
  import opened Wrappers
  import opened P2pHandler
  import opened P2pHistory

  /**
   * The methods that change a handler, with the times, random ids and outcomes they meet, and an
   * owner's write to the public map of pending requests.
   */
  datatype Operation =
    | SetTransportType(transportType: TransportType)
    | RegisterContent(ids: Uuids)
    | UpdatePeer(peer: PeerId, outgoing: bool, now: Time)
    | RegisterPeer(peer: PeerId, transportType: TransportType, now: Time)
    | UnregisterPeer(peer: PeerId)
    | CleanupPeers(timeout: Time, now: Time)
    | CleanStalePeers(timeout: Time, now: Time)
    | ProcessMessage(peer: PeerId, message: McpMessage, ids: Uuids, now: Time)
    | ProcessProtocol(peer: PeerId, inner: ProtocolMessage, ids: Uuids, now: Time)
    | HandleRequest(peer: PeerId, request: RequestPayload, ids: Uuids, now: Time)
    | HandleGossipsub(peer: PeerId, msgId: string, payload: Payload, ids: Uuids, marked: Time, now: Time, later: Time)
    | HandleResponse(peer: PeerId, id: RequestId, result: Option<Option<Payload>>, ids: Uuids, now: Time)
    | BroadcastResource(resource: Resource)
    | RecordRequest(id: RequestId, reqType: RequestType)

  /** What an operation does first, whatever it finds. */
  function Opening(op: Operation): (r: seq<Section>)
    ensures r != []
  {
    match op
    case SetTransportType(t) => [SetTransport(t)]
    case RegisterContent(ids) => RegisterContentSections(ids)
    case UpdatePeer(p, outgoing, now) => [Touch(p, outgoing, now)]
    case RegisterPeer(p, t, now) => [Register(p, t, now)]
    case UnregisterPeer(p) => [Unregister(p)]
    case CleanupPeers(timeout, now) => [KeepRecent(timeout, now)]
    case CleanStalePeers(timeout, now) => [DropStale(timeout, now), Sweep(now)]
    case ProcessMessage(p, m, ids, now) => MessageSections(p, m, ids, now)
    case ProcessProtocol(p, m, ids, now) => ProtocolSections(p, m, ids, now)
    case HandleRequest(p, request, ids, now) => RequestSections(p, request, ids, now)
    case HandleGossipsub(_, m, _, _, marked, _, _) => [Mark(m, marked)]
    case HandleResponse(p, id, _, _, now) => [Touch(p, false, now), Forget(id)]
    case BroadcastResource(resource) => Store(resource)
    case RecordRequest(id, reqType) => [Ask(id, reqType)]
  }

  /** How it goes on, given the state in which it ran the last section of its opening. */
  function Closing(s: State, op: Operation): seq<Section> {
    match op
    case HandleGossipsub(p, m, payload, ids, _, now, later) => GossipSections(m in s.seen, p, payload, ids, now, later)
    case HandleResponse(_, id, result, ids, _) => ResponseSections(result, Asked(s.pending, id), ids)
    case _ => []
  }

  /** All it does when nothing runs beside it. */
  function SectionsOf(s: State, op: Operation): seq<Section> {
    Opening(op) + Closing(s, op)
  }

  /** The handler's own methods run these sections, each operation by its method. */
  method Perform(h: Handler, op: Operation)
    modifies h
    ensures h.Value() == Run(old(h.Value()), SectionsOf(old(h.Value()), op))
  {
    ghost var s := h.Value();
    assert Opening(op) + [] == Opening(op);
    match op {
      case SetTransportType(t) => h.SetTransportType(t); RunOne(s, SetTransport(t));
      case RegisterContent(ids) => h.RegisterContent(ids);
      case UpdatePeer(p, outgoing, now) => h.UpdatePeerState(p, outgoing, now); RunOne(s, Touch(p, outgoing, now));
      case RegisterPeer(p, t, now) => h.RegisterPeer(p, t, now); RunOne(s, Register(p, t, now));
      case UnregisterPeer(p) => h.UnregisterPeer(p); RunOne(s, Unregister(p));
      case CleanupPeers(timeout, now) => h.CleanupPeers(timeout, now); RunOne(s, KeepRecent(timeout, now));
      case CleanStalePeers(timeout, now) => h.CleanStalePeers(timeout, now);
      case ProcessMessage(p, message, ids, now) => h.ProcessMessage(p, message, ids, now);
      case ProcessProtocol(p, message, ids, now) => var _ := h.ProcessProtocolMessage(p, message, ids, now);
      case HandleRequest(p, request, ids, now) => var _ := h.HandleRequest(p, request, ids, now, true);
      case HandleGossipsub(p, m, payload, ids, marked, now, later) =>
        var _ := h.HandleGossipsub(p, m, payload, ids, marked, now, later);
      case HandleResponse(p, id, result, ids, now) => h.HandleResponse(p, id, result, ids, now);
      case BroadcastResource(resource) => var _ := h.BroadcastResource(resource);
      case RecordRequest(id, reqType) =>
        h.pendingRequests := h.pendingRequests[id := reqType];
        RunOne(s, Ask(id, reqType));
    }
  }

  function Sections(s: State, ops: seq<Operation>): seq<Section> {
    if ops == [] then []
    else
      var done := Sections(s, ops[..|ops| - 1]);
      done + SectionsOf(Run(s, done), ops[|ops| - 1])
  }

  /** A gossip message whose id is not known in `s`. */
  predicate IsNew(s: State, op: Operation) {
    op.HandleGossipsub? && op.msgId !in s.seen
  }

  /** How many messages an operation counts as received from `p`; `isNew` tells whether a gossip message was new. */
  function Counts(op: Operation, isNew: bool, p: PeerId): nat {
    match op
    case UpdatePeer(q, outgoing, _) => if p == q && !outgoing then 1 else 0
    case ProcessMessage(q, _, _, _) => if p == q then 1 else 0
    case ProcessProtocol(q, _, _, _) => if p == q then 1 else 0
    case HandleRequest(q, _, _, _) => if p == q then 1 else 0
    case HandleResponse(q, _, _, _, _) => if p == q then 1 else 0
    case HandleGossipsub(q, _, payload, _, _, _, _) =>
      if p != q || !isNew then 0 else if payload.Garbage? then 1 else 2
    case _ => 0
  }

  lemma TouchesOfOpening(op: Operation, p: PeerId)
    ensures Touches(Opening(op), p, false) == if op.HandleGossipsub? then 0 else Counts(op, false, p)
  {
    hide Touches;
    match op
    case ProcessMessage(q, m, ids, now) => TouchesHead(MessageSections(q, m, ids, now), p);
    case ProcessProtocol(q, m, ids, now) => TouchesHead(ProtocolSections(q, m, ids, now), p);
    case HandleRequest(q, request, ids, now) => TouchesHead(RequestSections(q, request, ids, now), p);
    case HandleResponse(q, id, _, _, now) => TouchesHead(Opening(op), p);
    case UpdatePeer(q, outgoing, now) => TouchesOne(Touch(q, outgoing, now), p, false);
    case _ => TouchesNone(Opening(op), p);
  }

  lemma TouchesOfClosing(s: State, op: Operation, p: PeerId)
    ensures Touches(Closing(s, op), p, false) == if op.HandleGossipsub? then Counts(op, IsNew(s, op), p) else 0
  {
    hide Touches;
    match op
    case HandleGossipsub(q, m, payload, ids, _, now, later) =>
      if m !in s.seen { TouchesOfGossip(q, payload, ids, now, later, p); } else { TouchesNone([], p); }
    case _ => TouchesNone(Closing(s, op), p);
  }

  /** An operation counts what `Counts` says, gossip by whether its id was new. */
  lemma TouchesOfMessages(s: State, op: Operation, p: PeerId)
    ensures Touches(SectionsOf(s, op), p, false) == Counts(op, IsNew(s, op), p)
  {
    hide Touches, Opening, Closing;
    TouchesOfOpening(op, p);
    TouchesOfClosing(s, op, p);
    TouchesAppend(Opening(op), Closing(s, op), p, false);
  }

  lemma TouchesOfGossip(q: PeerId, payload: Payload, ids: Uuids, now: Time, later: Time, p: PeerId)
    ensures Touches(FreshGossipSections(q, payload, ids, now, later), p, false)
         == if p != q then 0 else if payload.Garbage? then 1 else 2
  {
    hide Touches;
    var first := [Touch(q, false, now)];
    TouchesOne(first[0], p, false);
    match payload
    case Standard(m) =>
      TouchesAppend(first, MessageSections(q, m, ids, later), p, false);
      TouchesHead(MessageSections(q, m, ids, later), p);
    case Internal(m) =>
      TouchesAppend(first, ProtocolSections(q, m, ids, later), p, false);
      TouchesHead(ProtocolSections(q, m, ids, later), p);
    case Garbage =>
      assert FreshGossipSections(q, payload, ids, now, later) == first;
  }

  function EndOf(t: TransportType, ops: seq<Operation>): State {
    End(t, Sections(Init(t), ops))
  }

  /** What operations counted as received from `p` since its entry was made or last replaced. */
  function SinceEntry(t: TransportType, ops: seq<Operation>, p: PeerId): nat {
    if ops == [] then 0
    else
      var before, op := ops[..|ops| - 1], ops[|ops| - 1];
      Counts(op, IsNew(EndOf(t, before), op), p)
      + if p in EndOf(t, before).peers && !(op.RegisterPeer? && op.peer == p) then SinceEntry(t, before, p) else 0
  }

  lemma MessagesRemoveNothing(s: State, op: Operation, p: PeerId)
    requires !op.RegisterPeer? && !op.UnregisterPeer? && !op.CleanupPeers? && !op.CleanStalePeers?
    ensures forall section | section in SectionsOf(s, op) :: !Replaces(section, p) && !Removal(section)
  {
    OpeningRemovesNothing(op, p);
    ClosingRemovesNothing(s, op, p);
    hide Opening, Closing, Replaces, Removal;
  }

  lemma OpeningRemovesNothing(op: Operation, p: PeerId)
    requires !op.RegisterPeer? && !op.UnregisterPeer? && !op.CleanupPeers? && !op.CleanStalePeers?
    ensures forall section | section in Opening(op) :: !Replaces(section, p) && !Removal(section)
  {
    hide Run, Apply;
  }

  lemma ClosingRemovesNothing(s: State, op: Operation, p: PeerId)
    ensures forall section | section in Closing(s, op) :: !Replaces(section, p) && !Removal(section)
  {
    hide Run, Apply, Asked;
    match op
    case HandleGossipsub(q, _, payload, ids, _, now, later) => GossipRemovesNothing(q, payload, ids, now, later, p);
    case _ =>
  }

  lemma GossipRemovesNothing(q: PeerId, payload: Payload, ids: Uuids, now: Time, later: Time, p: PeerId)
    ensures forall section | section in FreshGossipSections(q, payload, ids, now, later) ::
              !Replaces(section, p) && !Removal(section)
  {
  }

  lemma OperationCounts(s: State, op: Operation, p: PeerId)
    requires p in Run(s, SectionsOf(s, op)).peers
    ensures Run(s, SectionsOf(s, op)).peers[p].messagesReceived
         == Counts(op, IsNew(s, op), p)
            + if p in s.peers && !(op.RegisterPeer? && op.peer == p) then s.peers[p].messagesReceived else 0
  {
    TouchesOfMessages(s, op, p);
    assert Opening(op) + [] == Opening(op);
    hide Touches, Run;
    match op
    case RegisterPeer(q, t, now) => RunOne(s, Register(q, t, now));
    case UnregisterPeer(q) => RunOne(s, Unregister(q));
    case CleanupPeers(timeout, now) => RunOne(s, KeepRecent(timeout, now));
    case CleanStalePeers(timeout, now) => RunTwo(s, DropStale(timeout, now), Sweep(now));
    case _ =>
      MessagesRemoveNothing(s, op, p);
      hide SectionsOf;
      RunCounts(s, SectionsOf(s, op), p);
  }

  /**
   * After any sequence of operations the count of messages received from a known peer is the sum
   * of their weights since its entry was made: two for a fresh gossip message that parses, one for
   * one that does not and for a direct message, request or response, none for a duplicate.
   */
  lemma {:induction false} ReceivedIsWeight(t: TransportType, ops: seq<Operation>, p: PeerId)
    requires p in EndOf(t, ops).peers
    ensures EndOf(t, ops).peers[p].messagesReceived == SinceEntry(t, ops, p)
  {
    if ops != [] {
      var before, op := ops[..|ops| - 1], ops[|ops| - 1];
      var s := EndOf(t, before);
      RunAppend(Init(t), Sections(Init(t), before), SectionsOf(s, op));
      OperationCounts(s, op, p);
      if p in s.peers { ReceivedIsWeight(t, before, p); }
    }
  }

  /** However operations interleave, keys match: an operation stores only under the resource's own uri. */
  lemma OperationsKeepKeys(s: State, sections: seq<Section>)
    requires Keyed(s)
    requires forall section | section in sections :: exists u, op :: section in SectionsOf(u, op)
    ensures Keyed(Run(s, sections))
  {
    forall section | section in sections && section.Put? ensures section.key == section.resource.uri {
      var u, op :| section in SectionsOf(u, op);
      StoresOwnUri(u, op, section);
    }
    KeyedAfter(s, sections);
  }

  lemma StoresOwnUri(s: State, op: Operation, section: Section)
    requires section in SectionsOf(s, op) && section.Put?
    ensures section.key == section.resource.uri
  {
    hide Run, Apply, Asked;
    match op
    case HandleGossipsub(q, _, payload, ids, _, now, later) => GossipStoresOwnUri(q, payload, ids, now, later);
    case _ =>
  }

  lemma GossipStoresOwnUri(q: PeerId, payload: Payload, ids: Uuids, now: Time, later: Time)
    ensures forall section | section in FreshGossipSections(q, payload, ids, now, later) && section.Put? ::
              section.key == section.resource.uri
  {
  }

  // ---------- Duplicates ----------

  /** Operation `i` handles a message with this id that is new. */
  predicate AcceptsAt(t: TransportType, ops: seq<Operation>, msgId: string, i: nat)
    requires i < |ops|
  {
    IsNew(EndOf(t, ops[..i]), ops[i]) && ops[i].msgId == msgId
  }

  /** Operation `k` cleans, and finds the message of operation `i` at least 300 seconds old. */
  predicate ExpiresAt(ops: seq<Operation>, i: nat, k: nat)
    requires i < |ops| && k < |ops| && ops[i].HandleGossipsub?
  {
    ops[k].CleanStalePeers? && ops[k].now >= ops[i].marked + 300_000_000_000
  }

  // The one section of an operation that concerns the message ids, or some other section.
  function SeenSection(op: Operation): Section {
    match op
    case HandleGossipsub(_, m, _, _, marked, _, _) => Mark(m, marked)
    case CleanStalePeers(_, now) => Sweep(now)
    case _ => SetTransport(Unknown)
  }

  function SeenSections(ops: seq<Operation>): seq<Section> {
    seq(|ops|, i requires 0 <= i < |ops| => SeenSection(ops[i]))
  }

  predicate KeepsSeen(section: Section) {
    !section.Mark? && !section.Sweep?
  }

  lemma {:induction false} RunKeepsSeen(s: State, sections: seq<Section>)
    requires forall section | section in sections :: KeepsSeen(section)
    ensures Run(s, sections).seen == s.seen
  {
    if sections != [] {
      assert KeepsSeen(sections[|sections| - 1]);
      RunKeepsSeen(s, sections[..|sections| - 1]);
    }
  }

  lemma OthersKeepSeen(s: State, op: Operation)
    ensures forall section | section in Closing(s, op) :: KeepsSeen(section)
    ensures !op.HandleGossipsub? && !op.CleanStalePeers? ==>
              forall section | section in Opening(op) :: KeepsSeen(section)
  {
    hide Run, Apply;
  }

  lemma SeenAfter(s: State, op: Operation)
    ensures Run(s, SectionsOf(s, op)).seen == Apply(s, SeenSection(op)).seen
  {
    hide Opening, Closing, Run, Apply, SeenSection, KeepsSeen;
    OthersKeepSeen(s, op);
    OpeningSeen(s, op);
    RunAppend(s, Opening(op), Closing(s, op));
    RunKeepsSeen(Run(s, Opening(op)), Closing(s, op));
  }

  lemma OpeningSeen(s: State, op: Operation)
    ensures Run(s, Opening(op)).seen == Apply(s, SeenSection(op)).seen
  {
    hide Run;
    OthersKeepSeen(s, op);
    match op
    case HandleGossipsub(_, m, _, _, marked, _, _) => RunOne(s, Mark(m, marked));
    case CleanStalePeers(timeout, now) => RunTwo(s, DropStale(timeout, now), Sweep(now));
    case _ => RunKeepsSeen(s, Opening(op));
  }

  // Of the message ids an operation leaves what its one section leaves.
  lemma {:induction false} SeenOf(t: TransportType, ops: seq<Operation>)
    ensures EndOf(t, ops).seen == End(t, SeenSections(ops)).seen
  {
    hide Apply, SectionsOf, SeenSection, Run;
    AtEnd(t, SeenSections(ops));
    if ops == [] {
      SeenOfNothing(t);
    } else {
      var before, op := ops[..|ops| - 1], ops[|ops| - 1];
      SeenOf(t, before);
      assert SeenSections(ops)[..|ops| - 1] == SeenSections(before);
      SameSeen(EndOf(t, before), End(t, SeenSections(before)), SeenSection(op));
      RunAppend(Init(t), Sections(Init(t), before), SectionsOf(EndOf(t, before), op));
      SeenAfter(EndOf(t, before), op);
    }
  }

  lemma SeenOfNothing(t: TransportType)
    ensures EndOf(t, []).seen == End(t, SeenSections([])).seen
  {
  }

  lemma SameSeen(s: State, u: State, section: Section)
    requires s.seen == u.seen
    ensures Apply(s, section).seen == Apply(u, section).seen
  {
  }

  lemma SameMessages(t: TransportType, ops: seq<Operation>, msgId: string, i: nat)
    requires i < |ops|
    ensures Remembers(t, SeenSections(ops), msgId, i)
       <==> AcceptsAt(t, ops, msgId, i) && forall k | i < k < |ops| :: !ExpiresAt(ops, i, k)
  {
    var sections := SeenSections(ops);
    SeenOf(t, ops[..i]);
    assert sections[..i] == SeenSections(ops[..i]);
    assert Accepts(t, sections, msgId, i) <==> AcceptsAt(t, ops, msgId, i);
    if AcceptsAt(t, ops, msgId, i) {
      assert forall k | i < k < |ops| :: Expires(sections, i, k) <==> ExpiresAt(ops, i, k);
    }
  }

  /**
   * After any sequence of operations a gossip message is a duplicate exactly when an earlier
   * operation accepted its id and no cleaning in between found that one 300 seconds old.
   */
  lemma DuplicateIff(t: TransportType, ops: seq<Operation>, msgId: string)
    ensures msgId in EndOf(t, ops).seen
       <==> exists i :: 0 <= i < |ops| && AcceptsAt(t, ops, msgId, i)
                        && forall k | i < k < |ops| :: !ExpiresAt(ops, i, k)
  {
    var sections := SeenSections(ops);
    SeenOf(t, ops);
    forall i | 0 <= i < |ops|
      ensures Remembers(t, sections, msgId, i)
         <==> AcceptsAt(t, ops, msgId, i) && forall k | i < k < |ops| :: !ExpiresAt(ops, i, k)
    {
      SameMessages(t, ops, msgId, i);
    }
    if msgId in EndOf(t, ops).seen {
      var i := SeenIsRemembered(t, sections, msgId);
    } else {
      forall i | 0 <= i < |ops| ensures !Remembers(t, sections, msgId, i) {
        if Remembers(t, sections, msgId, i) { RememberedIsSeen(t, sections, msgId, i); }
      }
    }
  }

  // ---------- Cleaning ----------

  lemma EndOfSnoc(t: TransportType, ops: seq<Operation>, op: Operation)
    ensures EndOf(t, ops + [op]) == Run(EndOf(t, ops), SectionsOf(EndOf(t, ops), op))
  {
    assert (ops + [op])[..|ops|] == ops;
    RunAppend(Init(t), Sections(Init(t), ops), SectionsOf(EndOf(t, ops), op));
  }

  /** The entry of `p` was last written at time `at`, by the sections of these operations. */
  predicate LastWrittenAt(t: TransportType, ops: seq<Operation>, p: PeerId, at: Time) {
    var sections := Sections(Init(t), ops);
    exists k: nat | k < |sections| :: LastWritten(sections, p, k) && sections[k].now == at
  }

  /**
   * A known peer survives `clean_stale_peers` exactly when its entry was last written no longer ago
   * than the timeout; nobody appears, and entries stay as they are.
   */
  lemma SurvivesCleanStale(t: TransportType, ops: seq<Operation>, timeout: Time, now: Time, p: PeerId)
    ensures var before, after := EndOf(t, ops).peers, EndOf(t, ops + [CleanStalePeers(timeout, now)]).peers;
            && (p in after <==> p in before && exists at: Time :: LastWrittenAt(t, ops, p, at) && now <= at + timeout)
            && (p in after ==> after[p] == before[p])
  {
    hide *;
    EndOfSnoc(t, ops, CleanStalePeers(timeout, now));
    CleaningSections(EndOf(t, ops), timeout, now);
    CleanersKeep(EndOf(t, ops), timeout, now);
    if p in EndOf(t, ops).peers {
      WrittenWhenSeen(t, ops, p);
      assert LastWrittenAt(t, ops, p, EndOf(t, ops).peers[p].lastSeen);
    }
  }

  /** The same of `cleanup_peers`, when it was written less long ago than the timeout. */
  lemma SurvivesCleanup(t: TransportType, ops: seq<Operation>, timeout: Time, now: Time, p: PeerId)
    ensures var before, after := EndOf(t, ops).peers, EndOf(t, ops + [CleanupPeers(timeout, now)]).peers;
            && (p in after <==>
                  p in before && timeout > 0 && exists at: Time :: LastWrittenAt(t, ops, p, at) && now < at + timeout)
            && (p in after ==> after[p] == before[p])
  {
    hide *;
    EndOfSnoc(t, ops, CleanupPeers(timeout, now));
    CleaningSections(EndOf(t, ops), timeout, now);
    CleanersKeep(EndOf(t, ops), timeout, now);
    if p in EndOf(t, ops).peers {
      WrittenWhenSeen(t, ops, p);
      assert LastWrittenAt(t, ops, p, EndOf(t, ops).peers[p].lastSeen);
    }
  }

  lemma CleaningSections(s: State, timeout: Time, now: Time)
    ensures SectionsOf(s, CleanStalePeers(timeout, now)) == [DropStale(timeout, now), Sweep(now)]
    ensures SectionsOf(s, CleanupPeers(timeout, now)) == [KeepRecent(timeout, now)]
  {
  }

  lemma WrittenWhenSeen(t: TransportType, ops: seq<Operation>, p: PeerId)
    requires p in EndOf(t, ops).peers
    ensures forall at :: LastWrittenAt(t, ops, p, at) <==> at == EndOf(t, ops).peers[p].lastSeen
  {
    var sections := Sections(Init(t), ops);
    var k := EntryTime(t, sections, p);
    forall i: nat | i < |sections| && LastWritten(sections, p, i) ensures i == k {
      assert LastWritten(sections, p, i) && LastWritten(sections, p, k);
    }
  }

  // ---------- What an operation stores ----------

  /** The resource that content is kept as. */
  function ContentKept(ids: Uuids): Resource {
    Resource("p2p://" + ids.uri, "P2P Content " + ids.name, "Content shared via P2P transport",
             "application/octet-stream")
  }

  /** The resource that a response with contents is kept as. */
  function ResponseKept(id: string): Resource {
    Resource(id, "Resource-" + id, "P2P received resource", "application/octet-stream")
  }

  function MessageKept(message: McpMessage, ids: Uuids): Option<Resource> {
    match message
    case ContentMessage => Some(ContentKept(ids))
    case ResourceMessage(resource) => Some(resource)
  }

  function ProtocolKept(message: ProtocolMessage, ids: Uuids): Option<Resource> {
    match message
    case Content => Some(ContentKept(ids))
    case SharedResource(resource) => Some(resource)
    case ResourceResponse(id, contents) => if contents then Some(ResponseKept(id)) else None
    case _ => None
  }

  /** What an operation on a handler in state `s` leaves in the cache, if anything. */
  function Kept(s: State, op: Operation): Option<Resource> {
    match op
    case RegisterContent(ids) => Some(ContentKept(ids))
    case BroadcastResource(resource) => Some(resource)
    case ProcessMessage(_, message, ids, _) => MessageKept(message, ids)
    case ProcessProtocol(_, message, ids, _) => ProtocolKept(message, ids)
    case HandleRequest(_, AsProtocol(Content), ids, _) => Some(ContentKept(ids))
    case HandleGossipsub(_, m, payload, ids, _, _, _) =>
      if m in s.seen || payload.Garbage? then None
      else if payload.Standard? then MessageKept(payload.message, ids)
      else ProtocolKept(payload.inner, ids)
    case HandleResponse(_, id, Some(Some(payload)), ids, _) =>
      (match payload
       case Standard(message) => MessageKept(message, ids)
       case Internal(SharedResource(resource)) => Some(resource)
       case Internal(ResourceResponse(uri, contents)) =>
         if contents && id in s.pending && s.pending[id] == ForResource(uri) then Some(ResponseKept(uri)) else None
       case _ => None)
    case _ => None
  }

  predicate KeepsCache(section: Section) {
    !section.Put?
  }

  lemma {:induction false} RunKeepsCache(s: State, sections: seq<Section>)
    requires forall section | section in sections :: KeepsCache(section)
    ensures Run(s, sections).cache == s.cache
  {
    if sections != [] {
      assert KeepsCache(sections[|sections| - 1]);
      RunKeepsCache(s, sections[..|sections| - 1]);
    }
  }

  lemma RunPutsLast(s: State, sections: seq<Section>, uri: string, resource: Resource)
    requires forall section | section in sections :: KeepsCache(section)
    ensures Run(s, sections + [Put(uri, resource)]).cache == s.cache[uri := resource]
  {
    RunKeepsCache(s, sections);
    RunAppend(s, sections, [Put(uri, resource)]);
    RunOne(Run(s, sections), Put(uri, resource));
  }

  function PutOf(kept: Option<Resource>): seq<Section> {
    if kept.Some? then [Put(kept.value.uri, kept.value)] else []
  }

  lemma PutsLast(s: State, op: Operation) returns (before: seq<Section>)
    ensures SectionsOf(s, op) == before + PutOf(Kept(s, op))
    ensures forall section | section in before :: KeepsCache(section)
  {
    match op
    case RegisterContent(_) => before := [];
    case BroadcastResource(_) => before := [];
    case ProcessMessage(p, _, _, now) => before := [Touch(p, false, now)];
    case ProcessProtocol(p, _, _, now) => before := [Touch(p, false, now)];
    case HandleRequest(p, _, _, now) => before := [Touch(p, false, now)];
    case HandleGossipsub(p, m, payload, ids, marked, now, later) =>
      before := GossipPutsLast(s, p, m, payload, ids, marked, now, later);
    case HandleResponse(p, id, _, _, now) => before := [Touch(p, false, now), Forget(id)];
    case _ =>
      before := Opening(op);
      assert Opening(op) + [] == Opening(op);
  }

  lemma GossipPutsLast(
    s: State, p: PeerId, m: string, payload: Payload, ids: Uuids, marked: Time, now: Time, later: Time)
    returns (before: seq<Section>)
    ensures var op := Operation.HandleGossipsub(p, m, payload, ids, marked, now, later);
            SectionsOf(s, op) == before + PutOf(Kept(s, op))
    ensures forall section | section in before :: KeepsCache(section)
  {
    if m in s.seen { before := [Mark(m, marked)]; }
    else if payload.Garbage? { before := [Mark(m, marked), Touch(p, false, now)]; }
    else { before := [Mark(m, marked), Touch(p, false, now), Touch(p, false, later)]; }
  }

  /** An operation leaves `Kept` in the cache, under its own uri, and otherwise leaves the cache alone. */
  lemma CacheAfter(s: State, op: Operation)
    ensures Run(s, SectionsOf(s, op)).cache
         == if Kept(s, op).Some? then s.cache[Kept(s, op).value.uri := Kept(s, op).value] else s.cache
  {
    hide SectionsOf, Kept, Run;
    var before := PutsLast(s, op);
    if Kept(s, op).Some? {
      RunPutsLast(s, before, Kept(s, op).value.uri, Kept(s, op).value);
    } else {
      assert before + [] == before;
      RunKeepsCache(s, before);
    }
  }
}
