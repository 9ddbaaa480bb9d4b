/** The two models of the handler agree: an operation takes the locks that its sections need. */
module P2pAgreement {
  import opened Wrappers
  import H = P2pHandler
  import O = P2pOperations
  import opened P2pLocks

  /** The lock of the map that a section changes. */
  function LockOf(section: H.Section): Lock {
    match section
    case Touch(_, _, _) => Peers
    case Register(_, _, _) => Peers
    case Unregister(_) => Peers
    case KeepRecent(_, _) => Peers
    case DropStale(_, _) => Peers
    case Put(_, _) => Cache
    case Ask(_, _) => Pending
    case Forget(_) => Pending
    case Mark(_, _) => Seen
    case Sweep(_) => Seen
    case SetTransport(_) => Peers
  }

  function LocksOf(sections: seq<H.Section>): seq<Lock> {
    seq(|sections|, i requires 0 <= i < |sections| => LockOf(sections[i]))
  }

  function UseOf(message: H.ProtocolMessage): CacheUse {
    match message
    case Content => Store
    case SharedResource(_) => Store
    case ResourceResponse(_, contents) => if contents then Store else NoUse
    case ResourceRequest(_) => Lookup
    case _ => NoUse
  }

  /** Which of the lock programs an operation runs; none for what needs no lock, or is done by an owner. */
  function Runs(s: H.State, op: O.Operation): Option<Operation> {
    match op
    case SetTransportType(_) => None
    case RecordRequest(_, _) => None
    case RegisterContent(_) => Some(CacheOnly(Store))
    case UpdatePeer(_, _, _) => Some(UpdatePeerState)
    case RegisterPeer(_, _, _) => Some(RegisterPeer)
    case UnregisterPeer(_) => Some(UnregisterPeer)
    case CleanupPeers(_, _) => Some(CleanupPeers)
    case CleanStalePeers(_, _) => Some(CleanStalePeers)
    case ProcessMessage(_, _, _, _) => Some(ProcessMessage(Store))
    case ProcessProtocol(_, message, _, _) => Some(ProcessMessage(UseOf(message)))
    case HandleRequest(_, AsProtocol(ResourceRequest(_)), _, _) => Some(HandleRequest(Lookup))
    case HandleRequest(_, AsProtocol(Content), _, _) => Some(HandleRequest(Store))
    case HandleRequest(_, _, _, _) => Some(HandleRequest(NoUse))
    case HandleGossipsub(_, m, payload, _, _, _, _) =>
      Some(if m in s.seen then GossipDuplicate
           else match payload
                case Garbage => GossipUnparsable
                case Standard(_) => GossipParsed(Store)
                case Internal(message) => GossipParsed(UseOf(message)))
    case HandleResponse(_, _, _, _, _) => Some(HandleResponse(if O.Kept(s, op).Some? then Store else NoUse))
    case BroadcastResource(_) => Some(BroadcastResource)
  }

  /** The locks a program takes in one of the modes, in order. */
  function Taken(program: Program, mode: Mode): seq<Lock> {
    if program == [] then []
    else (if program[0].Acquire? && program[0].mode == mode then [program[0].lock] else []) + Taken(program[1..], mode)
  }

  /** What is taken while what is still held: pairs of an outer and an inner lock. */
  function Nestings(program: Program, held: set<Lock>): set<(Lock, Lock)> {
    if program == [] then {}
    else
      match program[0]
      case Acquire(lock, _) => (set h | h in held :: (h, lock)) + Nestings(program[1..], held + {lock})
      case Release(lock) => Nestings(program[1..], held - {lock})
  }

  lemma {:induction false} TakenAppend(a: Program, b: Program, mode: Mode)
    ensures Taken(a + b, mode) == Taken(a, mode) + Taken(b, mode)
  {
    if a == [] {
      assert a + b == b;
    } else {
      assert (a + b)[1..] == a[1..] + b;
      TakenAppend(a[1..], b, mode);
    }
  }

  lemma TakenGuarded(lock: Lock, mode: Mode, other: Mode)
    ensures Taken(Guarded(lock, mode), other) == if mode == other then [lock] else []
  {
    assert Guarded(lock, mode)[1..] == [Release(lock)] && [Release(lock)][1..] == [];
    assert Taken([Release(lock)], other) == [];
  }

  lemma TakenOne(i: Instruction, mode: Mode)
    ensures Taken([i], mode) == if i.Acquire? && i.mode == mode then [i.lock] else []
  {
    assert [i][1..] == [];
  }

  lemma TakenUse(use: CacheUse)
    ensures Taken(UseCache(use), Write) == if use == Store then [Cache] else []
    ensures Taken(UseCache(use), Read) == if use == Lookup then [Cache] else []
  {
    TakenGuarded(Cache, Read, Write);
    TakenGuarded(Cache, Read, Read);
    TakenGuarded(Cache, Write, Write);
    TakenGuarded(Cache, Write, Read);
  }

  // ---------- Sections and locks ----------

  /** The locks for writing that an operation takes, in order. */
  function WriteLocks(op: Operation): seq<Lock> {
    match op
    case UpdatePeerState | RegisterPeer | UnregisterPeer | CleanupPeers => [Peers]
    case CountPeers => []
    case CacheOnly(use) => if use == Store then [Cache] else []
    case ProcessMessage(use) => [Peers] + if use == Store then [Cache] else []
    case HandleRequest(use) => [Peers] + if use == Store then [Cache] else []
    case HandleResponse(use) => [Peers, Pending] + if use == Store then [Cache] else []
    case BroadcastResource => [Cache]
    case GossipDuplicate => [Seen]
    case GossipUnparsable => [Seen, Peers]
    case GossipParsed(use) => [Seen, Peers, Peers] + if use == Store then [Cache] else []
    case CleanStalePeers => [Peers, Seen]
  }

  lemma Written(op: Operation)
    ensures Taken(ProgramOf(op), Write) == WriteLocks(op)
  {
    hide Taken, UseCache, Guarded;
    TakenGuarded(Peers, Write, Write);
    TakenGuarded(Peers, Read, Write);
    TakenGuarded(Pending, Write, Write);
    TakenGuarded(Seen, Write, Write);
    match op
    case CacheOnly(use) => TakenUse(use);
    case ProcessMessage(use) => TakenUse(use); TakenAppend(Guarded(Peers, Write), UseCache(use), Write);
    case HandleRequest(use) => TakenUse(use); TakenAppend(Guarded(Peers, Write), UseCache(use), Write);
    case HandleResponse(use) => WrittenByResponse(use);
    case BroadcastResource => WrittenByNested();
    case GossipUnparsable => WrittenByGossip(NoUse);
    case GossipParsed(use) => WrittenByGossip(use);
    case CleanStalePeers => WrittenByNested();
    case _ =>
  }

  lemma WrittenByResponse(use: CacheUse)
    ensures Taken(ProgramOf(HandleResponse(use)), Write) == [Peers, Pending] + if use == Store then [Cache] else []
  {
    hide Taken, UseCache, Guarded;
    TakenGuarded(Peers, Write, Write);
    TakenGuarded(Pending, Write, Write);
    TakenUse(use);
    TakenAppend(Guarded(Peers, Write), Guarded(Pending, Write), Write);
    TakenAppend(Guarded(Peers, Write) + Guarded(Pending, Write), UseCache(use), Write);
  }

  lemma WrittenByGossip(use: CacheUse)
    ensures Taken(ProgramOf(GossipParsed(use)), Write) == [Seen, Peers, Peers] + if use == Store then [Cache] else []
    ensures Taken(ProgramOf(GossipUnparsable), Write) == [Seen, Peers]
  {
    hide Taken, UseCache, Guarded;
    var first, peers, last := [Acquire(Seen, Write)], Guarded(Peers, Write), [Release(Seen)];
    TakenGuarded(Peers, Write, Write);
    TakenUse(use);
    TakenOne(first[0], Write);
    TakenOne(last[0], Write);
    TakenAppend(first, peers, Write);
    TakenAppend(first + peers, last, Write);
    TakenAppend(first + peers, peers, Write);
    TakenAppend(first + peers + peers, UseCache(use), Write);
    TakenAppend(first + peers + peers + UseCache(use), last, Write);
  }

  lemma WrittenByNested()
    ensures Taken(ProgramOf(BroadcastResource), Write) == [Cache]
    ensures Taken(ProgramOf(CleanStalePeers), Write) == [Peers, Seen]
  {
    NestedPrograms();
    hide Taken, Guarded, ProgramOf;
    TakenNested(Cache, Peers, Read);
    TakenNested(Peers, Seen, Write);
  }

  lemma NestedPrograms()
    ensures ProgramOf(BroadcastResource) == [Acquire(Cache, Write)] + Guarded(Peers, Read) + [Release(Cache)]
    ensures ProgramOf(CleanStalePeers) == [Acquire(Peers, Write)] + Guarded(Seen, Write) + [Release(Peers)]
  {
  }

  lemma TakenNested(outer: Lock, inner: Lock, mode: Mode)
    ensures Taken([Acquire(outer, Write)] + Guarded(inner, mode) + [Release(outer)], Write)
         == [outer] + if mode == Write then [inner] else []
  {
    hide Taken, Guarded;
    TakenOne(Acquire(outer, Write), Write);
    TakenOne(Release(outer), Write);
    TakenGuarded(inner, mode, Write);
    TakenAppend([Acquire(outer, Write)], Guarded(inner, mode), Write);
    TakenAppend([Acquire(outer, Write)] + Guarded(inner, mode), [Release(outer)], Write);
  }

  /** An operation takes for writing the locks of the maps that its sections change, in their order. */
  lemma LocksAreSections(s: H.State, op: O.Operation)
    requires Runs(s, op).Some?
    ensures Taken(ProgramOf(Runs(s, op).value), Write) == LocksOf(O.SectionsOf(s, op))
  {
    hide ProgramOf, Taken;
    Written(Runs(s, op).value);
    SectionsBefore(s, op);
  }

  lemma SectionsBefore(s: H.State, op: O.Operation)
    requires Runs(s, op).Some?
    ensures LocksOf(O.SectionsOf(s, op)) == WriteLocks(Runs(s, op).value)
  {
    match op
    case HandleGossipsub(_, _, _, _, _, _, _) => GossipBefore(s, op);
    case HandleResponse(_, _, _, _, _) => ResponseBefore(s, op);
    case _ =>
  }

  lemma ResponseBefore(s: H.State, op: O.Operation)
    requires op.HandleResponse?
    ensures LocksOf(O.SectionsOf(s, op)) == WriteLocks(Runs(s, op).value)
  {
  }

  lemma GossipBefore(s: H.State, op: O.Operation)
    requires op.HandleGossipsub?
    ensures LocksOf(O.SectionsOf(s, op)) == WriteLocks(Runs(s, op).value)
  {
  }

  // ---------- What is held meanwhile ----------

  function Inside(held: set<Lock>, lock: Lock): set<(Lock, Lock)> {
    set h | h in held :: (h, lock)
  }

  lemma NestingsGuard(lock: Lock, mode: Mode, rest: Program, held: set<Lock>)
    requires lock !in held
    ensures Nestings(Guarded(lock, mode) + rest, held) == Inside(held, lock) + Nestings(rest, held)
  {
    var p := Guarded(lock, mode) + rest;
    assert p[1..][1..] == rest && p[1..][0] == Release(lock) && held + {lock} - {lock} == held;
  }

  lemma NestingsUse(use: CacheUse, rest: Program, held: set<Lock>)
    requires Cache !in held
    ensures Nestings(UseCache(use) + rest, held)
         == (if use == NoUse then {} else Inside(held, Cache)) + Nestings(rest, held)
  {
    match use
    case NoUse => assert UseCache(use) + rest == rest;
    case Lookup => NestingsGuard(Cache, Read, rest, held);
    case Store => NestingsGuard(Cache, Write, rest, held);
  }

  lemma NestingsOuter(outer: Lock, inner: Program)
    ensures Nestings([Acquire(outer, Write)] + inner, {}) == Nestings(inner, {outer})
    ensures Nestings([], {}) == {} && Nestings([Release(outer)], {outer}) == {}
  {
    assert ([Acquire(outer, Write)] + inner)[1..] == inner && {} + {outer} == {outer};
    assert [Release(outer)][1..] == [] && {outer} - {outer} == {};
  }

  /**
   * Which locks are held while others are taken: the broadcaster's cache around the peers, the gossip
   * handler's seen ids around peers and cache, the cleaner's peers around the seen ids; and no others.
   */
  lemma NestingsAre(op: Operation)
    ensures Nestings(ProgramOf(op), {}) ==
              match op
              case BroadcastResource => {(Cache, Peers)}
              case GossipUnparsable => {(Seen, Peers)}
              case GossipParsed(use) => if use == NoUse then {(Seen, Peers)} else {(Seen, Peers), (Seen, Cache)}
              case CleanStalePeers => {(Peers, Seen)}
              case _ => {}
  {
    hide Nestings, UseCache, Guarded, ProgramOf;
    match op
    case BroadcastResource => NestedPrograms(); NestingsNested(Cache, Peers, Read);
    case CleanStalePeers => NestedPrograms(); NestingsNested(Peers, Seen, Write);
    case GossipUnparsable => GossipNestings(NoUse);
    case GossipParsed(use) => GossipNestings(use);
    case _ => FlatNestings(op);
  }

  lemma NestingsNested(outer: Lock, inner: Lock, mode: Mode)
    requires outer != inner
    ensures Nestings([Acquire(outer, Write)] + Guarded(inner, mode) + [Release(outer)], {}) == {(outer, inner)}
  {
    var rest := Guarded(inner, mode) + [Release(outer)];
    assert [Acquire(outer, Write)] + Guarded(inner, mode) + [Release(outer)] == [Acquire(outer, Write)] + rest;
    hide Nestings, Guarded;
    NestingsOuter(outer, rest);
    NestingsGuard(inner, mode, [Release(outer)], {outer});
    NestingsOuter(outer, []);
  }

  lemma GossipNestings(use: CacheUse)
    ensures Nestings(ProgramOf(GossipUnparsable), {}) == {(Seen, Peers)}
    ensures Nestings(ProgramOf(GossipParsed(use)), {})
         == if use == NoUse then {(Seen, Peers)} else {(Seen, Peers), (Seen, Cache)}
  {
    hide Nestings, Guarded, UseCache;
    var peers, last := Guarded(Peers, Write), [Release(Seen)];
    assert ProgramOf(GossipUnparsable) == [Acquire(Seen, Write)] + (peers + last);
    assert ProgramOf(GossipParsed(use)) == [Acquire(Seen, Write)] + (peers + (peers + (UseCache(use) + last)));
    NestingsOuter(Seen, peers + last);
    NestingsOuter(Seen, peers + (peers + (UseCache(use) + last)));
    NestingsGuard(Peers, Write, last, {Seen});
    NestingsGuard(Peers, Write, peers + (UseCache(use) + last), {Seen});
    NestingsGuard(Peers, Write, UseCache(use) + last, {Seen});
    NestingsUse(use, last, {Seen});
  }

  lemma FlatNestings(op: Operation)
    requires !op.BroadcastResource? && !op.CleanStalePeers? && !op.GossipUnparsable? && !op.GossipParsed?
    ensures Nestings(ProgramOf(op), {}) == {}
  {
    NestingsOuter(Seen, []);
    hide Nestings, Guarded, UseCache;
    match op
    case CountPeers => FlatGuard(Peers, Read);
    case GossipDuplicate => FlatGuard(Seen, Write);
    case CacheOnly(use) => FlatUse(use);
    case ProcessMessage(use) => FlatUse(use); NestingsGuard(Peers, Write, UseCache(use), {});
    case HandleRequest(use) => FlatUse(use); NestingsGuard(Peers, Write, UseCache(use), {});
    case HandleResponse(use) =>
      FlatUse(use);
      NestingsGuard(Pending, Write, UseCache(use), {});
      NestingsGuard(Peers, Write, Guarded(Pending, Write) + UseCache(use), {});
      assert ProgramOf(op) == Guarded(Peers, Write) + (Guarded(Pending, Write) + UseCache(use));
    case _ => FlatGuard(Peers, Write);
  }

  lemma FlatGuard(lock: Lock, mode: Mode)
    ensures Nestings(Guarded(lock, mode), {}) == {}
  {
    NestingsGuard(lock, mode, [], {});
    assert Guarded(lock, mode) + [] == Guarded(lock, mode);
  }

  lemma FlatUse(use: CacheUse)
    ensures Nestings(UseCache(use), {}) == {}
  {
    NestingsUse(use, [], {});
    assert UseCache(use) + [] == UseCache(use);
  }
}
