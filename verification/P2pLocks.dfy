/**
 * The locks of `P2pHandler`: which operations can run together without ever blocking one
 * another for good. Locks are tokio's `RwLock`: many readers or one writer, served in order of
 * arrival. A task that is dropped leaves the queue and releases what it holds.
 */
module P2pLocks {
  import opened Sequences

  datatype Lock = Seen | Cache | Peers | Pending

  datatype Mode = Read | Write

  datatype Instruction = Acquire(lock: Lock, mode: Mode) | Release(lock: Lock)

  type Program = seq<Instruction>

  /** What an operation does to the cache: nothing, look something up, or store something. */
  datatype CacheUse = NoUse | Lookup | Store

  /** The operations of `P2pHandler`, by the branch they take. */
  datatype Operation =
    | UpdatePeerState
    | RegisterPeer
    | UnregisterPeer
    | CleanupPeers
    | CountPeers
    | CacheOnly(use: CacheUse)
    | ProcessMessage(use: CacheUse)
    | HandleRequest(use: CacheUse)
    | HandleResponse(use: CacheUse)
    | BroadcastResource
    | GossipDuplicate
    | GossipUnparsable
    | GossipParsed(use: CacheUse)
    | CleanStalePeers

  function Guarded(lock: Lock, mode: Mode): Program {
    [Acquire(lock, mode), Release(lock)]
  }

  function UseCache(use: CacheUse): Program {
    match use
    case NoUse => []
    case Lookup => Guarded(Cache, Read)
    case Store => Guarded(Cache, Write)
  }

  function ProgramOf(op: Operation): Program {
    match op
    case UpdatePeerState | RegisterPeer | UnregisterPeer | CleanupPeers => Guarded(Peers, Write)
    case CountPeers => Guarded(Peers, Read)
    case CacheOnly(use) => UseCache(use)
    case ProcessMessage(use) => Guarded(Peers, Write) + UseCache(use)
    case HandleRequest(use) => Guarded(Peers, Write) + UseCache(use)
    case HandleResponse(use) => Guarded(Peers, Write) + Guarded(Pending, Write) + UseCache(use)
    case BroadcastResource => [Acquire(Cache, Write), Acquire(Peers, Read), Release(Peers), Release(Cache)]
    case GossipDuplicate => Guarded(Seen, Write)
    case GossipUnparsable => [Acquire(Seen, Write)] + Guarded(Peers, Write) + [Release(Seen)]
    case GossipParsed(use) =>
      [Acquire(Seen, Write)] + Guarded(Peers, Write) + Guarded(Peers, Write) + UseCache(use) + [Release(Seen)]
    case CleanStalePeers => [Acquire(Peers, Write), Acquire(Seen, Write), Release(Seen), Release(Peers)]
  }

  // ---------- The transition system ----------

  datatype Task = Task(rest: Program, held: map<Lock, Mode>)

  /** `waiting`: the tasks queued for their next lock, in order of arrival. */
  datatype State = State(tasks: seq<Task>, waiting: seq<nat>)

  datatype Step = Request(t: nat) | Grant(t: nat) | Free(t: nat) | Cancel(t: nat)

  function Init(ops: seq<Operation>): State {
    State(seq(|ops|, i requires 0 <= i < |ops| => Task(ProgramOf(ops[i]), map[])), [])
  }

  predicate Unfinished(s: State, t: nat) {
    t < |s.tasks| && s.tasks[t].rest != []
  }

  predicate Acquiring(s: State, t: nat) {
    Unfinished(s, t) && s.tasks[t].rest[0].Acquire?
  }

  function Wanted(s: State, t: nat): Instruction
    requires Acquiring(s, t)
  {
    s.tasks[t].rest[0]
  }

  // Task `u` holds the lock `want` asks for, in a mode that excludes it.
  predicate Conflicts(s: State, want: Instruction, u: nat)
    requires want.Acquire?
  {
    u < |s.tasks| && want.lock in s.tasks[u].held && (want.mode == Write || s.tasks[u].held[want.lock] == Write)
  }

  // Task `u` came to the same lock before task `t`.
  predicate Ahead(s: State, u: nat, t: nat)
    requires Acquiring(s, t)
  {
    exists i, j | 0 <= i < j < |s.waiting| ::
      s.waiting[i] == u && s.waiting[j] == t && Acquiring(s, u) && Wanted(s, u).lock == Wanted(s, t).lock
  }

  ghost predicate Enabled(s: State, step: Step) {
    match step
    case Request(t) => Acquiring(s, t) && t !in s.waiting
    case Grant(t) =>
      && Acquiring(s, t) && t in s.waiting
      && (forall u :: !Ahead(s, u, t))
      && (forall u :: !Conflicts(s, Wanted(s, t), u))
    case Free(t) => Unfinished(s, t) && s.tasks[t].rest[0].Release?
    case Cancel(t) => Unfinished(s, t)
  }

  function Without(waiting: seq<nat>, t: nat): (r: seq<nat>)
    ensures t !in r
    ensures forall u | u != t :: u in r <==> u in waiting
  {
    if waiting == [] then []
    else if waiting[0] == t then Without(waiting[1..], t)
    else [waiting[0]] + Without(waiting[1..], t)
  }

  function Advance(task: Task): Task
    requires task.rest != []
  {
    var Task(rest, held) := task;
    match rest[0]
    case Acquire(lock, mode) => Task(rest[1..], held[lock := mode])
    case Release(lock) => Task(rest[1..], held - {lock})
  }

  ghost function Apply(s: State, step: Step): State
    requires Enabled(s, step)
  {
    match step
    case Request(t) => s.(waiting := s.waiting + [t])
    case Grant(t) => State(s.tasks[t := Advance(s.tasks[t])], Without(s.waiting, t))
    case Free(t) => s.(tasks := s.tasks[t := Advance(s.tasks[t])])
    case Cancel(t) => State(s.tasks[t := Task([], map[])], Without(s.waiting, t))
  }

  ghost predicate Reaches(s: State, steps: seq<Step>, t: State)
    decreases |steps|
  {
    if steps == [] then s == t
    else Enabled(s, steps[0]) && Reaches(Apply(s, steps[0]), steps[1..], t)
  }

  // ---------- Deadlock ----------

  /** What keeps `t` from its lock: someone who came first, or someone who has it. */
  ghost predicate BlockedBy(s: State, t: nat, u: nat) {
    Acquiring(s, t) && (Ahead(s, u, t) || Conflicts(s, Wanted(s, t), u))
  }

  /** A set of queued tasks each of which is kept waiting by another of them. */
  ghost predicate Deadlock(s: State, d: set<nat>) {
    d != {} && forall t {:trigger KeptWaiting(s, d, t)} | t in d :: KeptWaiting(s, d, t)
  }

  ghost predicate KeptWaiting(s: State, d: set<nat>, t: nat) {
    t in s.waiting && exists u | u in d :: BlockedBy(s, t, u)
  }

  // ---------- Lock order ----------

  /**
   * The two orders of the locks: without cleaning, `Seen` first and `Peers` after `Cache`; with
   * cleaning (`cleaning`), `Seen` last.
   */
  function Rank(cleaning: bool, lock: Lock): nat {
    match lock
    case Cache => 1
    case Peers => 2
    case Pending => 3
    case Seen => if cleaning then 4 else 0
  }

  /** The program acquires only above what it holds, and ends with nothing held. */
  predicate Ordered(cleaning: bool, rest: Program, held: set<Lock>) {
    if rest == [] then held == {} else
      match rest[0]
      case Acquire(lock, _) =>
        && (forall h | h in held :: Rank(cleaning, h) < Rank(cleaning, lock))
        && Ordered(cleaning, rest[1..], held + {lock})
      case Release(lock) => Ordered(cleaning, rest[1..], held - {lock})
  }

  ghost predicate QueueOk(s: State) {
    Distinct(s.waiting) && forall t | t in s.waiting :: Acquiring(s, t)
  }

  ghost predicate OrderedState(cleaning: bool, s: State) {
    QueueOk(s) && forall t | 0 <= t < |s.tasks| :: Ordered(cleaning, s.tasks[t].rest, s.tasks[t].held.Keys)
  }

  predicate NestsGossip(op: Operation) {
    op.GossipUnparsable? || op.GossipParsed?
  }

  /** The operations that keep to one of the two orders. */
  predicate KeepsOrder(cleaning: bool, op: Operation) {
    if cleaning then !NestsGossip(op) else !op.CleanStalePeers?
  }

  lemma OrderedGuard(cleaning: bool, lock: Lock, mode: Mode, rest: Program, held: set<Lock>)
    requires forall h | h in held :: Rank(cleaning, h) < Rank(cleaning, lock)
    requires Ordered(cleaning, rest, held)
    ensures Ordered(cleaning, Guarded(lock, mode) + rest, held)
  {
    var p := Guarded(lock, mode) + rest;
    assert p[1..][1..] == rest && held + {lock} - {lock} == held;
    assert p[1..][0] == Release(lock);
  }

  lemma OrderedUse(cleaning: bool, use: CacheUse, rest: Program, held: set<Lock>)
    requires held == {} || (held == {Seen} && !cleaning)
    requires Ordered(cleaning, rest, held)
    ensures Ordered(cleaning, UseCache(use) + rest, held)
  {
    match use
    case NoUse => assert UseCache(use) + rest == rest;
    case Lookup => OrderedGuard(cleaning, Cache, Read, rest, held);
    case Store => OrderedGuard(cleaning, Cache, Write, rest, held);
  }

  lemma OrderedOutside(cleaning: bool, lock: Lock, inner: Program)
    requires Ordered(cleaning, inner + [Release(lock)], {lock})
    ensures Ordered(cleaning, [Acquire(lock, Write)] + inner + [Release(lock)], {})
  {
    var p := [Acquire(lock, Write)] + inner + [Release(lock)];
    assert p[1..] == inner + [Release(lock)] && {} + {lock} == {lock};
  }

  lemma OrderedEnd(cleaning: bool, lock: Lock)
    ensures Ordered(cleaning, [], {}) && Ordered(cleaning, [Release(lock)], {lock})
  {
    assert [Release(lock)][1..] == [];
    assert {lock} - {lock} == {};
  }

  lemma OrderedAlone(cleaning: bool, lock: Lock, mode: Mode)
    ensures Ordered(cleaning, Guarded(lock, mode), {})
  {
    OrderedEnd(cleaning, lock);
    OrderedGuard(cleaning, lock, mode, [], {});
    assert Guarded(lock, mode) + [] == Guarded(lock, mode);
  }

  lemma OrderedResponse(cleaning: bool, use: CacheUse)
    ensures Ordered(cleaning, ProgramOf(HandleResponse(use)), {})
  {
    OrderedEnd(cleaning, Seen);
    OrderedUse(cleaning, use, [], {});
    assert UseCache(use) + [] == UseCache(use);
    hide Ordered, UseCache;
    OrderedGuard(cleaning, Pending, Write, UseCache(use), {});
    OrderedGuard(cleaning, Peers, Write, Guarded(Pending, Write) + UseCache(use), {});
    assert ProgramOf(HandleResponse(use)) == Guarded(Peers, Write) + (Guarded(Pending, Write) + UseCache(use));
  }

  lemma OrderedGossip(cleaning: bool, use: CacheUse)
    requires !cleaning
    ensures Ordered(cleaning, ProgramOf(GossipParsed(use)), {})
  {
    var last := [Release(Seen)];
    OrderedEnd(cleaning, Seen);
    hide Ordered, UseCache;
    OrderedUse(cleaning, use, last, {Seen});
    OrderedGuard(cleaning, Peers, Write, UseCache(use) + last, {Seen});
    OrderedGuard(cleaning, Peers, Write, Guarded(Peers, Write) + (UseCache(use) + last), {Seen});
    var inner := Guarded(Peers, Write) + Guarded(Peers, Write) + UseCache(use);
    assert Guarded(Peers, Write) + (Guarded(Peers, Write) + (UseCache(use) + last)) == inner + last;
    OrderedOutside(cleaning, Seen, inner);
    assert ProgramOf(GossipParsed(use)) == [Acquire(Seen, Write)] + inner + last;
  }

  /** Every operation that keeps to the order has a program that does. */
  lemma OrderedProgram(cleaning: bool, op: Operation)
    requires KeepsOrder(cleaning, op)
    ensures Ordered(cleaning, ProgramOf(op), {})
  {
    hide Ordered, UseCache;
    OrderedEnd(cleaning, Seen);
    match op
    case CacheOnly(use) => OrderedUse(cleaning, use, [], {}); assert UseCache(use) + [] == UseCache(use);
    case ProcessMessage(use) => OrderedUseAfterPeers(cleaning, use);
    case HandleRequest(use) => OrderedUseAfterPeers(cleaning, use);
    case HandleResponse(use) => OrderedResponse(cleaning, use);
    case BroadcastResource =>
      OrderedEnd(cleaning, Cache);
      OrderedGuard(cleaning, Peers, Read, [Release(Cache)], {Cache});
      OrderedOutside(cleaning, Cache, Guarded(Peers, Read));
      assert ProgramOf(op) == [Acquire(Cache, Write)] + Guarded(Peers, Read) + [Release(Cache)];
    case GossipUnparsable =>
      OrderedGuard(cleaning, Peers, Write, [Release(Seen)], {Seen});
      OrderedOutside(cleaning, Seen, Guarded(Peers, Write));
    case GossipParsed(use) => OrderedGossip(cleaning, use);
    case CleanStalePeers =>
      OrderedEnd(cleaning, Peers);
      OrderedGuard(cleaning, Seen, Write, [Release(Peers)], {Peers});
      OrderedOutside(cleaning, Peers, Guarded(Seen, Write));
      assert ProgramOf(op) == [Acquire(Peers, Write)] + Guarded(Seen, Write) + [Release(Peers)];
    case CountPeers => OrderedAlone(cleaning, Peers, Read);
    case GossipDuplicate => OrderedAlone(cleaning, Seen, Write);
    case _ => OrderedAlone(cleaning, Peers, Write);
  }

  lemma OrderedUseAfterPeers(cleaning: bool, use: CacheUse)
    ensures Ordered(cleaning, Guarded(Peers, Write) + UseCache(use), {})
  {
    OrderedEnd(cleaning, Peers);
    OrderedUse(cleaning, use, [], {});
    assert UseCache(use) + [] == UseCache(use);
    OrderedGuard(cleaning, Peers, Write, UseCache(use), {});
  }

  // ---------- Steps ----------

  lemma {:induction false} WithoutKeepsOrder(waiting: seq<nat>, t: nat, i: nat, j: nat) returns (i': nat, j': nat)
    requires i < j < |waiting| && waiting[i] != t && waiting[j] != t
    ensures var w := Without(waiting, t);
            i' < j' < |w| && w[i'] == waiting[i] && w[j'] == waiting[j]
  {
    if i > 0 {
      i', j' := WithoutKeepsOrder(waiting[1..], t, i - 1, j - 1);
      if waiting[0] != t { i', j' := i' + 1, j' + 1; }
    } else {
      assert waiting[1..][j - 1] in Without(waiting[1..], t);
      j' :| 0 <= j' < |Without(waiting[1..], t)| && Without(waiting[1..], t)[j'] == waiting[j];
      i', j' := 0, j' + 1;
    }
  }

  lemma {:induction false} WithoutDistinct(waiting: seq<nat>, t: nat)
    requires Distinct(waiting)
    ensures Distinct(Without(waiting, t))
  {
    if waiting != [] {
      WithoutDistinct(waiting[1..], t);
      assert waiting[0] !in waiting[1..];
    }
  }

  lemma QueueKept(s: State, step: Step)
    requires QueueOk(s) && Enabled(s, step)
    ensures QueueOk(Apply(s, step))
  {
    match step
    case Request(t) =>
    case Grant(t) => WithoutDistinct(s.waiting, t);
    case Free(t) =>
    case Cancel(t) => WithoutDistinct(s.waiting, t);
  }

  lemma OrderKept(cleaning: bool, s: State, step: Step)
    requires OrderedState(cleaning, s) && Enabled(s, step)
    ensures OrderedState(cleaning, Apply(s, step))
  {
    QueueKept(s, step);
    if !step.Request? {
      var t := step.t;
      var task := s.tasks[t];
      if !step.Cancel? {
        var lock := task.rest[0].lock;
        if step.Grant? {
          assert task.held[lock := task.rest[0].mode].Keys == task.held.Keys + {lock};
        } else {
          assert (task.held - {lock}).Keys == task.held.Keys - {lock};
        }
      }
    }
  }

  lemma {:induction false} RunOrdered(cleaning: bool, s: State, steps: seq<Step>, t: State)
    requires OrderedState(cleaning, s) && Reaches(s, steps, t)
    ensures OrderedState(cleaning, t)
    decreases |steps|
  {
    if steps != [] {
      OrderKept(cleaning, s, steps[0]);
      RunOrdered(cleaning, Apply(s, steps[0]), steps[1..], t);
    }
  }

  lemma InitOrdered(cleaning: bool, ops: seq<Operation>)
    requires forall op | op in ops :: KeepsOrder(cleaning, op)
    ensures OrderedState(cleaning, Init(ops))
  {
    var nothing: map<Lock, Mode> := map[];
    assert nothing.Keys == {};
    forall t | 0 <= t < |ops| ensures Ordered(cleaning, ProgramOf(ops[t]), nothing.Keys) {
      OrderedProgram(cleaning, ops[t]);
    }
  }

  // ---------- What the locks promise ----------

  /** Two tasks hold one lock only to read. */
  predicate Exclusive(s: State) {
    forall t, u, l | 0 <= t < u < |s.tasks| && l in s.tasks[t].held && l in s.tasks[u].held ::
      s.tasks[t].held[l] == Read && s.tasks[u].held[l] == Read
  }

  lemma ExclusiveKept(s: State, step: Step)
    requires Exclusive(s) && Enabled(s, step)
    ensures Exclusive(Apply(s, step))
  {
    if step.Grant? {
      var t := step.t;
      forall u ensures !Conflicts(s, Wanted(s, t), u) {}
      assert forall u | 0 <= u < |s.tasks| && Wanted(s, t).lock in s.tasks[u].held ::
               Wanted(s, t).mode == Read && s.tasks[u].held[Wanted(s, t).lock] == Read by {
        forall u | 0 <= u < |s.tasks| && Wanted(s, t).lock in s.tasks[u].held
          ensures Wanted(s, t).mode == Read && s.tasks[u].held[Wanted(s, t).lock] == Read
        {
          assert !Conflicts(s, Wanted(s, t), u);
        }
      }
    }
  }

  lemma {:induction false} StaysExclusive(s: State, steps: seq<Step>, t: State)
    requires Exclusive(s) && Reaches(s, steps, t)
    ensures Exclusive(t)
    decreases |steps|
  {
    if steps != [] {
      ExclusiveKept(s, steps[0]);
      StaysExclusive(Apply(s, steps[0]), steps[1..], t);
    }
  }

  /** In every state that any operations reach, a writer excludes everyone else and a reader every writer. */
  lemma MutualExclusion(ops: seq<Operation>, steps: seq<Step>, s: State)
    requires Reaches(Init(ops), steps, s)
    ensures forall t, u, l | 0 <= t < u < |s.tasks| && l in s.tasks[t].held && l in s.tasks[u].held ::
              s.tasks[t].held[l] == Read && s.tasks[u].held[l] == Read
  {
    StaysExclusive(Init(ops), steps, s);
  }

  /** A lock is given to no task while another, queued before it, waits for the same lock. */
  lemma ServedInOrder(s: State, i: nat, j: nat)
    requires QueueOk(s) && i < j < |s.waiting| && Wanted(s, s.waiting[i]).lock == Wanted(s, s.waiting[j]).lock
    ensures !Enabled(s, Grant(s.waiting[j]))
  {
    assert Ahead(s, s.waiting[i], s.waiting[j]);
  }

  // ---------- No deadlock ----------

  // Following who blocks whom climbs the order or moves up the queue, and neither goes on for ever.
  lemma {:induction false} ChainEnds(cleaning: bool, s: State, d: set<nat>, j: nat)
    requires OrderedState(cleaning, s) && Deadlock(s, d) && j < |s.waiting| && s.waiting[j] in d
    ensures false
    decreases 4 - Rank(cleaning, Wanted(s, s.waiting[j]).lock), j
  {
    var t := s.waiting[j];
    assert KeptWaiting(s, d, t);
    var u :| u in d && BlockedBy(s, t, u);
    assert KeptWaiting(s, d, u);
    if Conflicts(s, Wanted(s, t), u) {
      var k :| 0 <= k < |s.waiting| && s.waiting[k] == u;
      ChainEnds(cleaning, s, d, k);
    } else {
      var i, k :| 0 <= i < k < |s.waiting| && s.waiting[i] == u && s.waiting[k] == t
               && Acquiring(s, u) && Wanted(s, u).lock == Wanted(s, t).lock;
      ChainEnds(cleaning, s, d, i);
    }
  }

  lemma OrderedHasNoDeadlock(cleaning: bool, s: State, d: set<nat>)
    requires OrderedState(cleaning, s)
    ensures !Deadlock(s, d)
  {
    if Deadlock(s, d) {
      var t :| t in d;
      assert KeptWaiting(s, d, t);
      var j :| 0 <= j < |s.waiting| && s.waiting[j] == t;
      ChainEnds(cleaning, s, d, j);
    }
  }

  // When nothing can step, every unfinished task is kept waiting by another.
  lemma NothingStepsMeansDeadlock(cleaning: bool, s: State, t: nat) returns (d: set<nat>)
    requires OrderedState(cleaning, s) && Unfinished(s, t)
    requires forall step | Enabled(s, step) :: step.Cancel?
    ensures Deadlock(s, d)
  {
    d := set u | 0 <= u < |s.tasks| && Unfinished(s, u);
    assert t in d;
    forall u | u in d ensures KeptWaiting(s, d, u) {
      assert !Enabled(s, Free(u)) && !Enabled(s, Request(u)) && !Enabled(s, Grant(u));
      var v :| Ahead(s, v, u) || Conflicts(s, Wanted(s, u), v);
      assert BlockedBy(s, u, v);
      assert Unfinished(s, v);
    }
  }

  /**
   * Operations that all keep to one order never block for good: in every state they reach, as
   * long as one is unfinished one of them can go on, and nobody need be cancelled.
   */
  lemma SomeoneCanStep(cleaning: bool, ops: seq<Operation>, steps: seq<Step>, s: State, t: nat) returns (step: Step)
    requires forall op | op in ops :: KeepsOrder(cleaning, op)
    requires Reaches(Init(ops), steps, s) && Unfinished(s, t)
    ensures Enabled(s, step) && !step.Cancel?
  {
    InitOrdered(cleaning, ops);
    RunOrdered(cleaning, Init(ops), steps, s);
    if forall step | Enabled(s, step) :: step.Cancel? {
      var d := NothingStepsMeansDeadlock(cleaning, s, t);
      OrderedHasNoDeadlock(cleaning, s, d);
    }
    step :| Enabled(s, step) && !step.Cancel?;
  }

  // ---------- Deadlock ----------

  lemma StillBlocked(s: State, d: set<nat>, step: Step, t: nat, u: nat)
    requires Enabled(s, step) && t in d && u in d && BlockedBy(s, t, u) && step.t !in d
    ensures BlockedBy(Apply(s, step), t, u)
  {
    var s' := Apply(s, step);
    if Ahead(s, u, t) {
      var i, j :| 0 <= i < j < |s.waiting| && s.waiting[i] == u && s.waiting[j] == t
               && Acquiring(s, u) && Wanted(s, u).lock == Wanted(s, t).lock;
      if step.Grant? || step.Cancel? {
        var i', j' := WithoutKeepsOrder(s.waiting, step.t, i, j);
      } else {
        assert s'.waiting[i] == u && s'.waiting[j] == t;
      }
      assert Ahead(s', u, t);
    } else {
      assert Conflicts(s', Wanted(s', t), u);
    }
  }

  /** A deadlock lasts until one of its members is cancelled. */
  lemma DeadlockPersists(s: State, d: set<nat>, step: Step)
    requires Deadlock(s, d) && Enabled(s, step)
    requires step.Cancel? ==> step.t !in d
    ensures Deadlock(Apply(s, step), d)
  {
    var s' := Apply(s, step);
    assert step.t in d ==> KeptWaiting(s, d, step.t);
    forall t | t in d ensures KeptWaiting(s', d, t) {
      assert KeptWaiting(s, d, t);
      var u :| u in d && BlockedBy(s, t, u);
      StillBlocked(s, d, step, t, u);
    }
  }

  lemma {:induction false} DeadlockIsForever(s: State, d: set<nat>, steps: seq<Step>, t: State)
    requires Deadlock(s, d) && Reaches(s, steps, t)
    requires forall step | step in steps && step.Cancel? :: step.t !in d
    ensures Deadlock(t, d)
    decreases |steps|
  {
    if steps != [] {
      DeadlockPersists(s, d, steps[0]);
      DeadlockIsForever(Apply(s, steps[0]), d, steps[1..], t);
    }
  }

  lemma {:induction false} ReachesMore(s: State, steps: seq<Step>, t: State, step: Step)
    requires Reaches(s, steps, t) && Enabled(t, step)
    ensures Reaches(s, steps + [step], Apply(t, step))
    decreases |steps|
  {
    var all := steps + [step];
    if steps == [] {
      assert all[1..] == [];
    } else {
      assert all[1..] == steps[1..] + [step];
      ReachesMore(Apply(s, steps[0]), steps[1..], t, step);
    }
  }

  // One task takes its first lock: it asks, and is served at once.
  lemma TakeFirst(init: State, steps: seq<Step>, s: State, t: nat) returns (all: seq<Step>, s': State)
    requires Reaches(init, steps, s) && Acquiring(s, t) && s.waiting == []
    requires forall u :: !Conflicts(s, Wanted(s, t), u)
    ensures Reaches(init, all, s')
    ensures s' == State(s.tasks[t := Advance(s.tasks[t])], [])
  {
    ReachesMore(init, steps, s, Request(t));
    var mid := Apply(s, Request(t));
    assert mid.waiting == [t];
    assert Wanted(mid, t) == Wanted(s, t);
    forall u ensures !Conflicts(mid, Wanted(mid, t), u) && !Ahead(mid, u, t) {
      assert Conflicts(mid, Wanted(mid, t), u) <==> Conflicts(s, Wanted(s, t), u);
    }
    ReachesMore(init, steps + [Request(t)], mid, Grant(t));
    s' := Apply(mid, Grant(t));
    assert Without([t], t) == [];
    all := steps + [Request(t)] + [Grant(t)];
  }

  /** A cleaner and a fresh gossip message can reach a state in which each waits for the other. */
  lemma CleaningAndGossipDeadlock(ops: seq<Operation>, c: nat, g: nat)
    returns (steps: seq<Step>, s: State)
    requires c < |ops| && g < |ops| && ops[c] == CleanStalePeers && NestsGossip(ops[g])
    ensures Reaches(Init(ops), steps, s) && Deadlock(s, {c, g})
  {
    hide BlockedBy, KeptWaiting, Without;
    var init := Init(ops);
    assert init.tasks[c].rest == ProgramOf(CleanStalePeers);
    assert init.tasks[g].rest[0] == Acquire(Seen, Write) && init.tasks[g].rest[1] == Acquire(Peers, Write);
    steps, s := TakeFirst(init, [], init, c);
    steps, s := TakeFirst(init, steps, s, g);
    assert s.tasks[c] == Task(ProgramOf(CleanStalePeers)[1..], map[Peers := Write]);
    assert Acquiring(s, c) && Wanted(s, c) == Acquire(Seen, Write);
    assert Acquiring(s, g) && Wanted(s, g) == Acquire(Peers, Write);
    assert Seen in s.tasks[g].held && s.tasks[g].held[Seen] == Write;
    ReachesMore(init, steps, s, Request(c));
    steps, s := steps + [Request(c)], Apply(s, Request(c));
    ReachesMore(init, steps, s, Request(g));
    steps, s := steps + [Request(g)], Apply(s, Request(g));
    assert s.waiting == [c, g];
    MutualWait(s, c, g);
  }

  lemma MutualWait(s: State, c: nat, g: nat)
    requires s.waiting == [c, g] && Acquiring(s, c) && Acquiring(s, g)
    requires Conflicts(s, Wanted(s, c), g) && Conflicts(s, Wanted(s, g), c)
    ensures Deadlock(s, {c, g})
  {
    assert BlockedBy(s, c, g) && BlockedBy(s, g, c);
    assert KeptWaiting(s, {c, g}, c) && KeptWaiting(s, {c, g}, g);
  }

  ghost predicate CanDeadlock(ops: seq<Operation>) {
    exists steps, s, d :: Reaches(Init(ops), steps, s) && Deadlock(s, d)
  }

  /**
   * Operations running together can deadlock exactly when one of them cleans stale peers and
   * another handles a gossip message it has not seen.
   */
  lemma DeadlockIff(ops: seq<Operation>)
    ensures CanDeadlock(ops) <==> CleanStalePeers in ops && exists op :: op in ops && NestsGossip(op)
  {
    if CleanStalePeers in ops && exists op :: op in ops && NestsGossip(op) {
      var c :| 0 <= c < |ops| && ops[c] == CleanStalePeers;
      var op :| op in ops && NestsGossip(op);
      var g :| 0 <= g < |ops| && ops[g] == op;
      var steps, s := CleaningAndGossipDeadlock(ops, c, g);
    } else if CanDeadlock(ops) {
      var steps, s, d :| Reaches(Init(ops), steps, s) && Deadlock(s, d);
      var cleaning := CleanStalePeers in ops;
      InitOrdered(cleaning, ops);
      RunOrdered(cleaning, Init(ops), steps, s);
      OrderedHasNoDeadlock(cleaning, s, d);
    }
  }
}
