/**
 * Operations of `P2pHandler` running at once, a section at a time: what `P2pHistory` says of
 * sequences of sections holds of them, and their messages are counted however they interleave.
 */
module P2pInterleaving {
  import opened P2pHandler
  import opened P2pHistory
  import opened P2pOperations

  /**
   * An operation under way: the sections it still has to run, as far as it knows them; whether it
   * is past its opening; and, past it, whether it was about a new gossip message.
   */
  datatype Task = Task(op: Operation, rest: seq<Section>, closing: bool, isNew: bool)

  datatype Weave = Weave(state: State, tasks: seq<Task>)

  function Begin(op: Operation): Task {
    Task(op, Opening(op), false, false)
  }

  function BeginAll(s: State, ops: seq<Operation>): Weave {
    Weave(s, seq(|ops|, i requires 0 <= i < |ops| => Begin(ops[i])))
  }

  // The task after its next section, run in `s`: the last one of the opening settles how it goes on.
  function Advance(s: State, t: Task): Task
    requires t.rest != []
  {
    if !t.closing && |t.rest| == 1 then Task(t.op, Closing(s, t.op), true, IsNew(s, t.op))
    else t.(rest := t.rest[1..])
  }

  predicate CanStep(w: Weave, i: nat) {
    i < |w.tasks| && w.tasks[i].rest != []
  }

  function StepTask(w: Weave, i: nat): Weave
    requires CanStep(w, i)
  {
    Weave(Apply(w.state, w.tasks[i].rest[0]), w.tasks[i := Advance(w.state, w.tasks[i])])
  }

  /** A schedule names the task that runs its next section, one after the other. */
  predicate IsSchedule(w: Weave, schedule: seq<nat>)
    decreases |schedule|
  {
    schedule == [] || (CanStep(w, schedule[0]) && IsSchedule(StepTask(w, schedule[0]), schedule[1..]))
  }

  function Finally(w: Weave, schedule: seq<nat>): (v: Weave)
    requires IsSchedule(w, schedule)
    ensures |v.tasks| == |w.tasks|
    decreases |schedule|
  {
    if schedule == [] then w else Finally(StepTask(w, schedule[0]), schedule[1..])
  }

  /** The sections in the order in which they were run. */
  function Trace(w: Weave, schedule: seq<nat>): seq<Section>
    requires IsSchedule(w, schedule)
    decreases |schedule|
  {
    if schedule == [] then []
    else [w.tasks[schedule[0]].rest[0]] + Trace(StepTask(w, schedule[0]), schedule[1..])
  }

  /** Whatever the schedule, the handler went through the sections of the trace. */
  lemma {:induction false} WeaveIsRun(w: Weave, schedule: seq<nat>)
    requires IsSchedule(w, schedule)
    ensures Finally(w, schedule).state == Run(w.state, Trace(w, schedule))
    decreases |schedule|
  {
    if schedule != [] {
      hide Apply, Advance;
      var next, section := StepTask(w, schedule[0]), w.tasks[schedule[0]].rest[0];
      WeaveIsRun(next, schedule[1..]);
      RunOne(w.state, section);
      RunAppend(w.state, [section], Trace(next, schedule[1..]));
    }
  }

  // ---------- Alone ----------

  lemma {:induction false} RestAlone(w: Weave) returns (schedule: seq<nat>)
    requires |w.tasks| == 1 && w.tasks[0].closing
    ensures IsSchedule(w, schedule) && Trace(w, schedule) == w.tasks[0].rest
    ensures Finally(w, schedule).tasks[0].rest == []
    decreases |w.tasks[0].rest|
  {
    schedule := [];
    if w.tasks[0].rest != [] {
      schedule := RestAlone(StepTask(w, 0));
      schedule := Prepend(w, schedule);
    }
  }

  lemma Prepend(w: Weave, rest: seq<nat>) returns (schedule: seq<nat>)
    requires |w.tasks| == 1 && CanStep(w, 0) && IsSchedule(StepTask(w, 0), rest)
    ensures IsSchedule(w, schedule)
    ensures Trace(w, schedule) == [w.tasks[0].rest[0]] + Trace(StepTask(w, 0), rest)
    ensures Finally(w, schedule) == Finally(StepTask(w, 0), rest)
  {
    schedule := [0] + rest;
    assert schedule[1..] == rest;
  }

  // No section of an opening but the last has a say in how the operation goes on.
  lemma ClosingSettled(s: State, op: Operation, j: nat)
    requires j + 1 < |Opening(op)|
    ensures Closing(Apply(s, Opening(op)[j]), op) == Closing(s, op)
  {
  }

  lemma {:induction false} OpeningAlone(w: Weave, j: nat) returns (schedule: seq<nat>)
    requires |w.tasks| == 1 && !w.tasks[0].closing
    requires j < |Opening(w.tasks[0].op)| && w.tasks[0].rest == Opening(w.tasks[0].op)[j..]
    ensures IsSchedule(w, schedule) && Finally(w, schedule).tasks[0].rest == []
    ensures Trace(w, schedule) == w.tasks[0].rest + Closing(w.state, w.tasks[0].op)
    decreases |Opening(w.tasks[0].op)| - j
  {
    hide Opening, Closing, Apply;
    var next := StepTask(w, 0);
    if j + 1 < |Opening(w.tasks[0].op)| {
      ClosingSettled(w.state, w.tasks[0].op, j);
      schedule := OpeningAlone(next, j + 1);
    } else {
      schedule := RestAlone(next);
    }
    schedule := Prepend(w, schedule);
  }

  /** An operation that runs alone runs the sections of `SectionsOf`, as its method does. */
  lemma AloneIsSectionsOf(s: State, op: Operation) returns (schedule: seq<nat>)
    ensures IsSchedule(BeginAll(s, [op]), schedule)
    ensures Trace(BeginAll(s, [op]), schedule) == SectionsOf(s, op)
    ensures Finally(BeginAll(s, [op]), schedule).tasks[0].rest == []
  {
    schedule := OpeningAlone(BeginAll(s, [op]), 0);
  }

  // ---------- Counting ----------

  /** No section on the way removes the entry of `p`, or replaces it. */
  predicate Undisturbed(w: Weave, schedule: seq<nat>, p: PeerId)
    requires IsSchedule(w, schedule)
    decreases |schedule|
  {
    schedule != [] ==>
      var next := StepTask(w, schedule[0]);
      && !Replaces(w.tasks[schedule[0]].rest[0], p)
      && (p in w.state.peers ==> p in next.state.peers)
      && Undisturbed(next, schedule[1..], p)
  }

  function Received(s: State, p: PeerId): nat {
    if p in s.peers then s.peers[p].messagesReceived else 0
  }

  // A gossip message is either not marked yet, with nothing else known, or past its opening.
  predicate TaskOk(t: Task) {
    t.op.HandleGossipsub? && !t.closing ==> t.rest == Opening(t.op)
  }

  // What a task has counted so far: its weight less what it still has to count.
  function Counted(t: Task, p: PeerId): int {
    if t.op.HandleGossipsub? && !t.closing then 0
    else Counts(t.op, t.isNew, p) - Touches(t.rest, p, false)
  }

  function Total(tasks: seq<Task>, p: PeerId): int {
    if tasks == [] then 0 else Total(tasks[..|tasks| - 1], p) + Counted(tasks[|tasks| - 1], p)
  }

  lemma {:induction false} TotalUpdate(tasks: seq<Task>, i: nat, t: Task, p: PeerId)
    requires i < |tasks|
    ensures Total(tasks[i := t], p) == Total(tasks, p) - Counted(tasks[i], p) + Counted(t, p)
  {
    hide Counted;
    var n := |tasks| - 1;
    if i < n {
      assert tasks[i := t][..n] == tasks[..n][i := t];
      TotalUpdate(tasks[..n], i, t, p);
    } else {
      assert tasks[i := t][..n] == tasks[..n];
    }
  }

  lemma TouchesFirst(sections: seq<Section>, p: PeerId)
    requires sections != []
    ensures Touches(sections, p, false) == TouchOf(sections[0], p, false) + Touches(sections[1..], p, false)
  {
    assert sections == [sections[0]] + sections[1..];
    TouchesAppend([sections[0]], sections[1..], p, false);
    TouchesOne(sections[0], p, false);
  }

  lemma AdvanceCounts(s: State, t: Task, p: PeerId)
    requires TaskOk(t) && t.rest != []
    ensures TaskOk(Advance(s, t))
    ensures Counted(Advance(s, t), p) == Counted(t, p) + TouchOf(t.rest[0], p, false)
  {
    hide Touches, Counts, Closing;
    TouchesFirst(t.rest, p);
    if !t.closing && |t.rest| == 1 {
      TouchesOfClosing(s, t.op, p);
      TouchesNone([], p);
      assert t.rest[1..] == [];
      if !t.op.HandleGossipsub? { CountsIgnoresNews(t.op, p); }
    }
  }

  // Only gossip depends on whether a message was new.
  lemma CountsIgnoresNews(op: Operation, p: PeerId)
    requires !op.HandleGossipsub?
    ensures Counts(op, true, p) == Counts(op, false, p)
  {
  }

  lemma StepCounts(s: State, section: Section, p: PeerId)
    requires !Replaces(section, p) && (p in s.peers ==> p in Apply(s, section).peers)
    ensures Received(Apply(s, section), p) == Received(s, p) + TouchOf(section, p, false)
  {
    if p in Apply(s, section).peers { SectionCounts(s, section, p); }
  }

  lemma {:induction false} WeaveCounts(w: Weave, schedule: seq<nat>, p: PeerId)
    requires IsSchedule(w, schedule) && Undisturbed(w, schedule, p) && forall t | t in w.tasks :: TaskOk(t)
    ensures var v := Finally(w, schedule);
            && (forall t | t in v.tasks :: TaskOk(t)) && |v.tasks| == |w.tasks|
            && (forall i | 0 <= i < |v.tasks| :: v.tasks[i].op == w.tasks[i].op)
            && Received(v.state, p) - Total(v.tasks, p) == Received(w.state, p) - Total(w.tasks, p)
    decreases |schedule|
  {
    if schedule != [] {
      hide Apply, Advance, Counted, Total, TaskOk, Received;
      var i := schedule[0];
      var next := StepTask(w, i);
      AdvanceCounts(w.state, w.tasks[i], p);
      AdvanceKeeps(w.state, w.tasks[i]);
      TotalUpdate(w.tasks, i, next.tasks[i], p);
      StepCounts(w.state, w.tasks[i].rest[0], p);
      WeaveCounts(next, schedule[1..], p);
    }
  }

  lemma AdvanceKeeps(s: State, t: Task)
    requires t.rest != []
    ensures Advance(s, t).op == t.op
  {
  }

  /** The messages the operations count as received from `p`, gossip by whether it was new when it was marked. */
  function SumOfCounts(tasks: seq<Task>, p: PeerId): nat {
    if tasks == [] then 0
    else
      var last := tasks[|tasks| - 1];
      SumOfCounts(tasks[..|tasks| - 1], p) + Counts(last.op, last.isNew, p)
  }

  lemma {:induction false} TotalWhenDone(tasks: seq<Task>, p: PeerId)
    requires forall t | t in tasks :: TaskOk(t) && t.rest == []
    ensures Total(tasks, p) == SumOfCounts(tasks, p)
  {
    if tasks != [] {
      assert tasks[|tasks| - 1] in tasks;
      TotalWhenDone(tasks[..|tasks| - 1], p);
    }
  }

  lemma {:induction false} TotalAtFirst(s: State, ops: seq<Operation>, p: PeerId)
    ensures Total(BeginAll(s, ops).tasks, p) == 0
  {
    if ops != [] {
      var n := |ops| - 1;
      assert BeginAll(s, ops).tasks[..n] == BeginAll(s, ops[..n]).tasks;
      TotalAtFirst(s, ops[..n], p);
      TouchesOfOpening(ops[n], p);
    }
  }

  /**
   * Operations interleaved in any way, all of them finished, nothing having removed or replaced
   * the entry of `p`: it has received the sum of their counts more than before, or that sum.
   */
  lemma InterleavedCounts(s: State, ops: seq<Operation>, schedule: seq<nat>, p: PeerId)
    requires IsSchedule(BeginAll(s, ops), schedule) && Undisturbed(BeginAll(s, ops), schedule, p)
    requires forall t | t in Finally(BeginAll(s, ops), schedule).tasks :: t.rest == []
    ensures var w := Finally(BeginAll(s, ops), schedule);
            && |w.tasks| == |ops| && (forall i | 0 <= i < |ops| :: w.tasks[i].op == ops[i])
            && Received(w.state, p) == Received(s, p) + SumOfCounts(w.tasks, p)
  {
    hide Touches, Counts, Opening, Counted, Received;
    WeaveCounts(BeginAll(s, ops), schedule, p);
    TotalAtFirst(s, ops, p);
    TotalWhenDone(Finally(BeginAll(s, ops), schedule).tasks, p);
  }
}
