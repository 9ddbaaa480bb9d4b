/**
 * `P2pTransportManager`: a counter of pending requests that is raised and lowered around an
 * await while its lock is held, and what is left of it when sends are cancelled there.
 */
module P2pManager {
  import opened Wrappers

  datatype TransportError = Connection | Protocol | MaxConnections | MaxPending

  /** The limits of a configuration that `validate` accepted: neither is zero. */
  datatype Limits = Limits(maxConnections: nat, maxPending: nat) {
    predicate Validated() {
      maxConnections > 0 && maxPending > 0
    }
  }

  // ---------- One send ----------

  /** An enabled transport: whether it has peers, and what its next send returns. */
  class Link {
    const connected: bool
    const works: bool
    var carried: seq<nat>

    constructor (connected: bool, works: bool)
      ensures this.connected == connected && this.works == works && carried == []
    {
      this.connected, this.works, this.carried := connected, works, [];
    }

    method Send(content: nat) returns (ok: bool)
      modifies this
      ensures ok == works
      ensures carried == if ok then old(carried) + [content] else old(carried)
    {
      ok := works;
      if ok { carried := carried + [content]; }
    }
  }

  function Carried(link: Option<Link>): seq<nat>
    reads if link.Some? then {link.value} else {}
  {
    if link.Some? then link.value.carried else []
  }

  predicate Connected(link: Option<Link>) {
    link.Some? && link.value.connected
  }

  predicate Works(link: Option<Link>) {
    link.Some? && link.value.works
  }

  /**
   * `send_content_internal` and `send_resource_internal`: refused without a peer on any transport;
   * otherwise carried by exactly one transport that works, WebTransport before WebRTC.
   */
  method SendInternal(web: Option<Link>, rtc: Option<Link>, content: nat) returns (r: Result<(), TransportError>)
    requires web.Some? && rtc.Some? ==> web.value != rtc.value
    modifies if web.Some? then {web.value} else {}
    modifies if rtc.Some? then {rtc.value} else {}
    ensures r.Err? ==> r.error == if Connected(web) || Connected(rtc) then Protocol else Connection
    ensures r.Ok? <==> (Connected(web) || Connected(rtc)) && (Works(web) || Works(rtc))
    ensures Carried(web) == old(Carried(web)) + (if r.Ok? && Works(web) then [content] else [])
    ensures Carried(rtc) == old(Carried(rtc)) + (if r.Ok? && !Works(web) then [content] else [])
  {
    var connected := false;
    if web.Some? { connected := connected || web.value.connected; }
    if rtc.Some? { connected := connected || rtc.value.connected; }
    if !connected { return Err(Connection); }
    var sent := false;
    if web.Some? { sent := web.value.Send(content); }
    if !sent && rtc.Some? { sent := rtc.value.Send(content); }
    return if sent then Ok(()) else Err(Protocol);
  }

  // ---------- The shared state ----------

  /** `TransportState`, with what each method does to it while it holds the lock. */
  class TransportState {
    var peers: seq<nat>
    var pendingRequests: nat

    constructor ()
      ensures peers == [] && pendingRequests == 0
    {
      peers, pendingRequests := [], 0;
    }

    method CheckResourceLimits(limits: Limits) returns (r: Result<(), TransportError>)
      ensures r == Check(limits, |peers|, pendingRequests)
      ensures r == Err(MaxConnections) <==> |peers| >= limits.maxConnections
      ensures r == Err(MaxPending) <==> |peers| < limits.maxConnections && pendingRequests >= limits.maxPending
      ensures r.Ok? <==> |peers| < limits.maxConnections && pendingRequests < limits.maxPending
    {
      if |peers| >= limits.maxConnections { return Err(MaxConnections); }
      if pendingRequests >= limits.maxPending { return Err(MaxPending); }
      return Ok(());
    }

    /** What `send_content` and `send_resource` do with the lock: at its end the counter is as it was. */
    method SendLocked(web: Option<Link>, rtc: Option<Link>, content: nat) returns (r: Result<(), TransportError>)
      requires web.Some? && rtc.Some? ==> web.value != rtc.value
      modifies this
      modifies if web.Some? then {web.value} else {}
      modifies if rtc.Some? then {rtc.value} else {}
      ensures pendingRequests == old(pendingRequests) && peers == old(peers)
      ensures r.Err? ==> r.error == if Connected(web) || Connected(rtc) then Protocol else Connection
      ensures Carried(web) == old(Carried(web)) + (if r.Ok? && Works(web) then [content] else [])
      ensures Carried(rtc) == old(Carried(rtc)) + (if r.Ok? && !Works(web) then [content] else [])
      ensures r.Ok? <==> (Connected(web) || Connected(rtc)) && (Works(web) || Works(rtc))
    {
      pendingRequests := pendingRequests + 1;
      r := SendInternal(web, rtc, content);
      pendingRequests := pendingRequests - 1;
    }

    method Shutdown()
      modifies this
      ensures peers == [] && pendingRequests == 0
    {
      peers, pendingRequests := [], 0;
    }
  }

  function Check(limits: Limits, connections: nat, pending: int): Result<(), TransportError> {
    if connections >= limits.maxConnections then Err(MaxConnections)
    else if pending >= limits.maxPending then Err(MaxPending)
    else Ok(())
  }

  // ---------- Concurrent sends ----------

  /** A send: before its limit check, past it and waiting to write, in its transport, or over. */
  datatype Phase = Checking | Admitted | Sending | Over(result: Result<(), TransportError>) | Dropped

  /** `holder` has the write lock across its await. Nothing ever adds to `peers`. */
  datatype State = State(connections: nat, pending: int, holder: Option<nat>, sends: seq<Phase>)

  datatype Step =
    | Begin
    | CheckLimits(i: nat)
    | Start(i: nat)
    | Finish(i: nat, result: Result<(), TransportError>)
    | Cancel(i: nat)
    | Shutdown

  const INITIAL := State(0, 0, None, [])

  predicate Enabled(s: State, step: Step) {
    match step
    case Begin => true
    case CheckLimits(i) => i < |s.sends| && s.sends[i] == Checking && s.holder == None
    case Start(i) => i < |s.sends| && s.sends[i] == Admitted && s.holder == None
    case Finish(i, _) => i < |s.sends| && s.sends[i] == Sending
    case Cancel(i) => i < |s.sends| && !s.sends[i].Over? && s.sends[i] != Dropped
    case Shutdown => s.holder == None
  }

  function Apply(limits: Limits, s: State, step: Step): State
    requires Enabled(s, step)
  {
    match step
    case Begin => s.(sends := s.sends + [Checking])
    case CheckLimits(i) =>
      var r := Check(limits, s.connections, s.pending);
      s.(sends := s.sends[i := if r.Ok? then Admitted else Over(r)])
    case Start(i) => s.(pending := s.pending + 1, holder := Some(i), sends := s.sends[i := Sending])
    case Finish(i, result) => s.(pending := s.pending - 1, holder := None, sends := s.sends[i := Over(result)])
    case Cancel(i) =>
      s.(holder := if s.sends[i] == Sending then None else s.holder, sends := s.sends[i := Dropped])
    case Shutdown => s.(connections := 0, pending := 0)
  }

  /** The state after a run, None when some step was not enabled. */
  function After(limits: Limits, steps: seq<Step>): Option<State> {
    if steps == [] then Some(INITIAL)
    else
      var s, step := After(limits, steps[..|steps| - 1]), steps[|steps| - 1];
      if s.Some? && Enabled(s.value, step) then Some(Apply(limits, s.value, step)) else None
  }

  /** The sends that were dropped while they held the lock, since the last shutdown. */
  function Leaked(limits: Limits, steps: seq<Step>): nat {
    if steps == [] then 0
    else
      var before, step := steps[..|steps| - 1], steps[|steps| - 1];
      match step
      case Shutdown => 0
      case Cancel(i) =>
        Leaked(limits, before)
        + (var s := After(limits, before);
           if s.Some? && i < |s.value.sends| && s.value.sends[i] == Sending then 1 else 0)
      case _ => Leaked(limits, before)
  }

  predicate Consistent(s: State, leaked: nat) {
    && s.connections == 0
    && s.pending == leaked + (if s.holder.Some? then 1 else 0)
    && (s.holder.Some? ==> s.holder.value < |s.sends|)
    && forall i | 0 <= i < |s.sends| :: s.sends[i] == Sending <==> s.holder == Some(i)
  }

  lemma {:induction false} RunConsistent(limits: Limits, steps: seq<Step>)
    requires After(limits, steps).Some?
    ensures Consistent(After(limits, steps).value, Leaked(limits, steps))
  {
    if steps != [] {
      RunConsistent(limits, steps[..|steps| - 1]);
    }
  }

  /**
   * Over every interleaving of sends, cancellations and shutdowns: at most one send is in its
   * transport; with the lock free the counter is the number of sends cancelled mid-flight, with
   * it held one more. So lowering it never goes below zero.
   */
  lemma CounterIsLeaks(limits: Limits, steps: seq<Step>)
    requires After(limits, steps).Some?
    ensures var s := After(limits, steps).value;
            && (s.holder.None? ==> s.pending == Leaked(limits, steps))
            && (s.holder.Some? ==> s.pending == Leaked(limits, steps) + 1)
            && (forall i, j | 0 <= i < |s.sends| && 0 <= j < |s.sends| && s.sends[i] == Sending == s.sends[j] :: i == j)
            && (forall i, r | Enabled(s, Finish(i, r)) :: Apply(limits, s, Finish(i, r)).pending >= 0)
  {
    RunConsistent(limits, steps);
  }

  /** A send is refused by its limit check exactly when that many sends were cancelled mid-flight. */
  lemma RefusedIff(limits: Limits, steps: seq<Step>, i: nat)
    requires limits.Validated() && After(limits, steps).Some?
    requires Enabled(After(limits, steps).value, CheckLimits(i))
    ensures var s := Apply(limits, After(limits, steps).value, CheckLimits(i));
            && (s.sends[i] == Over(Err(MaxPending)) <==> Leaked(limits, steps) >= limits.maxPending)
            && (s.sends[i] == Admitted <==> Leaked(limits, steps) < limits.maxPending)
  {
    RunConsistent(limits, steps);
  }

  /** Only a shutdown forgets a cancelled send. */
  lemma {:induction false} LeaksStay(limits: Limits, steps: seq<Step>, k: nat)
    requires k <= |steps| && Shutdown !in steps[k..]
    ensures Leaked(limits, steps) >= Leaked(limits, steps[..k])
  {
    if k < |steps| {
      var before := steps[..|steps| - 1];
      assert before[..k] == steps[..k] && before[k..] == steps[k..][..|steps| - 1 - k];
      assert steps[|steps| - 1] == steps[k..][|steps| - 1 - k];
      LeaksStay(limits, before, k);
    } else {
      assert steps[..k] == steps;
    }
  }

  /** Once that many sends were cancelled mid-flight, every later check refuses, until a shutdown. */
  lemma RefusedForGood(limits: Limits, steps: seq<Step>, k: nat, i: nat)
    requires limits.Validated() && After(limits, steps).Some? && k <= |steps| && Shutdown !in steps[k..]
    requires Leaked(limits, steps[..k]) >= limits.maxPending
    requires Enabled(After(limits, steps).value, CheckLimits(i))
    ensures Apply(limits, After(limits, steps).value, CheckLimits(i)).sends[i] == Over(Err(MaxPending))
  {
    LeaksStay(limits, steps, k);
    RefusedIff(limits, steps, i);
  }

  lemma OneMore(limits: Limits, steps: seq<Step>, step: Step)
    requires After(limits, steps).Some? && Enabled(After(limits, steps).value, step)
    ensures After(limits, steps + [step]) == Some(Apply(limits, After(limits, steps).value, step))
    ensures step.Begin? || step.CheckLimits? || step.Start? ==> Leaked(limits, steps + [step]) == Leaked(limits, steps)
    ensures step.Cancel? && After(limits, steps).value.sends[step.i] == Sending ==>
              Leaked(limits, steps + [step]) == Leaked(limits, steps) + 1
  {
    assert (steps + [step])[..|steps|] == steps;
  }

  /** It does happen: that many sends, each cancelled in its transport, and nothing is in flight any more. */
  lemma {:induction false} CancelledSendsAddUp(limits: Limits, n: nat) returns (steps: seq<Step>)
    requires limits.Validated() && n <= limits.maxPending
    ensures After(limits, steps).Some? && Leaked(limits, steps) == n && Shutdown !in steps
    ensures var s := After(limits, steps).value;
            s.holder == None && forall i | 0 <= i < |s.sends| :: s.sends[i] == Dropped
  {
    steps := [];
    if n > 0 {
      steps := CancelledSendsAddUp(limits, n - 1);
      var i := |After(limits, steps).value.sends|;
      OneMore(limits, steps, Begin);
      steps := steps + [Begin];
      RefusedIff(limits, steps, i);
      OneMore(limits, steps, CheckLimits(i));
      steps := steps + [CheckLimits(i)];
      OneMore(limits, steps, Start(i));
      steps := steps + [Start(i)];
      OneMore(limits, steps, Cancel(i));
      steps := steps + [Cancel(i)];
    }
  }
}
