/** The handshake comes first: which messages a client ever sends, and after what. */
module ClientLifecycle {
  import opened Wrappers
  import opened Json
  import opened Protocol
  import opened Transport
  import opened Client
  import opened ClientRun
  import opened ClientInvariant
  import opened ClientSafety
  import opened ClientTheorems

  // The capabilities of the last handshake completed in a log.
  function Latest(log: seq<Event>): Option<Capabilities> {
    if log == [] then None
    else if log[|log| - 1].Initialized? then Some(log[|log| - 1].advertised)
    else Latest(log[..|log| - 1])
  }

  /** The method belongs to a family that was advertised. */
  predicate Advertised(caps: Capabilities, methodName: string) {
    || (methodName in ["resources/list", "resources/read"] && caps.resources)
    || (methodName in ["tools/list", "tools/call"] && caps.tools)
    || (methodName in ["prompts/list", "prompts/get"] && caps.prompts)
  }

  /** A message may be issued once `log` has happened: the handshake's own two, or an advertised call. */
  predicate MayFollow(log: seq<Event>, m: Message) {
    || m == Notification(RpcNotification("2.0", "notifications/initialized", Some(Obj(map[]))))
    || (m.Request? && m.request.methodName == "initialize")
    || (m.Request? && Latest(log).Some? && Advertised(Latest(log).value, m.request.methodName))
  }

  /** The result of `initialize` has a member of that name, not null, among its capabilities. */
  predicate Offers(result: Value, family: string) {
    && result.Obj? && "capabilities" in result.fields
    && var capabilities := result.fields["capabilities"];
       capabilities.Obj? && family in capabilities.fields && capabilities.fields[family] != Null
  }

  // The `initialize` request of channel `c` was answered at `i`, with a result that offers `caps`.
  predicate AnsweredAt(s: State, i: nat, c: nat, caps: Capabilities) {
    && c < |s.channels| && s.channels[c].request.methodName == "initialize"
    && i < |s.log| && s.log[i].Replied? && s.log[i].channel == c && s.log[i].result.Ok?
    && var result := s.log[i].result.value;
       && (caps.prompts <==> Offers(result, "prompts"))
       && (caps.resources <==> Offers(result, "resources"))
       && (caps.tools <==> Offers(result, "tools"))
  }

  // The first half of a handshake: `initialize` was answered.
  predicate Answered(s: State, before: nat, c: nat, caps: Capabilities) {
    exists i | 0 <= i < before :: AnsweredAt(s, i, c, caps)
  }

  /** A handshake: `initialize` was answered, and then its notification sent. */
  predicate Shook(s: State, before: nat, c: nat, caps: Capabilities) {
    exists i, j | 0 <= i < j < before && j < |s.log| ::
      AnsweredAt(s, i, c, caps)
      && s.log[j] == Issued(Notification(RpcNotification("2.0", "notifications/initialized", Some(Obj(map[])))))
  }

  lemma AdvertisedIs(op: Operation, caps: Capabilities)
    ensures Allows(caps, op) <==> Advertised(caps, MethodName(op))
  {
  }

  predicate IssuedBefore(s: State, before: nat, c: nat) {
    c < |s.channels| && exists i | 0 <= i < before && i < |s.log| :: s.log[i] == Issued(Request(s.channels[c].request))
  }

  predicate GoodEvent(s: State, i: nat)
    requires i < |s.log|
  {
    match s.log[i]
    case Issued(m) => MayFollow(s.log[..i], m)
    case Replied(c, _) => IssuedBefore(s, i, c)
    case Initialized(c, caps) => Shook(s, i, c, caps)
  }

  /** The call in progress, by its channel (None for a notification). */
  function InProgress(c: Caller): Option<nat> {
    match c
    case Idle => None
    case Offering(e) => e.sender
    case Waiting(c) => Some(c)
    case Checking(call, _) => call
  }

  predicate PhaseOk(s: State) {
    match s.phase
    case Ready => true
    case Initializing =>
      && InProgress(s.caller).Some? && InProgress(s.caller).value < |s.channels|
      && s.channels[InProgress(s.caller).value].request.methodName == "initialize"
    case Notifying(c, caps) =>
      && InProgress(s.caller).None? && Answered(s, |s.log|, c, caps)
      && (s.caller != Idle ==> Shook(s, |s.log|, c, caps))
  }

  predicate LifecycleOk(s: State) {
    && s.capabilities == Latest(s.log)
    && (forall i | 0 <= i < |s.log| :: GoodEvent(s, i))
    && (forall c | 0 <= c < |s.channels| :: IssuedBefore(s, |s.log|, c))
    && PhaseOk(s)
  }

  // ---------- One step ----------

  // The log grows at its end, and channels keep their requests.
  predicate Grows(s: State, t: State) {
    s.log <= t.log && SendersFinal(s.channels, t.channels)
  }

  lemma EventsKept(s: State, t: State)
    requires Grows(s, t) && (forall i | 0 <= i < |s.log| :: GoodEvent(s, i))
    ensures forall i | 0 <= i < |s.log| :: GoodEvent(t, i)
  {
    forall i | 0 <= i < |s.log| ensures GoodEvent(t, i) {
      assert GoodEvent(s, i);
      assert t.log[..i] == s.log[..i];
      match s.log[i] {
        case Issued(_) =>
        case Replied(c, _) => IssuedKept(s, t, i, c);
        case Initialized(c, caps) => ShookKept(s, t, i, c, caps);
      }
    }
  }

  lemma IssuedKept(s: State, t: State, before: nat, c: nat)
    requires Grows(s, t) && IssuedBefore(s, before, c)
    ensures IssuedBefore(t, before, c)
  {
    var i :| 0 <= i < before && i < |s.log| && s.log[i] == Issued(Request(s.channels[c].request));
    assert t.log[i] == s.log[i];
  }

  lemma ShookKept(s: State, t: State, before: nat, c: nat, caps: Capabilities)
    requires Grows(s, t) && Shook(s, before, c, caps)
    ensures Shook(t, before, c, caps)
  {
    var i, j :| 0 <= i < j < before && j < |s.log| && AnsweredAt(s, i, c, caps)
             && s.log[j] == Issued(Notification(RpcNotification("2.0", "notifications/initialized", Some(Obj(map[])))));
    assert t.log[j] == s.log[j];
    AnsweredAtKept(s, t, i, c, caps);
  }

  lemma AnsweredAtKept(s: State, t: State, i: nat, c: nat, caps: Capabilities)
    requires Grows(s, t) && AnsweredAt(s, i, c, caps)
    ensures AnsweredAt(t, i, c, caps)
  {
    assert t.log[i] == s.log[i];
  }

  lemma AnsweredKept(s: State, t: State, before: nat, c: nat, caps: Capabilities)
    requires Grows(s, t) && Answered(s, before, c, caps)
    ensures Answered(t, before, c, caps)
  {
    var i :| 0 <= i < before && AnsweredAt(s, i, c, caps);
    AnsweredAtKept(s, t, i, c, caps);
  }

  // What keeps the phase also keeps how far the handshake is.
  lemma HandshakeKept(s: State, t: State)
    requires Grows(s, t) && PhaseOk(s) && s.phase.Notifying? && t.phase == s.phase
    requires InProgress(t.caller).None? && (t.caller != Idle ==> s.caller != Idle) && t.log == s.log
    ensures PhaseOk(t)
  {
    AnsweredKept(s, t, |s.log|, s.phase.channel, s.phase.advertised);
    if s.caller != Idle { ShookKept(s, t, |s.log|, s.phase.channel, s.phase.advertised); }
  }

  predicate IsIssue(step: CallStep) {
    step.BeginInitialize? || step.Invoke? || step.BeginNotify?
  }

  lemma IssueLifecycle(s: State, step: CallStep)
    requires CanCall(s, step) && Good(s) && LifecycleOk(s) && IsIssue(step)
    ensures LifecycleOk(DoCall(s, step))
  {
    var t, n := DoCall(s, step), |s.log|;
    CallFinal(s, step);
    EventsKept(s, t);
    assert t.log[..n] == s.log;
    assert Latest(t.log) == Latest(s.log);
    assert GoodEvent(t, n) by {
      if step.Invoke? {
        assert t.log[n].message.request.methodName == MethodName(step.op);
        AdvertisedIs(step.op, s.capabilities.value);
      }
    }
    forall c | 0 <= c < |t.channels| ensures IssuedBefore(t, |t.log|, c) {
      if c < |s.channels| {
        IssuedKept(s, t, n, c);
      } else {
        assert t.log[n] == Issued(Request(t.channels[c].request));
      }
    }
    if step.BeginNotify? { NotifyPhase(s, t); }
  }

  lemma NotifyPhase(s: State, t: State)
    requires Grows(s, t) && PhaseOk(s) && s.phase.Notifying? && t.phase == s.phase
    requires t.log == s.log + [Issued(INITIALIZED)] && InProgress(t.caller).None?
    ensures PhaseOk(t)
  {
    var n, c, caps := |s.log|, s.phase.channel, s.phase.advertised;
    var i :| 0 <= i < n && AnsweredAt(s, i, c, caps);
    AnsweredAtKept(s, t, i, c, caps);
    assert t.log[n] == Issued(INITIALIZED);
  }

  lemma FinishEvent(s: State, decodes: bool)
    requires s.caller.Checking? && CallerOk(s) && LifecycleOk(s)
    ensures var t := Finished(s, decodes);
            |t.log| > |s.log| ==> t.log[..|s.log|] == s.log && GoodEvent(t, |s.log|)
  {
    var t, n := Finished(s, decodes), |s.log|;
    FinishFrame(s, decodes);
    hide Outcome, AdvertisedBy, FinalReply, LastId, IssuedBefore, Shook, MayFollow;
    if s.caller.call.Some? {
      IssuedKept(s, t, n, s.caller.call.value);
    } else if s.phase.Notifying? {
      ShookKept(s, t, n, s.phase.channel, s.phase.advertised);
    }
  }

  lemma FinishPhase(s: State, decodes: bool)
    requires CanCall(s, Finish(decodes)) && LifecycleOk(s)
    ensures PhaseOk(DoCall(s, Finish(decodes)))
  {
    hide Outcome, AdvertisedBy, GoodEvent, Latest, Offers, Shook;
    var t, n := DoCall(s, Finish(decodes)), |s.log|;
    if t.phase.Notifying? {
      assert t.log[n] == Replied(t.phase.channel, t.log[n].result);
      AdvertisedByOffers(t.log[n].result.value);
      assert AnsweredAt(t, n, t.phase.channel, t.phase.advertised);
    }
  }

  lemma AdvertisedByOffers(result: Value)
    ensures var caps := AdvertisedBy(result);
            && (caps.prompts <==> Offers(result, "prompts"))
            && (caps.resources <==> Offers(result, "resources"))
            && (caps.tools <==> Offers(result, "tools"))
  {
  }

  lemma FinishLatest(s: State, decodes: bool)
    requires s.caller.Checking? && s.capabilities == Latest(s.log)
    ensures Finished(s, decodes).capabilities == Latest(Finished(s, decodes).log)
  {
    hide Outcome, AdvertisedBy, FinalReply, LastId;
    var t, n := Finished(s, decodes), |s.log|;
    if |t.log| > n { assert t.log[..n] == s.log; }
  }

  // One more event, a good one, and all stay good.
  lemma GrownKept(s: State, t: State)
    requires LifecycleOk(s) && Grows(s, t) && |t.log| <= |s.log| + 1 && |t.channels| == |s.channels|
    requires |t.log| > |s.log| ==> GoodEvent(t, |s.log|)
    requires t.capabilities == Latest(t.log) && PhaseOk(t)
    ensures LifecycleOk(t)
  {
    hide GoodEvent, IssuedBefore, PhaseOk, Latest, SendersFinal;
    EventsKept(s, t);
    forall c | 0 <= c < |t.channels| ensures IssuedBefore(t, |t.log|, c) {
      IssuedKept(s, t, |s.log|, c);
      IssuedLonger(t, |s.log|, |t.log|, c);
    }
  }

  lemma IssuedLonger(s: State, before: nat, after: nat, c: nat)
    requires IssuedBefore(s, before, c) && before <= after
    ensures IssuedBefore(s, after, c)
  {
  }

  lemma FinishLifecycle(s: State, decodes: bool)
    requires CanCall(s, Finish(decodes)) && Good(s) && LifecycleOk(s)
    ensures LifecycleOk(DoCall(s, Finish(decodes)))
  {
    var t := Finished(s, decodes);
    assert DoCall(s, Finish(decodes)) == t;
    FinishFrame(s, decodes);
    FinishEvent(s, decodes);
    FinishPhase(s, decodes);
    FinishedLatest(s, decodes);
    hide Finished, GoodEvent, PhaseOk, Latest, Good, LifecycleOk, CanCall, DoCall;
    GrownKept(s, t);
  }

  lemma FinishedLatest(s: State, decodes: bool)
    requires s.caller.Checking? && LifecycleOk(s)
    ensures Finished(s, decodes).capabilities == Latest(Finished(s, decodes).log)
  {
    hide Finished, Latest;
    FinishLatest(s, decodes);
  }

  // A step that logs nothing, and at most gives up what was in progress.
  predicate Quiet(s: State, t: State) {
    && t.log == s.log && t.capabilities == s.capabilities && |t.channels| == |s.channels|
    && (t.phase == Ready
        || (&& t.phase == s.phase && InProgress(t.caller) == InProgress(s.caller)
            && (t.caller == Idle <==> s.caller == Idle)))
  }

  lemma QuietLifecycle(s: State, t: State)
    requires LifecycleOk(s) && Quiet(s, t) && SendersFinal(s.channels, t.channels)
    ensures LifecycleOk(t)
  {
    EventsKept(s, t);
    forall c | 0 <= c < |t.channels| ensures IssuedBefore(t, |t.log|, c) { IssuedKept(s, t, |s.log|, c); }
    if t.phase.Notifying? { HandshakeKept(s, t); }
  }

  lemma CallQuiet(s: State, step: CallStep)
    requires CanCall(s, step) && !IsIssue(step) && !step.Finish?
    ensures Quiet(s, DoCall(s, step))
  {
  }

  lemma StepLifecycle(s: State, step: Step)
    requires Enabled(s, step) && Good(s) && LifecycleOk(s)
    ensures LifecycleOk(Apply(s, step))
  {
    SenderUsedOnce(s, step);
    match step {
      case Call(c) =>
        if IsIssue(c) { IssueLifecycle(s, c); }
        else if c.Finish? { FinishLifecycle(s, c.decodes); }
        else { CallQuiet(s, c); QuietLifecycle(s, Apply(s, step)); }
      case Out(o) => SendFrame(s, o); QuietLifecycle(s, Apply(s, step));
      case In(i) => ArriveFrame(s, i); QuietLifecycle(s, Apply(s, step));
      case Act(a) => ActFrame(s, a); QuietLifecycle(s, Apply(s, step));
    }
  }

  lemma {:induction false} RunLifecycle(kind: Kind, steps: seq<Step>)
    requires After(kind, steps).Some? && |After(kind, steps).value.channels| < TWO64 - 1
    ensures LifecycleOk(After(kind, steps).value)
  {
    if steps != [] {
      var before, s, step := LastStep(kind, steps);
      RunLifecycle(kind, before);
      StepLifecycle(s, step);
    }
  }

  // ---------- What was issued ----------

  /**
   * Whatever a client issues, other than the two messages of the handshake, follows a completed
   * handshake, and the latest one before it advertised the method's family.
   */
  lemma NothingBeforeTheHandshake(kind: Kind, steps: seq<Step>, i: nat)
    requires After(kind, steps).Some? && |After(kind, steps).value.channels| < TWO64 - 1
    requires i < |After(kind, steps).value.log|
    ensures var s := After(kind, steps).value;
            && (s.log[i].Issued? ==> MayFollow(s.log[..i], s.log[i].message))
            && (s.log[i].Initialized? ==> Shook(s, i, s.log[i].channel, s.log[i].advertised))
  {
    RunLifecycle(kind, steps);
    assert GoodEvent(After(kind, steps).value, i);
  }

  // ---------- What left ----------

  /** While the outgoing loop runs, what was inserted is on the wire or being written. */
  predicate AllGone(s: State) {
    s.outgoing != OutDone ==>
      forall c | c in s.inserted && c < |s.channels| :: Request(s.channels[c].request) in Gone(s)
  }

  predicate AppearsBefore(s: State, k: nat, m: Message) {
    exists j | 0 <= j < k && j < |s.wire| :: s.wire[j] == m
  }

  /** On the wire, an inserted request comes before every request with a larger id. */
  predicate OrderedOnWire(s: State) {
    forall k, c | 0 <= k < |s.wire| && s.wire[k].Request? && c in s.inserted && c < |s.channels| ::
      s.wire[k].request.id.Some? && c + 1 < s.wire[k].request.id.value ==>
        AppearsBefore(s, k, Request(s.channels[c].request))
  }

  lemma SendGone(s: State, step: OutgoingStep)
    requires CanSend(s, step) && Good(s) && AllGone(s)
    ensures AllGone(DoSend(s, step))
  {
    var t := DoSend(s, step);
    SendFinal(s, step);
    if step == Insert { InsertedIs(s); CoreInsert(ViewOf(s)); }
    hide Core;
    if t.outgoing != OutDone {
      GoneGrows(s, step);
      forall c | c in t.inserted && c < |t.channels| ensures Request(t.channels[c].request) in Gone(t) {
        if c in s.inserted { assert c < |s.channels|; assert Request(s.channels[c].request) in Gone(s); }
      }
    }
  }

  lemma GoneGrows(s: State, step: OutgoingStep)
    requires CanSend(s, step) && DoSend(s, step).outgoing != OutDone
    ensures forall m | m in Gone(s) :: m in Gone(DoSend(s, step))
  {
  }

  lemma SendWire(s: State, step: OutgoingStep)
    requires CanSend(s, step) && step != StartWrite
    ensures DoSend(s, step).wire == s.wire
    ensures step != Insert ==> DoSend(s, step).inserted == s.inserted
  {
  }

  lemma StartWriteOrder(s: State)
    requires CanSend(s, StartWrite) && Good(s) && AllGone(s) && OrderedOnWire(s)
    ensures OrderedOnWire(DoSend(s, StartWrite))
  {
    var t := DoSend(s, StartWrite);
    assert Gone(s) == s.wire + [s.outgoing.message];
    forall k, c | 0 <= k < |t.wire| && t.wire[k].Request? && c in t.inserted && c < |t.channels|
                  && t.wire[k].request.id.Some? && c + 1 < t.wire[k].request.id.value
      ensures AppearsBefore(t, k, Request(t.channels[c].request))
    {
      assert k < |s.wire| ==> AppearsBefore(s, k, Request(s.channels[c].request));
      assert Request(s.channels[c].request) in Gone(s);
      var j :| 0 <= j < k && j < |s.wire| && s.wire[j] == Request(s.channels[c].request);
      assert t.wire[j] == s.wire[j];
    }
  }

  lemma InsertOrder(s: State)
    requires CanSend(s, Insert) && Good(s) && OrderedOnWire(s)
    ensures OrderedOnWire(DoSend(s, Insert))
  {
    var t := DoSend(s, Insert);
    InsertedIs(s);
    hide Core, Inserted, SendersFinal;
    forall k, c | 0 <= k < |t.wire| && t.wire[k].Request? && c in t.inserted && c < |t.channels|
                  && t.wire[k].request.id.Some? && c + 1 < t.wire[k].request.id.value
      ensures AppearsBefore(t, k, Request(t.channels[c].request))
    {
      NewestId(s, k);
      assert c in s.inserted;
      assert AppearsBefore(s, k, Request(s.channels[c].request));
    }
  }

  lemma SendOrder(s: State, step: OutgoingStep)
    requires CanSend(s, step) && Good(s) && AllGone(s) && OrderedOnWire(s)
    ensures OrderedOnWire(DoSend(s, step))
  {
    if step == StartWrite {
      StartWriteOrder(s);
    } else if step == Insert {
      InsertOrder(s);
    } else {
      SendWire(s, step);
      SendFinal(s, step);
      OrderKept(s, DoSend(s, step));
    }
  }

  // A request about to be inserted has a larger id than all that left before it.
  lemma NewestId(s: State, k: nat)
    requires Good(s) && s.outgoing.Inserting? && k < |s.wire| && s.wire[k].Request?
    ensures s.wire[k].request.id.Some? && s.wire[k].request.id.value < s.outgoing.envelope.sender.value + 1
  {
    InsertedIs(s);
    CoreInsert(ViewOf(s));
    var t := Inserted(s, s.outgoing.envelope);
    assert GoodGone(ViewOf(s), Gone(s)[k]);
    assert Earlier(Gone(t)[k], Gone(t)[|s.wire|]);
  }

  lemma WireStep(s: State, step: Step)
    requires Enabled(s, step) && Good(s) && AllGone(s) && OrderedOnWire(s)
    ensures AllGone(Apply(s, step)) && OrderedOnWire(Apply(s, step))
  {
    SenderUsedOnce(s, step);
    match step
    case Call(c) => CallFrame(s, c); WireKept(s, Apply(s, step));
    case Out(o) => SendGone(s, o); SendOrder(s, o);
    case In(i) => ArriveFrame(s, i); WireKept(s, Apply(s, step));
    case Act(a) => ActFrame(s, a); WireKept(s, Apply(s, step));
  }

  lemma OrderKept(s: State, t: State)
    requires t.wire == s.wire && t.inserted == s.inserted
    requires PendingOk(ViewOf(s)) && SendersFinal(s.channels, t.channels) && OrderedOnWire(s)
    ensures OrderedOnWire(t)
  {
    forall k, c | 0 <= k < |t.wire| && t.wire[k].Request? && c in t.inserted && c < |t.channels|
                  && t.wire[k].request.id.Some? && c + 1 < t.wire[k].request.id.value
      ensures AppearsBefore(t, k, Request(t.channels[c].request))
    {
      assert AppearsBefore(s, k, Request(s.channels[c].request));
    }
  }

  lemma WireKept(s: State, t: State)
    requires t.wire == s.wire && t.inserted == s.inserted && (t.outgoing == s.outgoing || t.outgoing == OutDone)
    requires Good(s) && SendersFinal(s.channels, t.channels) && AllGone(s) && OrderedOnWire(s)
    ensures AllGone(t) && OrderedOnWire(t)
  {
    assert forall c | c in s.inserted :: c < |s.channels|;
    OrderKept(s, t);
  }

  lemma {:induction false} RunWire(kind: Kind, steps: seq<Step>)
    requires After(kind, steps).Some? && |After(kind, steps).value.channels| < TWO64 - 1
    ensures AllGone(After(kind, steps).value) && OrderedOnWire(After(kind, steps).value)
  {
    if steps != [] {
      var before, s, step := LastStep(kind, steps);
      RunWire(kind, before);
      WireStep(s, step);
    }
  }

  /** Requests enter the log in the order of their ids. */
  predicate LogSorted(s: State) {
    && (forall i | 0 <= i < |s.log| && s.log[i].Issued? && s.log[i].message.Request? ::
          s.log[i].message.request.id.Some? && s.log[i].message.request.id.value <= |s.channels|)
    && (forall i, j | 0 <= i < j < |s.log| && s.log[i].Issued? && s.log[j].Issued? ::
          Earlier(s.log[i].message, s.log[j].message))
  }

  lemma IssueSorted(s: State, step: CallStep)
    requires CanCall(s, step) && IsIssue(step) && Good(s) && LogSorted(s)
    ensures LogSorted(DoCall(s, step))
  {
  }

  lemma FinishSorted(s: State, decodes: bool)
    requires CanCall(s, Finish(decodes)) && LogSorted(s)
    ensures LogSorted(DoCall(s, Finish(decodes)))
  {
    FinishFrame(s, decodes);
    NothingIssued(s, DoCall(s, Finish(decodes)));
  }

  lemma NothingIssued(s: State, t: State)
    requires LogSorted(s) && t.channels == s.channels && s.log <= t.log && |t.log| <= |s.log| + 1
    requires |t.log| > |s.log| ==> !t.log[|s.log|].Issued?
    ensures LogSorted(t)
  {
  }

  lemma SortedStep(s: State, step: Step)
    requires Enabled(s, step) && Good(s) && LogSorted(s)
    ensures LogSorted(Apply(s, step))
  {
    match step
    case Call(c) =>
      if IsIssue(c) { IssueSorted(s, c); } else if c.Finish? { FinishSorted(s, c.decodes); } else { CallQuiet(s, c); }
    case Out(o) => SendFrame(s, o);
    case In(i) => ArriveFrame(s, i);
    case Act(a) => ActFrame(s, a);
  }

  lemma {:induction false} RunLogSorted(kind: Kind, steps: seq<Step>)
    requires After(kind, steps).Some? && |After(kind, steps).value.channels| < TWO64 - 1
    ensures LogSorted(After(kind, steps).value)
  {
    if steps != [] {
      var before, s, step := LastStep(kind, steps);
      RunLogSorted(kind, before);
      SortedStep(s, step);
    }
  }

  lemma {:induction false} LatestAt(log: seq<Event>) returns (j: nat)
    requires Latest(log).Some?
    ensures j < |log| && log[j].Initialized? && log[j].advertised == Latest(log).value
    ensures forall i | j < i < |log| :: !log[i].Initialized?
  {
    var n := |log| - 1;
    if log[n].Initialized? {
      j := n;
    } else {
      j := LatestAt(log[..n]);
    }
  }

  /** The `initialize` request of channel `c` was answered, its handshake completed, and it is on the wire. */
  lemma HandshakeInserted(s: State, j: nat)
    requires Good(s) && LogOk(s) && LifecycleOk(s) && j < |s.log| && s.log[j].Initialized?
    ensures var c := s.log[j].channel;
            c < |s.channels| && s.channels[c].request.methodName == "initialize"
            && c in s.inserted && IssuedBefore(s, j, c)
  {
    var c, caps := s.log[j].channel, s.log[j].advertised;
    assert GoodEvent(s, j);
    assert Shook(s, j, c, caps);
    var i: nat :| i < j && AnsweredAt(s, i, c, caps);
    assert AnsweredAt(s, i, c, caps);
    assert GoodEvent(s, i) && GoodResult(s, c, s.log[i].result);
    assert GoodSender(ViewOf(s), c);
    var i0 :| 0 <= i0 < i && s.log[i0] == Issued(Request(s.channels[c].request));
  }

  /**
   * On the wire, a request other than `initialize` comes after the `initialize` request of a completed
   * handshake that advertised the family, the latest one when the call was issued.
   */
  lemma HandshakePrecedesOnWire(kind: Kind, steps: seq<Step>, k: nat)
    returns (i: nat, j: nat)
    requires After(kind, steps).Some? && |After(kind, steps).value.channels| < TWO64 - 1
    requires k < |After(kind, steps).value.wire|
    requires var m := After(kind, steps).value.wire[k]; m.Request? && m.request.methodName != "initialize"
    ensures var s := After(kind, steps).value;
            && j < i < |s.log|
            && s.log[i] == Issued(s.wire[k])
            && s.log[j].Initialized? && Advertised(s.log[j].advertised, s.wire[k].request.methodName)
            && (forall x | j < x < i :: !s.log[x].Initialized?)
            && s.log[j].channel < |s.channels|
            && s.channels[s.log[j].channel].request.methodName == "initialize"
            && AppearsBefore(s, k, Request(s.channels[s.log[j].channel].request))
  {
    RunGood(kind, steps);
    RunLogOk(kind, steps);
    RunLifecycle(kind, steps);
    RunWire(kind, steps);
    RunLogSorted(kind, steps);
    i, j := TraceCall(After(kind, steps).value, k);
  }

  lemma TraceCall(s: State, k: nat) returns (i: nat, j: nat)
    requires Good(s) && LogOk(s) && LifecycleOk(s) && OrderedOnWire(s) && LogSorted(s)
    requires k < |s.wire| && s.wire[k].Request? && s.wire[k].request.methodName != "initialize"
    ensures && j < i < |s.log|
            && s.log[i] == Issued(s.wire[k])
            && s.log[j].Initialized? && Advertised(s.log[j].advertised, s.wire[k].request.methodName)
            && (forall x | j < x < i :: !s.log[x].Initialized?)
            && s.log[j].channel < |s.channels|
            && s.channels[s.log[j].channel].request.methodName == "initialize"
            && AppearsBefore(s, k, Request(s.channels[s.log[j].channel].request))
  {
    i := FindIssue(s, k);
    j := FindHandshake(s, i);
    HandshakeInserted(s, j);
    IssueOrderIsWireOrder(s, k, i, j, s.log[j].channel);
  }

  lemma FindHandshake(s: State, i: nat) returns (j: nat)
    requires LifecycleOk(s) && i < |s.log| && s.log[i].Issued?
    requires s.log[i].message.Request? && s.log[i].message.request.methodName != "initialize"
    ensures j < i && s.log[j].Initialized? && Advertised(s.log[j].advertised, s.log[i].message.request.methodName)
    ensures forall x | j < x < i :: !s.log[x].Initialized?
  {
    assert GoodEvent(s, i);
    j := LatestAt(s.log[..i]);
  }

  // A request on the wire was issued, under the same id.
  lemma FindIssue(s: State, k: nat) returns (i: nat)
    requires Good(s) && LifecycleOk(s) && k < |s.wire| && s.wire[k].Request?
    ensures i < |s.log| && s.log[i] == Issued(s.wire[k])
  {
    assert Gone(s)[k] == s.wire[k] && GoodGone(ViewOf(s), Gone(s)[k]);
    var d := s.wire[k].request.id.value - 1;
    assert IssuedBefore(s, |s.log|, d);
    i :| 0 <= i < |s.log| && s.log[i] == Issued(Request(s.channels[d].request));
  }

  lemma IssueOrderIsWireOrder(s: State, k: nat, i: nat, j: nat, c: nat)
    requires OrderedOnWire(s) && LogSorted(s) && Numbered(ViewOf(s))
    requires k < |s.wire| && s.wire[k].Request? && i < |s.log| && s.log[i] == Issued(s.wire[k])
    requires j < i && IssuedBefore(s, j, c) && c in s.inserted
    ensures AppearsBefore(s, k, Request(s.channels[c].request))
  {
    var i0 :| 0 <= i0 < j && s.log[i0] == Issued(Request(s.channels[c].request));
    assert Earlier(s.log[i0].message, s.log[i].message);
    assert s.channels[c].request.id == Some(c + 1);
  }
}
