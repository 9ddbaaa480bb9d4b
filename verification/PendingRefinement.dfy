/**
 * `PendingRequests` in place against the transitions of `ClientRun`: in every state a run reaches,
 * the class may be called, and it does to map and channels what the step does.
 */
module PendingRefinement {
  import opened Wrappers
  import opened Protocol
  import opened DecimalText
  import opened Transport
  import opened ClientRun
  import opened ClientInvariant
  import opened ClientSafety

  ghost predicate Holds(p: PendingRequests, s: State)
    reads p
  {
    p.requests == s.pending && p.channels == s.channels
  }

  lemma GoodMap(s: State)
    requires Good(s)
    ensures ValidMap(s.pending, s.channels)
  {
    forall k, l | k in s.pending && l in s.pending && s.pending[k] == s.pending[l] ensures k == l {
      assert GoodEntry(ViewOf(s), k) && GoodEntry(ViewOf(s), l);
    }
    PendingHeld(s);
  }

  /** In every state of every run no two entries of the map share a sender, and none of its senders was used. */
  lemma MapIsValid(kind: Kind, steps: seq<Step>)
    requires After(kind, steps).Some? && |After(kind, steps).value.channels| < TWO64 - 1
    ensures ValidMap(After(kind, steps).value.pending, After(kind, steps).value.channels)
  {
    RunGood(kind, steps);
    GoodMap(After(kind, steps).value);
  }

  lemma InsertedNotThere(s: State)
    requires Good(s) && s.outgoing.Inserting?
    ensures var Envelope(m, sender) := s.outgoing.envelope;
            && sender.Some? && sender.value < |s.channels| && s.channels[sender.value].sender.Held?
            && sender.value !in s.pending.Values
            && m.Request? && m.request.id.Some?
  {
    InsertedIs(s);
    var v := ViewOf(s);
    assert GoodEnvelope(v, v.unsent[0]);
    forall k | k in s.pending ensures s.pending[k] != s.outgoing.envelope.sender.value { assert GoodEntry(v, k); }
  }

  method RunInsert(p: PendingRequests, s: State)
    requires CanSend(s, Insert) && Good(s) && Holds(p, s)
    modifies p
    ensures p.Valid() && Holds(p, DoSend(s, Insert))
  {
    GoodMap(s);
    InsertedNotThere(s);
    p.Insert(Decimal(s.outgoing.envelope.message.request.id.value), s.outgoing.envelope.sender.value);
  }

  method RunRespond(p: PendingRequests, s: State)
    requires CanArrive(s, IncomingStep.Respond) && Good(s) && Holds(p, s)
    modifies p
    ensures p.Valid() && Holds(p, DoArrive(s, IncomingStep.Respond))
  {
    GoodMap(s);
    p.Respond(Decimal(ReplyId(s.incoming.message).value), Ok(s.incoming.message));
  }

  method RunClear(p: PendingRequests, s: State)
    requires Good(s) && Holds(p, s)
    modifies p
    ensures p.Valid() && Holds(p, ClearPending(s))
  {
    GoodMap(s);
    p.Clear();
  }
}
