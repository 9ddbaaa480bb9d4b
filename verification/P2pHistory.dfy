/**
 * What the maps of `P2pHandler` hold after any sequence of sections, told from that sequence:
 * entries and their counters, cached resources, open requests, and which message ids are new.
 */
module P2pHistory {
  import opened Wrappers
  import opened P2pHandler

  function At(t: TransportType, sections: seq<Section>, i: nat): State
    requires i <= |sections|
  {
    Run(Init(t), sections[..i])
  }

  function End(t: TransportType, sections: seq<Section>): State {
    Run(Init(t), sections)
  }

  lemma AtEnd(t: TransportType, sections: seq<Section>)
    ensures At(t, sections, |sections|) == End(t, sections)
    ensures sections != [] ==>
              End(t, sections) == Apply(End(t, sections[..|sections| - 1]), sections[|sections| - 1])
    ensures forall i | 0 <= i < |sections| :: At(t, sections, i) == At(t, sections[..|sections| - 1], i)
  {
    assert sections[..|sections|] == sections;
    forall i | 0 <= i < |sections| ensures At(t, sections, i) == At(t, sections[..|sections| - 1], i) {
      assert sections[..i] == sections[..|sections| - 1][..i];
    }
  }

  // ---------- Peers ----------

  predicate Replaces(section: Section, p: PeerId) {
    section.Register? && section.peer == p
  }

  function TouchOf(section: Section, p: PeerId, outgoing: bool): nat {
    if section.Touch? && section.peer == p && section.outgoing == outgoing then 1 else 0
  }

  /** Section `i` made the entry of `p`, or replaced it. */
  predicate Birth(t: TransportType, sections: seq<Section>, p: PeerId, i: nat)
    requires i < |sections|
  {
    match sections[i]
    case Register(q, _, _) => p == q
    case Touch(q, _, _) => p == q && p !in At(t, sections, i).peers
    case _ => false
  }

  /** That entry is still there: since then it was neither removed nor replaced. */
  predicate LivesSince(t: TransportType, sections: seq<Section>, p: PeerId, i: nat)
    requires i < |sections|
  {
    && Birth(t, sections, p, i)
    && (forall j | i < j <= |sections| :: p in At(t, sections, j).peers)
    && (forall j | i < j < |sections| :: !Replaces(sections[j], p))
  }

  function Touches(sections: seq<Section>, p: PeerId, outgoing: bool): nat {
    if sections == [] then 0
    else
      var last := sections[|sections| - 1];
      Touches(sections[..|sections| - 1], p, outgoing) + TouchOf(last, p, outgoing)
  }

  predicate Writes(section: Section, p: PeerId) {
    (section.Touch? || section.Register?) && section.peer == p
  }

  /** When the entry of `p` was last written: the latest section that touched or registered it. */
  predicate LastWritten(sections: seq<Section>, p: PeerId, k: nat)
    requires k < |sections|
  {
    Writes(sections[k], p) && forall j | k < j < |sections| :: !Writes(sections[j], p)
  }

  lemma LivesLonger(t: TransportType, sections: seq<Section>, p: PeerId, i: nat)
    requires |sections| > 0 && i < |sections| - 1
    requires LivesSince(t, sections[..|sections| - 1], p, i)
    requires p in End(t, sections).peers
    requires !Replaces(sections[|sections| - 1], p)
    ensures LivesSince(t, sections, p, i)
  {
    AtEnd(t, sections);
    AtEnd(t, sections[..|sections| - 1]);
    forall j | i < j <= |sections| ensures p in At(t, sections, j).peers {
      if j < |sections| { assert p in At(t, sections[..|sections| - 1], j).peers; }
    }
  }

  lemma TouchesLonger(sections: seq<Section>, p: PeerId, outgoing: bool, i: nat)
    requires |sections| > 0 && i < |sections|
    ensures var last := sections[|sections| - 1];
            Touches(sections[i..], p, outgoing)
            == Touches(sections[..|sections| - 1][i..], p, outgoing) + TouchOf(last, p, outgoing)
  {
    var tail := sections[i..];
    assert tail[..|tail| - 1] == sections[..|sections| - 1][i..];
    assert tail[|tail| - 1] == sections[|sections| - 1];
  }

  // One section adds to the counters of an entry it leaves, or starts them.
  lemma SectionCounts(s: State, section: Section, p: PeerId)
    requires p in Apply(s, section).peers
    ensures var entry := Apply(s, section).peers[p];
            var stays := p in s.peers && !Replaces(section, p);
            && entry.messagesReceived
               == (if stays then s.peers[p].messagesReceived else 0) + TouchOf(section, p, false)
            && entry.messagesSent == (if stays then s.peers[p].messagesSent else 0) + TouchOf(section, p, true)
            && (stays ==> entry.peerId == s.peers[p].peerId) && (!stays ==> entry.peerId == p)
            && (!stays ==> Replaces(section, p) || (section.Touch? && section.peer == p))
            && (stays ==> entry.transportType == s.peers[p].transportType)
            && (!stays ==> entry.transportType == if section.Register? then section.transportType else s.transportType)
  {
  }

  lemma NewEntry(t: TransportType, sections: seq<Section>, p: PeerId)
    requires sections != [] && p in End(t, sections).peers
    requires var last := sections[|sections| - 1];
             Replaces(last, p) || (last.Touch? && last.peer == p && p !in End(t, sections[..|sections| - 1]).peers)
    ensures LivesSince(t, sections, p, |sections| - 1)
  {
    AtEnd(t, sections);
    assert At(t, sections, |sections| - 1) == End(t, sections[..|sections| - 1]);
  }

  lemma TouchesOne(section: Section, p: PeerId, outgoing: bool)
    ensures Touches([section], p, outgoing) == TouchOf(section, p, outgoing)
  {
    assert [section][..0] == [];
  }

  lemma {:induction false} TouchesAppend(a: seq<Section>, b: seq<Section>, p: PeerId, outgoing: bool)
    ensures Touches(a + b, p, outgoing) == Touches(a, p, outgoing) + Touches(b, p, outgoing)
    decreases |b|
  {
    if b == [] {
      assert a + b == a;
    } else {
      assert (a + b)[..|a + b| - 1] == a + b[..|b| - 1];
      TouchesAppend(a, b[..|b| - 1], p, outgoing);
    }
  }

  lemma {:induction false} TouchesNone(sections: seq<Section>, p: PeerId)
    requires forall section | section in sections :: !section.Touch?
    ensures Touches(sections, p, false) == 0
  {
    if sections != [] { TouchesNone(sections[..|sections| - 1], p); }
  }

  // Sections that touch once, at their start.
  lemma TouchesHead(sections: seq<Section>, p: PeerId)
    requires sections != [] && forall section | section in sections[1..] :: !section.Touch?
    ensures Touches(sections, p, false) == TouchOf(sections[0], p, false)
  {
    assert sections == [sections[0]] + sections[1..];
    TouchesAppend([sections[0]], sections[1..], p, false);
    TouchesOne(sections[0], p, false);
    TouchesNone(sections[1..], p);
  }

  /**
   * A peer in the table has one entry that some section made, that nothing removed or replaced
   * since, and whose counters count the messages since then. Its transport is the registered one, or
   * the handler's own if a message made the entry.
   */
  lemma {:induction false} EntryCounts(t: TransportType, sections: seq<Section>, p: PeerId) returns (i: nat)
    requires p in End(t, sections).peers
    ensures i < |sections| && LivesSince(t, sections, p, i)
    ensures var entry := End(t, sections).peers[p];
            && entry.peerId == p
            && entry.messagesReceived == Touches(sections[i..], p, false)
            && entry.messagesSent == Touches(sections[i..], p, true)
            && entry.transportType
               == if sections[i].Register? then sections[i].transportType else At(t, sections, i).transportType
    decreases |sections|
  {
    var n := |sections| - 1;
    var before, last := sections[..n], sections[n];
    AtEnd(t, sections);
    hide Apply, LivesSince, Touches, At, Run;
    SectionCounts(End(t, before), last, p);
    if p in End(t, before).peers && !Replaces(last, p) {
      i := EntryCounts(t, before, p);
      LivesLonger(t, sections, p, i);
      TouchesLonger(sections, p, false, i);
      TouchesLonger(sections, p, true, i);
    } else {
      i := n;
      NewEntry(t, sections, p);
      assert sections[n..] == [last];
      TouchesOne(last, p, false);
      TouchesOne(last, p, true);
    }
  }

  lemma {:induction false} EntryTime(t: TransportType, sections: seq<Section>, p: PeerId) returns (k: nat)
    requires p in End(t, sections).peers
    ensures k < |sections| && LastWritten(sections, p, k) && End(t, sections).peers[p].lastSeen == sections[k].now
    decreases |sections|
  {
    var n := |sections| - 1;
    AtEnd(t, sections);
    assert sections != [];
    hide Apply, Run;
    SectionTime(End(t, sections[..n]), sections[n], p);
    if Writes(sections[n], p) {
      k := n;
    } else {
      k := EntryTime(t, sections[..n], p);
    }
  }

  // A section stamps the entry it writes, and leaves the time of others alone.
  lemma SectionTime(s: State, section: Section, p: PeerId)
    requires p in Apply(s, section).peers
    ensures Writes(section, p) ==> Apply(s, section).peers[p].lastSeen == section.now
    ensures !Writes(section, p) ==>
              p in s.peers && Apply(s, section).peers[p].lastSeen == s.peers[p].lastSeen
  {
  }

  /** There is only one such section. */
  lemma BirthUnique(t: TransportType, sections: seq<Section>, p: PeerId, i: nat, j: nat)
    requires i < |sections| && j < |sections|
    requires LivesSince(t, sections, p, i) && LivesSince(t, sections, p, j)
    ensures i == j
  {
    assert Birth(t, sections, p, i) && Birth(t, sections, p, j);
  }

  lemma PeersSplit(peers: map<PeerId, PeerState>)
    ensures PeersOf(peers, WebTransport) + PeersOf(peers, WebRTC) + PeersOf(peers, Unknown) == peers.Keys
    ensures PeersOf(peers, WebTransport) !! PeersOf(peers, WebRTC)
    ensures PeersOf(peers, WebTransport) + PeersOf(peers, WebRTC) !! PeersOf(peers, Unknown)
  {
    forall p | p in peers.Keys
      ensures p in PeersOf(peers, WebTransport) + PeersOf(peers, WebRTC) + PeersOf(peers, Unknown)
    {
      match peers[p].transportType case WebTransport => case WebRTC => case Unknown =>
    }
  }

  lemma UnionSize(a: set<PeerId>, b: set<PeerId>)
    requires a !! b
    ensures |a + b| == |a| + |b|
  {
  }

  /** The counts for the three transports add up to the count of all peers. */
  lemma CountsAddUp(peers: map<PeerId, PeerState>)
    ensures CountOf(peers, WebTransport) + CountOf(peers, WebRTC) + CountOf(peers, Unknown) == |peers|
  {
    PeersSplit(peers);
    hide PeersOf;
    UnionSize(PeersOf(peers, WebTransport), PeersOf(peers, WebRTC));
    UnionSize(PeersOf(peers, WebTransport) + PeersOf(peers, WebRTC), PeersOf(peers, Unknown));
  }

  predicate Removal(section: Section) {
    section.Unregister? || section.KeepRecent? || section.DropStale?
  }

  // A run of sections none of which replaces or removes the entry of `p` adds its touches.
  lemma {:induction false} RunCounts(s: State, sections: seq<Section>, p: PeerId)
    requires p in Run(s, sections).peers && forall section | section in sections :: !Replaces(section, p)
    requires forall section | section in sections :: !Removal(section)
    ensures Run(s, sections).peers[p].messagesReceived
         == (if p in s.peers then s.peers[p].messagesReceived else 0) + Touches(sections, p, false)
  {
    if sections != [] {
      var before, last := sections[..|sections| - 1], sections[|sections| - 1];
      SectionCounts(Run(s, before), last, p);
      if p in Run(s, before).peers {
        RunCounts(s, before, p);
      } else {
        NeverThere(s, before, p);
      }
    }
  }

  lemma {:induction false} NeverThere(s: State, sections: seq<Section>, p: PeerId)
    requires p !in Run(s, sections).peers
    requires forall section | section in sections :: !Removal(section)
    ensures p !in s.peers && Touches(sections, p, false) == 0
  {
    if sections != [] {
      assert sections[|sections| - 1] in sections;
      NeverThere(s, sections[..|sections| - 1], p);
    }
  }

  /**
   * `cleanup_peers` and `clean_stale_peers` with one timeout and one clock keep the same peers, but
   * for those last seen exactly that long ago: only `clean_stale_peers` keeps them.
   */
  lemma CleanersDiffer(s: State, timeout: Time, now: Time, p: PeerId)
    ensures p in Apply(s, KeepRecent(timeout, now)).peers
       <==> p in Apply(s, DropStale(timeout, now)).peers && DurationSince(now, s.peers[p].lastSeen) != timeout
    ensures p in Apply(s, DropStale(timeout, now)).peers ==>
              Apply(s, DropStale(timeout, now)).peers[p] == s.peers[p]
    ensures p in Apply(s, KeepRecent(timeout, now)).peers ==>
              Apply(s, KeepRecent(timeout, now)).peers[p] == s.peers[p]
  {
  }

  // ---------- Cache and open requests ----------

  predicate Keyed(s: State) {
    && (forall p | p in s.peers :: s.peers[p].peerId == p)
    && (forall uri | uri in s.cache :: s.cache[uri].uri == uri)
  }

  lemma {:induction false} KeyedAfter(s: State, sections: seq<Section>)
    requires Keyed(s) && forall section | section in sections && section.Put? :: section.key == section.resource.uri
    ensures Keyed(Run(s, sections))
  {
    hide Apply, Keyed;
    if sections != [] {
      KeyedAfter(s, sections[..|sections| - 1]);
      KeyedStep(Run(s, sections[..|sections| - 1]), sections[|sections| - 1]);
    }
  }

  lemma KeyedStep(s: State, section: Section)
    requires Keyed(s) && (section.Put? ==> section.key == section.resource.uri)
    ensures Keyed(Apply(s, section))
  {
  }

  predicate LastPut(sections: seq<Section>, uri: string, i: nat)
    requires i < |sections|
  {
    && sections[i].Put? && sections[i].key == uri
    && forall j | i < j < |sections| :: !(sections[j].Put? && sections[j].key == uri)
  }

  /** The cache forgets nothing, and holds for each uri what was stored under it last. */
  lemma {:induction false} CacheHoldsLastPut(t: TransportType, sections: seq<Section>, uri: string)
    ensures uri in End(t, sections).cache <==> exists i :: 0 <= i < |sections| && LastPut(sections, uri, i)
    ensures forall i | 0 <= i < |sections| && LastPut(sections, uri, i) ::
              uri in End(t, sections).cache && End(t, sections).cache[uri] == sections[i].resource
    decreases |sections|
  {
    if sections != [] {
      var n := |sections| - 1;
      var before := sections[..n];
      AtEnd(t, sections);
      CacheHoldsLastPut(t, before, uri);
      if sections[n].Put? && sections[n].key == uri {
        assert LastPut(sections, uri, n);
      } else {
        assert forall i | 0 <= i < n :: LastPut(sections, uri, i) <==> LastPut(before, uri, i);
      }
    }
  }

  predicate OpenSince(sections: seq<Section>, id: RequestId, i: nat)
    requires i < |sections|
  {
    && sections[i].Ask? && sections[i].id == id
    && forall j | i < j < |sections| :: !((sections[j].Ask? || sections[j].Forget?) && sections[j].id == id)
  }

  /** A request is open from when it was last asked until a response to it was handled. */
  lemma {:induction false} OpenRequests(t: TransportType, sections: seq<Section>, id: RequestId)
    ensures id in End(t, sections).pending <==> exists i :: 0 <= i < |sections| && OpenSince(sections, id, i)
    ensures forall i | 0 <= i < |sections| && OpenSince(sections, id, i) ::
              Asked(End(t, sections).pending, id) == Some(sections[i].reqType)
    decreases |sections|
  {
    if sections != [] {
      var n := |sections| - 1;
      var before := sections[..n];
      AtEnd(t, sections);
      OpenRequests(t, before, id);
      if sections[n].Ask? && sections[n].id == id {
        assert OpenSince(sections, id, n);
      } else if !(sections[n].Forget? && sections[n].id == id) {
        assert forall i | 0 <= i < n :: OpenSince(sections, id, i) <==> OpenSince(before, id, i);
      }
    }
  }

  // ---------- Message ids ----------

  /** Section `i` accepts a message: its id was not there. */
  predicate Accepts(t: TransportType, sections: seq<Section>, msgId: string, i: nat)
    requires i < |sections|
  {
    sections[i].Mark? && sections[i].msgId == msgId && msgId !in At(t, sections, i).seen
  }

  predicate Expires(sections: seq<Section>, i: nat, k: nat)
    requires i < |sections| && k < |sections| && sections[i].Mark?
  {
    sections[k].Sweep? && sections[k].now >= sections[i].now + 300_000_000_000
  }

  /** Accepted by section `i`, and no cleaning since found it old enough. */
  predicate Remembers(t: TransportType, sections: seq<Section>, msgId: string, i: nat)
    requires i < |sections|
  {
    && Accepts(t, sections, msgId, i)
    && forall k | i < k < |sections| :: !Expires(sections, i, k)
  }

  lemma RemembersLonger(t: TransportType, sections: seq<Section>, msgId: string, i: nat)
    requires i + 1 < |sections|
    ensures Accepts(t, sections, msgId, i) <==> Accepts(t, sections[..|sections| - 1], msgId, i)
    ensures Remembers(t, sections, msgId, i)
       <==> Remembers(t, sections[..|sections| - 1], msgId, i) && !Expires(sections, i, |sections| - 1)
  {
    var before := sections[..|sections| - 1];
    AtEnd(t, sections);
    assert At(t, sections, i) == At(t, before, i);
    if Remembers(t, before, msgId, i) && !Expires(sections, i, |sections| - 1) {
      forall k | i < k < |sections| ensures !Expires(sections, i, k) {
        if k < |before| { assert !Expires(before, i, k); }
      }
    }
    if Remembers(t, sections, msgId, i) {
      forall k | i < k < |before| ensures !Expires(before, i, k) { assert !Expires(sections, i, k); }
    }
  }

  lemma {:induction false} RememberedIsSeen(t: TransportType, sections: seq<Section>, msgId: string, i: nat)
    requires i < |sections| && Remembers(t, sections, msgId, i)
    ensures msgId in End(t, sections).seen && End(t, sections).seen[msgId] == sections[i].now
    decreases |sections|
  {
    hide Run;
    AtEnd(t, sections);
    var n := |sections| - 1;
    if i < n {
      RemembersLonger(t, sections, msgId, i);
      RememberedIsSeen(t, sections[..n], msgId, i);
      assert !Expires(sections, i, n);
      hide Remembers, Accepts;
    } else {
      assert At(t, sections, n) == End(t, sections[..n]);
    }
  }

  lemma {:induction false} SeenIsRemembered(t: TransportType, sections: seq<Section>, msgId: string) returns (i: nat)
    requires msgId in End(t, sections).seen
    ensures i < |sections| && Remembers(t, sections, msgId, i)
    decreases |sections|
  {
    AtEnd(t, sections);
    var n := |sections| - 1;
    if msgId in End(t, sections[..n]).seen {
      i := SeenIsRemembered(t, sections[..n], msgId);
      RememberedIsSeen(t, sections[..n], msgId, i);
      RemembersLonger(t, sections, msgId, i);
    } else {
      i := n;
      assert At(t, sections, n) == End(t, sections[..n]);
    }
  }

  /**
   * A message is refused as a duplicate exactly when an earlier section accepted its id and no
   * cleaning in between, going by the time that cleaner had sampled, found that 300 seconds old.
   */
  lemma RefusedIff(t: TransportType, sections: seq<Section>, j: nat)
    requires j < |sections| && sections[j].Mark?
    ensures !Accepts(t, sections, sections[j].msgId, j)
       <==> exists i :: 0 <= i < j && Accepts(t, sections, sections[j].msgId, i)
                        && forall k | i < k < j :: !Expires(sections, i, k)
  {
    var before, msgId := sections[..j], sections[j].msgId;
    forall i | 0 <= i < j
      ensures Remembers(t, before, msgId, i)
         <==> Accepts(t, sections, msgId, i) && forall k | i < k < j :: !Expires(sections, i, k)
    {
      assert before[..i] == sections[..i];
      assert forall k | i < k < j && before[i].Mark? :: Expires(before, i, k) <==> Expires(sections, i, k);
    }
    if !Accepts(t, sections, msgId, j) {
      var i := SeenIsRemembered(t, before, msgId);
    } else {
      forall i | 0 <= i < j ensures !Remembers(t, before, msgId, i) {
        if Remembers(t, before, msgId, i) { RememberedIsSeen(t, before, msgId, i); }
      }
    }
  }

  /**
   * The clock does not run backwards: a message is stamped while the lock is held, a cleaner
   * samples its time at some moment before it gets the lock.
   */
  predicate Clocked(sections: seq<Section>) {
    forall k, j | 0 <= k < j < |sections| && sections[k].Sweep? && sections[j].Mark? ::
      sections[k].now <= sections[j].now
  }

  /** Two acceptances of one message id are at least 300 seconds apart. */
  lemma AcceptedOncePerTtl(t: TransportType, sections: seq<Section>, msgId: string, i: nat, j: nat)
    requires Clocked(sections) && i < j < |sections|
    requires Accepts(t, sections, msgId, i) && Accepts(t, sections, msgId, j)
    ensures sections[j].now >= sections[i].now + 300_000_000_000
  {
    RefusedIff(t, sections, j);
    var k :| i < k < j && Expires(sections, i, k);
    assert sections[k].now <= sections[j].now;
  }

  /** And no longer is promised: after exactly 300 seconds and a cleaning the id is new again. */
  lemma TtlAttained(t: TransportType, msgId: string, start: Time)
    ensures var later := start + 300_000_000_000;
            var sections := [Mark(msgId, start), Sweep(later), Mark(msgId, later)];
            Clocked(sections) && Accepts(t, sections, msgId, 0) && Accepts(t, sections, msgId, 2)
  {
    var sections := [Mark(msgId, start), Sweep(start + SEEN_TTL), Mark(msgId, start + SEEN_TTL)];
    assert sections[..0] == [] && sections[..2] == [Mark(msgId, start), Sweep(start + SEEN_TTL)];
    RunTwo(Init(t), Mark(msgId, start), Sweep(start + SEEN_TTL));
  }
}
