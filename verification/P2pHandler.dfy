/**
 * `P2pHandler`: the peer table, the resource cache, the pending requests and the seen message
 * ids. Each method works in sections, one per time it holds a lock; concurrent methods
 * interleave between sections, so the properties are about every sequence of sections.
 */
module P2pHandler {
  import opened Wrappers

  type PeerId = nat
  type RequestId = nat
  /** An `Instant` or a `Duration`, in nanoseconds. */
  type Time = nat

  const SEEN_TTL: Time := 300 * 1_000_000_000

  datatype TransportType = WebTransport | WebRTC | Unknown

  datatype PeerState = PeerState(
    peerId: PeerId, lastSeen: Time, messagesSent: nat, messagesReceived: nat, transportType: TransportType)

  datatype RequestType = Generic | ForContent(id: string) | ForResource(uri: string)

  datatype Resource = Resource(uri: string, name: string, description: string, mimeType: string)

  /** `McpMessage`; the text of a content is not looked at. */
  datatype McpMessage = ContentMessage | ResourceMessage(resource: Resource)

  /** `ProtocolMessage`; of the contents of a response only their presence matters. */
  datatype ProtocolMessage =
    | Content
    | SharedResource(resource: Resource)
    | ResourceRequest(uri: string)
    | ResourceResponse(id: string, contents: bool)
    | Ping(uuid: nat)
    | Pong(uuid: nat)

  /** What a gossip or response payload parses as: tried first as `McpMessage`, then as `ProtocolMessage`. */
  datatype Payload = Standard(message: McpMessage) | Internal(inner: ProtocolMessage) | Garbage

  /** What a direct request parses as: tried first as `ProtocolMessage`, then as `Resource`. */
  datatype RequestPayload = AsProtocol(message: ProtocolMessage) | AsResource(resource: Resource) | NoRequest

  datatype Reply = Empty | ReplyPong | ReplyResource(resource: Resource) | ReplyMissing(uri: string)

  // `duration_since` is zero for an instant that is still to come.
  function DurationSince(now: Time, earlier: Time): Time {
    if now >= earlier then now - earlier else 0
  }

  // ---------- Sections ----------

  datatype State = State(
    peers: map<PeerId, PeerState>, pending: map<RequestId, RequestType>,
    cache: map<string, Resource>, seen: map<string, Time>, transportType: TransportType)

  function Init(transportType: TransportType): State {
    State(map[], map[], map[], map[], transportType)
  }

  /** What one method does to one of the maps while it holds that map's lock. */
  datatype Section =
    | Touch(peer: PeerId, outgoing: bool, now: Time)
    | Register(peer: PeerId, transportType: TransportType, now: Time)
    | Unregister(peer: PeerId)
    | KeepRecent(timeout: Time, now: Time)
    | DropStale(timeout: Time, now: Time)
    | Put(key: string, resource: Resource)
    | Ask(id: RequestId, reqType: RequestType)
    | Forget(id: RequestId)
    | Mark(msgId: string, now: Time)
    | Sweep(now: Time)
    | SetTransport(transportType: TransportType)

  function Fresh(peer: PeerId, transportType: TransportType, now: Time): PeerState {
    PeerState(peer, now, 0, 0, transportType)
  }

  function Touched(p: PeerState, outgoing: bool, now: Time): PeerState {
    p.(lastSeen := now,
       messagesSent := p.messagesSent + (if outgoing then 1 else 0),
       messagesReceived := p.messagesReceived + (if outgoing then 0 else 1))
  }

  function Apply(s: State, section: Section): State {
    match section
    case Touch(peer, outgoing, now) =>
      var entry := if peer in s.peers then s.peers[peer] else Fresh(peer, s.transportType, now);
      s.(peers := s.peers[peer := Touched(entry, outgoing, now)])
    case Register(peer, transportType, now) => s.(peers := s.peers[peer := Fresh(peer, transportType, now)])
    case Unregister(peer) => s.(peers := s.peers - {peer})
    case KeepRecent(timeout, now) =>
      s.(peers := map p | p in s.peers && DurationSince(now, s.peers[p].lastSeen) < timeout :: s.peers[p])
    case DropStale(timeout, now) => s.(peers := s.peers - Stale(s.peers, timeout, now))
    case Put(key, resource) => s.(cache := s.cache[key := resource])
    case Ask(id, reqType) => s.(pending := s.pending[id := reqType])
    case Forget(id) => s.(pending := s.pending - {id})
    case Mark(msgId, now) => if msgId in s.seen then s else s.(seen := s.seen[msgId := now])
    case Sweep(now) => s.(seen := map m | m in s.seen && DurationSince(now, s.seen[m]) < SEEN_TTL :: s.seen[m])
    case SetTransport(transportType) => s.(transportType := transportType)
  }

  function Stale(peers: map<PeerId, PeerState>, timeout: Time, now: Time): set<PeerId> {
    set p | p in peers && DurationSince(now, peers[p].lastSeen) > timeout
  }

  function Run(s: State, sections: seq<Section>): State {
    if sections == [] then s
    else Apply(Run(s, sections[..|sections| - 1]), sections[|sections| - 1])
  }

  // ---------- Operations, as the sections they run ----------

  const CONTENT_MIME := "application/octet-stream"

  function ContentResource(uuid: string, nameId: string): Resource {
    Resource("p2p://" + uuid, "P2P Content " + nameId, "Content shared via P2P transport", CONTENT_MIME)
  }

  function ReceivedResource(id: string): Resource {
    Resource(id, "Resource-" + id, "P2P received resource", CONTENT_MIME)
  }

  function Store(resource: Resource): seq<Section> {
    [Put(resource.uri, resource)]
  }

  /** The random parts of a content's name. */
  datatype Uuids = Uuids(uri: string, name: string)

  function RegisterContentSections(ids: Uuids): seq<Section> {
    Store(ContentResource(ids.uri, ids.name))
  }

  function MessageSections(peer: PeerId, message: McpMessage, ids: Uuids, now: Time): seq<Section> {
    [Touch(peer, false, now)] +
    match message
    case ContentMessage => RegisterContentSections(ids)
    case ResourceMessage(resource) => Store(resource)
  }

  function ProtocolSections(peer: PeerId, message: ProtocolMessage, ids: Uuids, now: Time): seq<Section> {
    [Touch(peer, false, now)] +
    match message
    case Content => RegisterContentSections(ids)
    case SharedResource(resource) => Store(resource)
    case ResourceResponse(id, contents) => if contents then Store(ReceivedResource(id)) else []
    case _ => []
  }

  function RequestSections(peer: PeerId, request: RequestPayload, ids: Uuids, now: Time): seq<Section> {
    [Touch(peer, false, now)]
    + if request.AsProtocol? && request.message.Content? then RegisterContentSections(ids) else []
  }

  /** Sections of `handle_gossipsub` on a message whose id is new, after `Mark`. */
  function FreshGossipSections(peer: PeerId, payload: Payload, ids: Uuids, now: Time, later: Time): seq<Section> {
    [Touch(peer, false, now)] +
    match payload
    case Standard(message) => MessageSections(peer, message, ids, later)
    case Internal(message) => ProtocolSections(peer, message, ids, later)
    case Garbage => []
  }

  // What a response stores, given what was asked under its id.
  function AnswerSections(payload: Payload, asked: Option<RequestType>, ids: Uuids): seq<Section> {
    match payload
    case Standard(ResourceMessage(resource)) => Store(resource)
    case Standard(ContentMessage) => RegisterContentSections(ids)
    case Internal(ResourceResponse(id, contents)) =>
      if asked == Some(ForResource(id)) && contents then Store(ReceivedResource(id)) else []
    case Internal(SharedResource(resource)) => Store(resource)
    case _ => []
  }

  function Asked(pending: map<RequestId, RequestType>, id: RequestId): Option<RequestType> {
    if id in pending then Some(pending[id]) else None
  }

  /**
   * What `handle_response` goes on with once the request is closed; `result` is None for a failed
   * request and Some(None) for an empty response.
   */
  function ResponseSections(result: Option<Option<Payload>>, asked: Option<RequestType>, ids: Uuids): seq<Section> {
    if result.Some? && result.value.Some? then AnswerSections(result.value.value, asked, ids) else []
  }

  /** What `handle_gossipsub` goes on with once it has marked the message: nothing for a duplicate. */
  function GossipSections(
    duplicate: bool, peer: PeerId, payload: Payload, ids: Uuids, now: Time, later: Time): seq<Section>
  {
    if duplicate then [] else FreshGossipSections(peer, payload, ids, now, later)
  }

  /** `P2pHandler` itself; its methods run their sections one after the other. */
  class Handler {
    var peerStates: map<PeerId, PeerState>
    var pendingRequests: map<RequestId, RequestType>
    var resourceCache: map<string, Resource>
    var seenMessages: map<string, Time>
    var transportType: TransportType

    function Value(): State
      reads this
    {
      State(peerStates, pendingRequests, resourceCache, seenMessages, transportType)
    }

    constructor WithTransport(transportType: TransportType)
      ensures Value() == Init(transportType)
    {
      this.peerStates, this.pendingRequests, this.resourceCache, this.seenMessages := map[], map[], map[], map[];
      this.transportType := transportType;
    }

    method SetTransportType(transportType: TransportType)
      modifies this
      ensures Value() == Apply(old(Value()), SetTransport(transportType))
      ensures this.transportType == transportType
    {
      this.transportType := transportType;
    }

    method RegisterContent(ids: Uuids)
      modifies this
      ensures Value() == Run(old(Value()), RegisterContentSections(ids))
      ensures var uri := "p2p://" + ids.uri;
              resourceCache == old(resourceCache)[
                uri := Resource(uri, "P2P Content " + ids.name, "Content shared via P2P transport",
                                "application/octet-stream")]
    {
      var resource := Resource("p2p://" + ids.uri, "P2P Content " + ids.name,
                               "Content shared via P2P transport", CONTENT_MIME);
      resourceCache := resourceCache[resource.uri := resource];
      RunOne(old(Value()), Put(resource.uri, resource));
    }

    method LookupResource(uri: string) returns (resource: Option<Resource>)
      ensures resource == if uri in resourceCache then Some(resourceCache[uri]) else None
    {
      return if uri in resourceCache then Some(resourceCache[uri]) else None;
    }

    method UpdatePeerState(peer: PeerId, isOutgoing: bool, now: Time)
      modifies this
      ensures Value() == Apply(old(Value()), Touch(peer, isOutgoing, now))
    {
      if peer !in peerStates {
        peerStates := peerStates[peer := PeerState(peer, now, 0, 0, transportType)];
      }
      var state := peerStates[peer].(lastSeen := now);
      if isOutgoing {
        state := state.(messagesSent := state.messagesSent + 1);
      } else {
        state := state.(messagesReceived := state.messagesReceived + 1);
      }
      peerStates := peerStates[peer := state];
    }

    method RegisterPeer(peer: PeerId, transportType: TransportType, now: Time)
      modifies this
      ensures Value() == Apply(old(Value()), Register(peer, transportType, now))
      ensures peerStates == old(peerStates)[peer := PeerState(peer, now, 0, 0, transportType)]
    {
      peerStates := peerStates[peer := PeerState(peer, now, 0, 0, transportType)];
    }

    method UnregisterPeer(peer: PeerId)
      modifies this
      ensures Value() == Apply(old(Value()), Unregister(peer))
      ensures peerStates == old(peerStates) - {peer}
    {
      peerStates := peerStates - {peer};
    }

    method CleanupPeers(timeout: Time, now: Time)
      modifies this
      ensures Value() == Apply(old(Value()), KeepRecent(timeout, now))
      ensures forall p :: p in peerStates <==>
                p in old(peerStates) && timeout > 0 && now < old(peerStates)[p].lastSeen + timeout
      ensures forall p | p in peerStates :: peerStates[p] == old(peerStates)[p]
    {
      peerStates := map p | p in peerStates && DurationSince(now, peerStates[p].lastSeen) < timeout :: peerStates[p];
    }

    /** The stale peers are listed first and then removed one by one; one `now` serves peers and message ids. */
    method CleanStalePeers(timeout: Time, now: Time)
      modifies this
      ensures Value() == Run(old(Value()), [DropStale(timeout, now), Sweep(now)])
      ensures forall p :: p in peerStates <==> p in old(peerStates) && now <= old(peerStates)[p].lastSeen + timeout
      ensures forall p | p in peerStates :: peerStates[p] == old(peerStates)[p]
      ensures forall m :: m in seenMessages <==> m in old(seenMessages) && now < old(seenMessages)[m] + 300_000_000_000
    {
      ghost var before := Value();
      var stale := set p | p in peerStates && DurationSince(now, peerStates[p].lastSeen) > timeout;
      RemovePeers(stale);
      assert stale == Stale(before.peers, timeout, now);
      assert Value() == Apply(before, DropStale(timeout, now));
      seenMessages := map m | m in seenMessages && DurationSince(now, seenMessages[m]) < SEEN_TTL :: seenMessages[m];
      RunTwo(before, DropStale(timeout, now), Sweep(now));
      assert Value() == Run(before, [DropStale(timeout, now), Sweep(now)]);
      hide Run, Apply, Stale, DurationSince;
      CleanersKeep(before, timeout, now);
    }

    method RemovePeers(stale: set<PeerId>)
      modifies this`peerStates
      ensures peerStates == old(peerStates) - stale
    {
      var rest := stale;
      while rest != {}
        invariant rest <= stale && peerStates == old(peerStates) - (stale - rest)
        decreases rest
      {
        var peer :| peer in rest;
        peerStates := peerStates - {peer};
        rest := rest - {peer};
      }
    }

    method ProcessMessage(peer: PeerId, message: McpMessage, ids: Uuids, now: Time)
      modifies this
      ensures Value() == Run(old(Value()), MessageSections(peer, message, ids, now))
    {
      UpdatePeerState(peer, false, now);
      RunOne(old(Value()), Touch(peer, false, now));
      match message {
        case ContentMessage =>
          RunAppend(old(Value()), [Touch(peer, false, now)], RegisterContentSections(ids));
          RegisterContent(ids);
        case ResourceMessage(resource) =>
          RunTwo(old(Value()), Touch(peer, false, now), Put(resource.uri, resource));
          resourceCache := resourceCache[resource.uri := resource];
      }
    }

    /** A resource request is answered from the cache, a ping by its pong, anything else not at all. */
    method ProcessProtocolMessage(peer: PeerId, message: ProtocolMessage, ids: Uuids, now: Time)
      returns (reply: Option<ProtocolMessage>)
      modifies this
      ensures Value() == Run(old(Value()), ProtocolSections(peer, message, ids, now))
      ensures reply == match message
                       case ResourceRequest(uri) => Some(ResourceResponse(uri, uri in old(resourceCache)))
                       case Ping(id) => Some(Pong(id))
                       case _ => None
    {
      ghost var before := Value();
      UpdatePeerState(peer, false, now);
      RunOne(before, Touch(peer, false, now));
      match message {
        case Content =>
          RunAppend(before, [Touch(peer, false, now)], RegisterContentSections(ids));
          RegisterContent(ids);
          return None;
        case SharedResource(resource) =>
          RunTwo(before, Touch(peer, false, now), Put(resource.uri, resource));
          resourceCache := resourceCache[resource.uri := resource];
          return None;
        case ResourceRequest(uri) =>
          return Some(ResourceResponse(uri, uri in resourceCache));
        case ResourceResponse(id, contents) =>
          if contents {
            RunTwo(before, Touch(peer, false, now), Put(id, ReceivedResource(id)));
            resourceCache := resourceCache[id := Resource(id, "Resource-" + id, "P2P received resource", CONTENT_MIME)];
          }
          return None;
        case Ping(id) =>
          return Some(Pong(id));
        case Pong(_) =>
          return None;
      }
    }

    /** `encodes`: whether the response serialises. What is not understood is answered by nothing. */
    method HandleRequest(peer: PeerId, request: RequestPayload, ids: Uuids, now: Time, encodes: bool)
      returns (reply: Reply)
      modifies this
      ensures Value() == Run(old(Value()), RequestSections(peer, request, ids, now))
      ensures !encodes ==> reply == Empty
      ensures encodes ==>
                reply == match request
                         case AsProtocol(ResourceRequest(uri)) =>
                           if uri in old(resourceCache) then ReplyResource(old(resourceCache)[uri])
                           else ReplyMissing(uri)
                         case AsProtocol(Content) => ReplyPong
                         case AsResource(r) => ReplyResource(Resource(r.uri, "Response", "Resource response", "text"))
                         case _ => Empty
    {
      ghost var before := Value();
      UpdatePeerState(peer, false, now);
      RunOne(before, Touch(peer, false, now));
      match request {
        case AsProtocol(message) =>
          match message {
            case ResourceRequest(uri) =>
              var found := LookupResource(uri);
              reply := if found.Some? then ReplyResource(found.value) else ReplyMissing(uri);
            case Content =>
              RunAppend(before, [Touch(peer, false, now)], RegisterContentSections(ids));
              RegisterContent(ids);
              reply := ReplyPong;
            case _ =>
              reply := Empty;
          }
        case AsResource(r) =>
          reply := ReplyResource(Resource(r.uri, "Response", "Resource response", "text"));
        case NoRequest =>
          reply := Empty;
      }
      if !encodes { reply := Empty; }
    }

    method StoreResource(resource: Resource)
      modifies this
      ensures Value() == Run(old(Value()), Store(resource))
    {
      resourceCache := resourceCache[resource.uri := resource];
      RunOne(old(Value()), Put(resource.uri, resource));
    }

    /** Sends nothing itself: `recipients` are the peers it goes over. */
    method BroadcastResource(resource: Resource) returns (recipients: set<PeerId>)
      modifies this
      ensures Value() == Run(old(Value()), Store(resource)) && recipients == peerStates.Keys
    {
      StoreResource(resource);
      recipients := peerStates.Keys;
    }

    /** True for a message that is new and was understood; a duplicate changes nothing at all. */
    method HandleGossipsub(
      peer: PeerId, msgId: string, payload: Payload, ids: Uuids, marked: Time, now: Time, later: Time)
      returns (handled: bool)
      modifies this
      ensures handled <==> msgId !in old(seenMessages) && !payload.Garbage?
      ensures msgId in old(seenMessages) ==> Value() == old(Value())
      ensures var rest := GossipSections(msgId in old(seenMessages), peer, payload, ids, now, later);
              Value() == Run(old(Value()), [Mark(msgId, marked)] + rest)
    {
      ghost var before := Value();
      RunOne(before, Mark(msgId, marked));
      if msgId in seenMessages {
        assert [Mark(msgId, marked)] + [] == [Mark(msgId, marked)];
        return false;
      }
      seenMessages := seenMessages[msgId := marked];
      RunAppend(before, [Mark(msgId, marked)], FreshGossipSections(peer, payload, ids, now, later));
      handled := HandleFresh(peer, payload, ids, now, later);
    }

    method HandleFresh(peer: PeerId, payload: Payload, ids: Uuids, now: Time, later: Time) returns (handled: bool)
      modifies this
      ensures handled <==> !payload.Garbage?
      ensures Value() == Run(old(Value()), FreshGossipSections(peer, payload, ids, now, later))
    {
      ghost var before, head := Value(), [Touch(peer, false, now)];
      hide Run, Apply, MessageSections, ProtocolSections;
      RunOne(before, Touch(peer, false, now));
      UpdatePeerState(peer, false, now);
      match payload {
        case Standard(message) =>
          RunAppend(before, head, MessageSections(peer, message, ids, later));
          ProcessMessage(peer, message, ids, later);
          return true;
        case Internal(message) =>
          RunAppend(before, head, ProtocolSections(peer, message, ids, later));
          var _ := ProcessProtocolMessage(peer, message, ids, later);
          return true;
        case Garbage =>
          assert head + [] == head;
          return false;
      }
    }

    method HandleResponse(peer: PeerId, id: RequestId, result: Option<Option<Payload>>, ids: Uuids, now: Time)
      modifies this
      ensures var rest := ResponseSections(result, Asked(old(pendingRequests), id), ids);
              Value() == Run(old(Value()), [Touch(peer, false, now), Forget(id)] + rest)
    {
      ghost var before := Value();
      UpdatePeerState(peer, false, now);
      var asked := if id in pendingRequests then Some(pendingRequests[id]) else None;
      pendingRequests := pendingRequests - {id};
      ghost var head := [Touch(peer, false, now), Forget(id)];
      RunTwo(before, Touch(peer, false, now), Forget(id));
      assert head + [] == head;
      if result.Some? && result.value.Some? {
        RunAppend(before, head, AnswerSections(result.value.value, asked, ids));
        StoreAnswer(result.value.value, asked, ids);
      }
    }

    method StoreAnswer(payload: Payload, asked: Option<RequestType>, ids: Uuids)
      modifies this
      ensures Value() == Run(old(Value()), AnswerSections(payload, asked, ids))
    {
      match payload {
        case Standard(message) =>
          match message {
            case ResourceMessage(resource) => StoreResource(resource);
            case ContentMessage => RegisterContent(ids);
          }
        case Internal(message) =>
          match message {
            case ResourceResponse(uri, contents) =>
              if asked == Some(ForResource(uri)) && contents { StoreResource(ReceivedResource(uri)); }
            case SharedResource(resource) => StoreResource(resource);
            case _ =>
          }
        case Garbage =>
      }
    }

    method GetPeerCountByTransport(wanted: Option<TransportType>) returns (count: nat)
      ensures wanted.None? ==> count == |peerStates|
      ensures wanted.Some? ==> count == |set p | p in peerStates && peerStates[p].transportType == wanted.value|
    {
      if wanted.None? { return |peerStates|; }
      count := 0;
      var rest := peerStates.Keys;
      ghost var found := set p | p in peerStates && peerStates[p].transportType == wanted.value;
      while rest != {}
        invariant rest <= peerStates.Keys
        invariant count == |found - rest|
        decreases rest
      {
        var peer :| peer in rest;
        CountOne(found, rest, peer);
        rest := rest - {peer};
        if peerStates[peer].transportType == wanted.value { count := count + 1; }
      }
      assert found - {} == found;
      ghost var same := set p | p in peerStates && peerStates[p].transportType == wanted.value;
      assert found == same;
    }
  }

  // Going past one more peer adds it if it is to be found.
  lemma CountOne(found: set<PeerId>, rest: set<PeerId>, peer: PeerId)
    requires peer in rest
    ensures |found - (rest - {peer})| == |found - rest| + if peer in found then 1 else 0
  {
    assert found - (rest - {peer}) == (found - rest) + if peer in found then {peer} else {};
  }

  function PeersOf(peers: map<PeerId, PeerState>, t: TransportType): set<PeerId> {
    set p | p in peers && peers[p].transportType == t
  }

  function CountOf(peers: map<PeerId, PeerState>, t: TransportType): nat {
    |PeersOf(peers, t)|
  }

  lemma RunOne(s: State, a: Section)
    ensures Run(s, [a]) == Apply(s, a)
  {
    assert [a][..0] == [];
  }

  lemma RunTwo(s: State, a: Section, b: Section)
    ensures Run(s, [a, b]) == Apply(Apply(s, a), b)
  {
    RunOne(s, a);
    assert [a, b][..1] == [a];
  }

  lemma {:induction false} RunAppend(s: State, a: seq<Section>, b: seq<Section>)
    ensures Run(s, a + b) == Run(Run(s, a), b)
  {
    if b == [] {
      assert a + b == a;
    } else {
      assert (a + b)[..|a + b| - 1] == a + b[..|b| - 1];
      RunAppend(s, a, b[..|b| - 1]);
    }
  }

  /** Which peers each cleaner keeps, by when they were last seen; what it keeps it leaves as it was. */
  lemma CleanersKeep(s: State, timeout: Time, now: Time)
    ensures var t := Run(s, [DropStale(timeout, now), Sweep(now)]);
            && (forall p :: p in t.peers <==> p in s.peers && now <= s.peers[p].lastSeen + timeout)
            && (forall p | p in t.peers :: t.peers[p] == s.peers[p])
            && (forall m :: m in t.seen <==> m in s.seen && now < s.seen[m] + 300_000_000_000)
    ensures var t := Run(s, [KeepRecent(timeout, now)]);
            && (forall p :: p in t.peers <==> p in s.peers && timeout > 0 && now < s.peers[p].lastSeen + timeout)
            && (forall p | p in t.peers :: t.peers[p] == s.peers[p])
  {
    RunTwo(s, DropStale(timeout, now), Sweep(now));
    RunOne(s, KeepRecent(timeout, now));
    hide Run;
  }
}
