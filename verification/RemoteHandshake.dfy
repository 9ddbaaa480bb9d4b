/** The handshake of a client with a server driving a router, when nothing disturbs it. */
module RemoteHandshake {
  import opened Wrappers
  import opened Json
  import opened Protocol
  import opened Client
  import opened ClientRun
  import opened ClientUndisturbed
  import opened Transparency
  import opened RemoteCalls

  // What a router offers: its capabilities that are not null.
  predicate Offered(capability: Option<Value>) {
    capability.Some? && capability.value != Null
  }

  lemma RouterOffers(r: R.Router, result: Result<Value, ClientError>)
    requires InitializeGives(r, result)
    ensures var caps := AdvertisedBy(result.value);
            && (caps.prompts <==> Offered(r.capabilities.prompts))
            && (caps.resources <==> Offered(r.capabilities.resources))
            && (caps.tools <==> Offered(r.capabilities.tools))
  {
  }

  /**
   * From any quiescent state reached, an undisturbed `initialize` sends its request and its
   * notification, and leaves the client ready, with the capabilities that the router offers.
   */
  lemma UndisturbedHandshake(r: R.Router, kind: Kind, steps: seq<Step>, s: State, params: Value)
    returns (all: seq<Step>, t: State)
    requires After(kind, steps) == Some(s) && Quiescent(s) && |s.channels| + 1 < TWO64 - 1
    ensures steps <= all && After(kind, all) == Some(t) && Quiescent(t) && |t.channels| == |s.channels| + 1
    ensures t.wire == s.wire + [
              Request(RpcRequest("2.0", Some(|s.channels| + 1), "initialize", Some(params))),
              Notification(RpcNotification("2.0", "notifications/initialized", Some(Obj(map[]))))]
    ensures t.capabilities.Some?
            && (t.capabilities.value.prompts <==> Offered(r.capabilities.prompts))
            && (t.capabilities.value.resources <==> Offered(r.capabilities.resources))
            && (t.capabilities.value.tools <==> Offered(r.capabilities.tools))
  {
    hide After, ReturnedDirect, SendSteps, ReceiveSteps, NotifySteps, InitializeGives, Offered, AdvertisedBy, Direct;
    var issue := BeginInitialize(params);
    assert CanCall(s, issue);
    var v, mid;
    all, v, mid := UndisturbedCallReturns(r, kind, steps, s, issue);
    InitializeIs(r, params);
    HandshakeGoesOn(r, s, params, v, mid);
    RouterOffers(r, Direct(r, "initialize", params));
    all, t := NotifyRun(kind, all, mid);
  }

  lemma HandshakeGoesOn(r: R.Router, s: State, params: Value, v: Value, t: State)
    requires ReturnedDirect(r, s, BeginInitialize(params), v, t)
    requires InitializeGives(r, Direct(r, "initialize", params))
    ensures |s.channels| < TWO64 - 1 && Direct(r, "initialize", params).Ok?
    ensures t.caller == Idle && TransportIdle(t) && |t.channels| == |s.channels| + 1
    ensures t.phase == Notifying(|s.channels|, AdvertisedBy(Direct(r, "initialize", params).value))
    ensures t.wire == s.wire + [Request(RpcRequest("2.0", Some(|s.channels| + 1), "initialize", Some(params)))]
  {
    hide Direct, Served, AdvertisedBy;
  }
}
