/** The client registry of src/services/mod.rs: WebSocket connections wait
    in an unauthenticated map until an `auth` message moves them to the
    authenticated map; only authenticated clients may send danmaku or pings.
    Each connection has an outgoing channel; a send fails once the
    connection's writer is gone, which the environment decides (`live`).
    Every successful send is recorded in `sent`, in order. The locks, the
    logging and the progress forwarding task are outside the model. */
module Services {
  import opened Wrappers
  import opened Bytes
  import opened Models
  import Errors
  import Auth

  /** A connection's id, a random UUID in the server. */
  type ClientId = nat

  /** The sending half of a connection's outgoing channel. */
  type Channel = nat

  /** Whether a channel's receiver still exists, so that sending on it succeeds. */
  type Liveness = Channel -> bool

  /** A message handed to a channel. */
  datatype Delivery = Delivery(channel: Channel, message: WebSocketMessage)

  /** An entry of the authenticated map. */
  datatype Registered = Registered(client: AuthenticatedClient, sender: Channel)

  /** The danmaku workflow: the result of processing a danmaku for a user, or the error text. */
  type Workflow = (string, string) -> Result<DanmakuProcessingResult, string>

  const WELCOME := Connected("WebSocket连接已建立，需要认证后才能使用功能", true, "pending")
  const AUTH_SUCCESS_TEXT := "认证成功"
  const AUTH_REQUIRED := AuthRequired("使用任何功能都需要先进行身份认证")
  const NOT_AUTHENTICATED := "Client not authenticated"

  /** The final `danmaku_result` message for a processed danmaku; the audio
      is sent as base64. */
  function ResultMessage(content: string, result: DanmakuProcessingResult, base64: seq<byte> -> string): (m: WebSocketMessage)
    ensures m.DanmakuResult? && m.success && m.originalDanmaku == content
    ensures m.intentType == AsStr(result.intentType) && m.textResponse == result.textResponse
    ensures m.hasAudio <==> m.audioData.Some?
    ensures m.hasAudio <==> result.audioData.Some?
    ensures m.hasAudio ==> m.audioData.value == base64(result.audioData.value)
    ensures m.hasImage <==> m.imageData.Some?
    ensures m.imageData == result.imageUrl
  {
    DanmakuResult(
      true, content, AsStr(result.intentType), result.textResponse,
      result.audioData.Some?, result.imageUrl.Some?,
      if result.audioData.Some? then Some(base64(result.audioData.value)) else None,
      result.imageUrl)
  }

  /** The sends of a broadcast over the clients in `order` that succeed, in
      that order (ids without an entry have no channel and are passed over). */
  function Deliveries(order: seq<ClientId>, clients: map<ClientId, Registered>, message: WebSocketMessage, live: Liveness): (r: seq<Delivery>)
    ensures |r| <= |order|
    ensures forall d :: d in r ==> d.message == message && live(d.channel)
  {
    if order == [] then []
    else
      var id := order[|order| - 1];
      Deliveries(order[..|order| - 1], clients, message, live)
        + (if id in clients && live(clients[id].sender) then [Delivery(clients[id].sender, message)] else [])
  }

  /** The clients in `order` whose send fails, in that order. */
  function FailedClients(order: seq<ClientId>, clients: map<ClientId, Registered>, live: Liveness): (r: seq<ClientId>)
  {
    if order == [] then []
    else
      var id := order[|order| - 1];
      FailedClients(order[..|order| - 1], clients, live) + (if id in clients && !live(clients[id].sender) then [id] else [])
  }

  /** A client is among the failed ones exactly when it is in the order and
      its channel is closed. */
  lemma {:induction false} FailedClientsExactly(order: seq<ClientId>, clients: map<ClientId, Registered>, live: Liveness, id: ClientId)
    ensures id in FailedClients(order, clients, live) <==> id in order && id in clients && !live(clients[id].sender)
  {
    if order != [] {
      var init := order[..|order| - 1];
      FailedClientsExactly(init, clients, live, id);
      assert order == init + [order[|order| - 1]];
    }
  }

  /** Every authenticated client in the order whose channel is open receives the broadcast. */
  lemma {:induction false} DeliveriesReachLiveClients(order: seq<ClientId>, clients: map<ClientId, Registered>, message: WebSocketMessage,
                                                      live: Liveness, id: ClientId)
    requires id in order && id in clients && live(clients[id].sender)
    ensures Delivery(clients[id].sender, message) in Deliveries(order, clients, message, live)
  {
    var init := order[..|order| - 1];
    assert order == init + [order[|order| - 1]];
    if order[|order| - 1] != id {
      DeliveriesReachLiveClients(init, clients, message, live, id);
    }
  }

  class WebSocketManager {
    const authService: Auth.AuthService
    var clients: map<ClientId, Registered>
    var unauthenticated: map<ClientId, Channel>
    var sent: seq<Delivery>

    /** No connection is in both maps. */
    predicate Valid()
      reads this
    {
      clients.Keys !! unauthenticated.Keys
    }

    /** `is_authenticated`: the connection is in the authenticated map, and
        so, on a valid registry, no longer waiting. */
    predicate IsAuthenticated(id: ClientId)
      reads this
      ensures IsAuthenticated(id) <==> id in clients
      ensures Valid() && IsAuthenticated(id) ==> id !in unauthenticated
    {
      id in clients
    }

    /** `get_authenticated_client_count`. */
    function AuthenticatedClientCount(): (r: nat)
      reads this
      ensures r == |clients.Keys|
      ensures r == 0 <==> forall id :: !IsAuthenticated(id)
    {
      if |clients| > 0 then
        var id :| id in clients;
        assert IsAuthenticated(id);
        |clients|
      else
        |clients|
    }

    /** `get_total_client_count`: both maps together, which on a valid
        registry counts every connection exactly once. */
    function TotalClientCount(): (r: nat)
      reads this
      ensures Valid() ==> r == |clients.Keys + unauthenticated.Keys|
    {
      AuthenticatedClientCount() + |unauthenticated|
    }

    /** The delivery `send_to_client_direct` makes: through the authenticated
        entry when its send succeeds, otherwise through the unauthenticated one. */
    function DirectDelivery(id: ClientId, message: WebSocketMessage, live: Liveness): (r: seq<Delivery>)
      reads this
      ensures |r| <= 1
      ensures r != [] ==> r[0].message == message && live(r[0].channel)
      ensures id !in clients && id !in unauthenticated ==> r == []
    {
      if id in clients && live(clients[id].sender) then [Delivery(clients[id].sender, message)]
      else if id in unauthenticated && live(unauthenticated[id]) then [Delivery(unauthenticated[id], message)]
      else []
    }

    constructor(authService: Auth.AuthService)
      ensures this.authService == authService
      ensures clients == map[] && unauthenticated == map[] && sent == []
      ensures Valid() && TotalClientCount() == 0
    {
      this.authService := authService;
      clients := map[];
      unauthenticated := map[];
      sent := [];
    }

    /** `add_unauthenticated_client`: registers the connection and greets it. */
    method AddUnauthenticatedClient(id: ClientId, sender: Channel, live: Liveness)
      modifies this
      ensures unauthenticated == old(unauthenticated)[id := sender] && clients == old(clients)
      ensures sent == old(sent) + (if live(sender) then [Delivery(sender, WELCOME)] else [])
      ensures old(Valid()) && id !in old(clients) ==> Valid()
      ensures id !in old(unauthenticated) ==> TotalClientCount() == old(TotalClientCount()) + 1
    {
      unauthenticated := unauthenticated[id := sender];
      if live(sender) {
        sent := sent + [Delivery(sender, WELCOME)];
      }
    }

    /** `authenticate_client`: on success the connection moves from the
        unauthenticated map to the authenticated one, keeping its channel,
        and is told so; a failure changes nothing. A connection that is not
        waiting in the unauthenticated map is accepted but not registered. */
    method AuthenticateClient(id: ClientId, data: AuthData, now: UtcTime, prim: Auth.Primitives, live: Liveness)
      returns (r: Result<Errors.Unit, string>)
      modifies this
      ensures var auth := Auth.Authenticate(authService, data, now, prim);
        && (r.Err? <==> auth.Err?)
        && (r.Err? ==> r.error == auth.error)
        && (auth.Ok? && id in old(unauthenticated) ==>
              && unauthenticated == old(unauthenticated) - {id}
              && clients == old(clients)[id := Registered(auth.value, old(unauthenticated)[id])]
              && sent == old(sent) + (if live(old(unauthenticated)[id]) then [Delivery(old(unauthenticated)[id], AuthSuccess(AUTH_SUCCESS_TEXT, data.userId, data.authType))] else []))
      ensures r.Err? || id !in old(unauthenticated) ==>
        clients == old(clients) && unauthenticated == old(unauthenticated) && sent == old(sent)
      ensures old(Valid()) ==> Valid() && TotalClientCount() == old(TotalClientCount())
      ensures r.Ok? && id in old(unauthenticated) ==> IsAuthenticated(id) && clients[id].client.userId == data.userId
    {
      var auth := Auth.Authenticate(authService, data, now, prim);
      if auth.Err? {
        return Err(auth.error);
      }
      if id in unauthenticated {
        MoveToAuthenticated(id, auth.value, live);
      }
      r := Ok(Errors.Unit);
    }

    /** The success path of `authenticate_client`: the waiting connection
        becomes an authenticated one on the same channel and is told so when
        the channel is live. */
    method MoveToAuthenticated(id: ClientId, client: AuthenticatedClient, live: Liveness)
      requires id in unauthenticated
      modifies this
      ensures unauthenticated == old(unauthenticated) - {id}
      ensures clients == old(clients)[id := Registered(client, old(unauthenticated)[id])]
      ensures sent == old(sent) + (if live(old(unauthenticated)[id]) then [Delivery(old(unauthenticated)[id], AuthSuccess(AUTH_SUCCESS_TEXT, client.userId, client.authType))] else [])
      ensures old(Valid()) ==> Valid() && TotalClientCount() == old(TotalClientCount())
    {
      var sender := unauthenticated[id];
      var entry := Registered(client, sender);
      Promote(clients, unauthenticated, id, entry);
      unauthenticated, clients := unauthenticated - {id}, clients[id := entry];
      if live(sender) {
        sent := sent + [Delivery(sender, AuthSuccess(AUTH_SUCCESS_TEXT, client.userId, client.authType))];
      }
    }

    /** `send_to_client`: only authenticated connections are reached. */
    method SendToClient(id: ClientId, message: WebSocketMessage, live: Liveness) returns (ok: bool)
      modifies this`sent
      ensures ok <==> id in clients && live(clients[id].sender)
      ensures sent == old(sent) + (if ok then [Delivery(clients[id].sender, message)] else [])
    {
      ok := false;
      if id in clients {
        var sender := clients[id].sender;
        if live(sender) {
          sent := sent + [Delivery(sender, message)];
          ok := true;
        }
      }
    }

    /** `send_to_client_direct`: the authenticated channel first, then the
        unauthenticated one. */
    method SendToClientDirect(id: ClientId, message: WebSocketMessage, live: Liveness)
      modifies this`sent
      ensures sent == old(sent) + DirectDelivery(id, message, live)
    {
      var ok := SendToClient(id, message, live);
      if ok {
        return;
      }
      if id in unauthenticated {
        var sender := unauthenticated[id];
        if live(sender) {
          sent := sent + [Delivery(sender, message)];
        }
      }
    }

    /** `send_auth_required`: tells the connection that it must authenticate first. */
    method SendAuthRequired(id: ClientId, live: Liveness)
      modifies this`sent
      ensures sent == old(sent) + DirectDelivery(id, AUTH_REQUIRED, live)
    {
      SendToClientDirect(id, AUTH_REQUIRED, live);
    }

    /** `process_danmaku`: runs the workflow for the user the connection
        authenticated as and sends the result; a workflow error is returned
        and nothing is sent. */
    method ProcessDanmaku(id: ClientId, content: string, workflow: Workflow, base64: seq<byte> -> string, live: Liveness)
      returns (r: Result<Errors.Unit, string>)
      modifies this`sent
      ensures id !in clients ==> r == Err(NOT_AUTHENTICATED) && sent == old(sent)
      ensures id in clients ==>
        var outcome := workflow(content, clients[id].client.userId);
        && (outcome.Err? ==> r == Err(outcome.error) && sent == old(sent))
        && (outcome.Ok? ==> (r.Ok? && sent == old(sent)
              + (if live(clients[id].sender) then [Delivery(clients[id].sender, ResultMessage(content, outcome.value, base64))] else [])))
    {
      if id !in clients {
        return Err(NOT_AUTHENTICATED);
      }
      var userId := clients[id].client.userId;
      var outcome := workflow(content, userId);
      if outcome.Err? {
        return Err(outcome.error);
      }
      var _ := SendToClient(id, ResultMessage(content, outcome.value, base64), live);
      r := Ok(Errors.Unit);
    }

    /** `handle_message`: authentication requests, danmaku and pings; any
        other message is ignored. A failed authentication, and a danmaku or a
        ping from a connection that has not authenticated, are answered with
        `auth_required` and nothing else. */
    method HandleMessage(id: ClientId, message: WebSocketMessage, now: UtcTime, prim: Auth.Primitives,
                         workflow: Workflow, base64: seq<byte> -> string, live: Liveness)
      returns (r: Result<Errors.Unit, string>)
      modifies this
      ensures old(Valid()) ==> Valid()
      ensures message.Auth? ==> r.Ok?
      ensures message.Auth? && Auth.Authenticate(authService, message.authData, now, prim).Err? ==>
        && clients == old(clients) && unauthenticated == old(unauthenticated)
        && sent == old(sent) + old(DirectDelivery(id, AUTH_REQUIRED, live))
      ensures message.Auth? && Auth.Authenticate(authService, message.authData, now, prim).Ok? ==>
        var auth := Auth.Authenticate(authService, message.authData, now, prim);
        if id in old(unauthenticated) then
          && unauthenticated == old(unauthenticated) - {id}
          && clients == old(clients)[id := Registered(auth.value, old(unauthenticated)[id])]
          && sent == old(sent) + (if live(old(unauthenticated)[id])
                                  then [Delivery(old(unauthenticated)[id], AuthSuccess(AUTH_SUCCESS_TEXT, message.authData.userId, message.authData.authType))]
                                  else [])
        else clients == old(clients) && unauthenticated == old(unauthenticated) && sent == old(sent)
      ensures (message.Danmaku? || message.Ping?) && id !in old(clients) ==>
        && r.Ok? && clients == old(clients) && unauthenticated == old(unauthenticated)
        && sent == old(sent) + old(DirectDelivery(id, AUTH_REQUIRED, live))
      ensures message.Ping? && id in old(clients) ==>
        && r.Ok? && clients == old(clients) && unauthenticated == old(unauthenticated)
        && sent == old(sent) + (if live(clients[id].sender) then [Delivery(clients[id].sender, Pong)] else [])
      ensures message.Danmaku? && id in old(clients) ==>
        var entry := old(clients)[id];
        var outcome := workflow(message.content, entry.client.userId);
        && clients == old(clients) && unauthenticated == old(unauthenticated)
        && (outcome.Err? ==> r == Err(outcome.error) && sent == old(sent))
        && (outcome.Ok? ==> (r.Ok? && sent == old(sent)
              + (if live(entry.sender) then [Delivery(entry.sender, ResultMessage(message.content, outcome.value, base64))] else [])))
      ensures !message.Auth? && !message.Danmaku? && !message.Ping? ==>
        r.Ok? && clients == old(clients) && unauthenticated == old(unauthenticated) && sent == old(sent)
    {
      r := Ok(Errors.Unit);
      match message
      case Auth(data) =>
        var auth := AuthenticateClient(id, data, now, prim, live);
        if auth.Err? {
          SendAuthRequired(id, live);
        }
      case Danmaku(content, _, _) =>
        if !IsAuthenticated(id) {
          SendAuthRequired(id, live);
          return;
        }
        r := ProcessDanmaku(id, content, workflow, base64, live);
      case Ping =>
        if !IsAuthenticated(id) {
          SendAuthRequired(id, live);
          return;
        }
        var _ := SendToClient(id, Pong, live);
      case _ =>
    }

    /** `remove_client`: an authenticated connection is removed from that map
        only; otherwise it is removed from the unauthenticated map. */
    method RemoveClient(id: ClientId)
      modifies this
      ensures id in old(clients) ==> clients == old(clients) - {id} && unauthenticated == old(unauthenticated)
      ensures id !in old(clients) ==> clients == old(clients) && unauthenticated == old(unauthenticated) - {id}
      ensures sent == old(sent)
      ensures old(Valid()) ==> Valid() && !IsAuthenticated(id) && id !in unauthenticated
      ensures old(Valid()) ==> TotalClientCount() == old(TotalClientCount()) - (if id in old(clients) || id in old(unauthenticated) then 1 else 0)
    {
      if id in clients {
        clients := clients - {id};
        return;
      }
      unauthenticated := unauthenticated - {id};
    }

    /** The clean-up loop of a broadcast: drops the given connections from the authenticated map. */
    method RemoveFailed(failed: seq<ClientId>)
      modifies this`clients
      ensures forall id :: id in clients <==> id in old(clients) && id !in failed
      ensures forall id :: id in clients ==> clients[id] == old(clients)[id]
    {
      var k := 0;
      while k < |failed|
        invariant 0 <= k <= |failed|
        invariant forall id :: id in clients <==> id in old(clients) && id !in failed[..k]
        invariant forall id :: id in clients ==> clients[id] == old(clients)[id]
      {
        assert failed[..k + 1] == failed[..k] + [failed[k]];
        clients := clients - {failed[k]};
        k := k + 1;
      }
      assert failed[..|failed|] == failed;
    }

    /** `broadcast_to_authenticated`: sends the message to every
        authenticated connection, in the order the map yields them
        (`order`), then drops exactly those whose send failed. */
    method BroadcastToAuthenticated(message: WebSocketMessage, order: seq<ClientId>, live: Liveness)
      requires forall k :: 0 <= k < |order| ==> order[k] in clients
      requires forall id :: id in clients ==> id in order
      requires forall a, b :: 0 <= a < b < |order| ==> order[a] != order[b]
      modifies this
      ensures sent == old(sent) + Deliveries(order, old(clients), message, live)
      ensures forall id :: id in clients <==> id in old(clients) && live(old(clients)[id].sender)
      ensures forall id :: id in clients ==> clients[id] == old(clients)[id]
      ensures unauthenticated == old(unauthenticated)
      ensures old(Valid()) ==> Valid()
    {
      var failed := SendToAll(message, order, live);
      if failed != [] {
        RemoveFailed(failed);
      }
      forall id | id in old(clients)
        ensures id in failed <==> !live(old(clients)[id].sender)
      {
        FailedClientsExactly(order, old(clients), live, id);
      }
    }

    /** The sending loop of a broadcast: one send per connection in `order`,
        collecting those that fail. */
    method SendToAll(message: WebSocketMessage, order: seq<ClientId>, live: Liveness) returns (failed: seq<ClientId>)
      requires forall k :: 0 <= k < |order| ==> order[k] in clients
      modifies this`sent
      ensures sent == old(sent) + Deliveries(order, clients, message, live)
      ensures failed == FailedClients(order, clients, live)
    {
      failed := [];
      var registered := clients;
      var i := 0;
      while i < |order|
        invariant 0 <= i <= |order|
        invariant sent == old(sent) + Deliveries(order[..i], registered, message, live)
        invariant failed == FailedClients(order[..i], registered, live)
        invariant registered == clients
      {
        var id := order[i];
        var sender := registered[id].sender;
        if live(sender) {
          SendStepLive(order, i, registered, message, live);
          sent := sent + [Delivery(sender, message)];
        } else {
          SendStepClosed(order, i, registered, message, live);
          failed := failed + [id];
        }
        i := i + 1;
      }
      assert order[..|order|] == order;
    }
  }

  /** Moving a key from one of two disjoint maps into the other keeps them
      disjoint and keeps their total size. */
  lemma Promote<K, A, B>(c: map<K, A>, u: map<K, B>, id: K, v: A)
    requires id in u
    ensures c.Keys !! u.Keys ==>
      && c[id := v].Keys !! (u - {id}).Keys
      && |c[id := v]| + |u - {id}| == |c| + |u|
  {
    if c.Keys !! u.Keys {
      assert c[id := v].Keys == c.Keys + {id};
      assert (u - {id}).Keys == u.Keys - {id};
    }
  }

  /** One more client whose channel is open adds its delivery and no failure. */
  lemma SendStepLive(order: seq<ClientId>, i: nat, clients: map<ClientId, Registered>, message: WebSocketMessage, live: Liveness)
    requires i < |order| && order[i] in clients && live(clients[order[i]].sender)
    ensures Deliveries(order[..i + 1], clients, message, live)
      == Deliveries(order[..i], clients, message, live) + [Delivery(clients[order[i]].sender, message)]
    ensures FailedClients(order[..i + 1], clients, live) == FailedClients(order[..i], clients, live)
  {
    assert order[..i + 1][..i] == order[..i];
  }

  /** One more client whose channel is closed adds its failure and no delivery. */
  lemma SendStepClosed(order: seq<ClientId>, i: nat, clients: map<ClientId, Registered>, message: WebSocketMessage, live: Liveness)
    requires i < |order| && order[i] in clients && !live(clients[order[i]].sender)
    ensures Deliveries(order[..i + 1], clients, message, live) == Deliveries(order[..i], clients, message, live)
    ensures FailedClients(order[..i + 1], clients, live) == FailedClients(order[..i], clients, live) + [order[i]]
  {
    assert order[..i + 1][..i] == order[..i];
  }

  /** A broadcast reaches every authenticated connection whose channel is open. */
  lemma BroadcastReachesLiveClients(order: seq<ClientId>, clients: map<ClientId, Registered>, message: WebSocketMessage,
                                    live: Liveness, id: ClientId)
    requires forall id :: id in clients ==> id in order
    requires id in clients && live(clients[id].sender)
    ensures Delivery(clients[id].sender, message) in Deliveries(order, clients, message, live)
  {
    DeliveriesReachLiveClients(order, clients, message, live, id);
  }
}
