/**
 The paths a relayed request can take through services/clusterServ.lua, step by step: over a connection that has to be
 made first, without an answer wanted, and into each failure that is reported. ClusterService.RelayRoundTrip is the
 path over an open connection.
 */
module ClusterPaths {
  import opened Basics
  import opened Frames
  import opened ClusterService

  // ---------------------------------------------------------------- a connection has to be made

  /** The coroutine of a request, with the frame packed for it. */
  function Captured(toNode: nat, r: Request): Task
    requires Packable(r)
  {
    PackableEncodes(r);
    Relay(toNode, EncodeRequest(r).value, r.from, r.session)
  }

  /** Without a client for the node, or when the client cannot send, the coroutine forgets the client and looks up. */
  lemma LooksUp(json: Json, near: State, toNode: nat, r: Request, sendOk: bool)
    requires Packable(r) && (toNode in near.tcpClients ==> !sendOk)
    ensures |Dispatch(near, toNode, r).nextCoro| == |near.nextCoro| + 1
    ensures Resume(json, Dispatch(near, toNode, r), |near.nextCoro|, sendOk, true) ==
            (near.(clients := if toNode in near.tcpClients then near.clients - {near.tcpClients[toNode]}
                              else near.clients,
                   tcpClients := near.tcpClients - {toNode},
                   httpCoro := near.httpCoro[near.autoSession := Captured(toNode, r)],
                   autoSession := near.autoSession + 1),
             [HttpGet(near.autoSession, toNode)])
  {
    hide EncodeRequest, Packable;
    PackableEncodes(r);
    assert Remove(Dispatch(near, toNode, r).nextCoro, |near.nextCoro|) == near.nextCoro;
    if toNode !in near.tcpClients {
      assert near.tcpClients - {toNode} == near.tcpClients;
    }
  }

  /** What the near node is left with once the connection is there. */
  function Joined(near: State, toNode: nat, r: Request): State
    requires Packable(r)
  {
    var kept := if toNode in near.tcpClients then near.clients - {near.tcpClients[toNode]} else near.clients;
    near.(clients := kept[near.nextClient := Captured(toNode, r)],
          tcpClients := near.tcpClients[toNode := near.nextClient],
          httpCoro := near.httpCoro - {near.autoSession},
          autoSession := near.autoSession + 1, nextClient := near.nextClient + 1)
  }

  /**
   The first request to a node, and the next one after its client failed: it is packed, the node is looked up and
   dialled, and as soon as the connection is there exactly this request is sent on it, whatever else is pending.
   */
  lemma ColdRequest(json: Json, near: State, toNode: nat, r: Request, sendOk: bool)
    requires Packable(r) && (toNode in near.tcpClients ==> !sendOk)
    ensures
      var (near1, looked) := Resume(json, Dispatch(near, toNode, r), |near.nextCoro|, sendOk, true);
      && looked == [HttpGet(near.autoSession, toNode)]
      && near.autoSession in near1.httpCoro && near1.httpCoro[near.autoSession].Relay?
      && var (near2, dialled) := HttpReply(near1, near.autoSession, true, true);
      && dialled == [Dial(near.nextClient, toNode)]
      && OnConnect(near2, near.nextClient) ==
         (Joined(near, toNode, r), [SendClient(near.nextClient, EncodeRequest(r).value)])
      && Joined(near, toNode, r).tcpClients[toNode] == near.nextClient
      && near.nextClient in Joined(near, toNode, r).clients
  {
    hide EncodeRequest, Packable, Resume, Dispatch;
    PackableEncodes(r);
    LooksUp(json, near, toNode, r, sendOk);
    var near1 := Resume(json, Dispatch(near, toNode, r), |near.nextCoro|, sendOk, true).0;
    var h, task := near.autoSession, Captured(toNode, r);
    assert near1.httpCoro - {h} == near.httpCoro - {h};
    assert near1.tcpClients[toNode := near.nextClient] == near.tcpClients[toNode := near.nextClient];
  }

  /** And a call that had to make its connection comes back as exactly the answer, as over an open one. */
  lemma ColdRoundTrip(json: Json, lookup: Bytes -> nat, near: State, far: State, toNode: nat, fd: nat, r: Request,
      sendOk: bool, isOk: bool, answer: Bytes)
    requires Packable(r) && r.session > 0 && json.valid(r.data) && (toNode in near.tcpClients ==> !sendOk)
    requires lookup(r.name) > 0
    requires json.valid(Packed(json, isOk, answer)) && |Packed(json, isOk, answer)| < U32
    ensures
      var near1 := Resume(json, Dispatch(near, toNode, r), |near.nextCoro|, sendOk, true).0;
      near.autoSession in near1.httpCoro && near1.httpCoro[near.autoSession].Relay?
    ensures
      var near1 := Resume(json, Dispatch(near, toNode, r), |near.nextCoro|, sendOk, true).0;
      var near2 := HttpReply(near1, near.autoSession, true, true).0;
      var (near3, out) := OnConnect(near2, near.nextClient);
      && |out| == 1 && out[0].SendClient? && out[0].client == near.nextClient
      && var (far1, none) := OnServerMsg(json, lookup, far, fd, out[0].frame);
      && none == [] && |far1.nextCoro| == |far.nextCoro| + 1
      && var (far2, call) := Resume(json, far1, |far.nextCoro|, true, true);
      && call == [PostCall(lookup(r.name), far.autoSession, json.again(r.data))]
      && var back := OnResponse(json, far2, far.autoSession, isOk, answer).1;
      && if isOk && !json.valid(answer) then back == []
         else
           && |back| == 1 && back[0].SendServer? && back[0].fd == fd
           && OnClientMsg(json, near3, near.nextClient, back[0].frame)
              == [PostResponse(r.from, r.session, isOk, json.again(Packed(json, isOk, answer)))]
  {
    ColdRequest(json, near, toNode, r, sendOk);
    hide EncodeRequest, DecodeRequest, EncodeResponse, DecodeResponse, OnServerMsg, OnClientMsg, OnResponse, Resume,
      Respond, OnConnect, HttpReply, Dispatch, Joined;
    ReceivedRequest(json, lookup, far, fd, r);
    ServedRequest(json, far, fd, lookup(r.name), r.from, r.session, r.data, isOk, answer);
    ForwardedAnswer(json, Joined(near, toNode, r), near.nextClient, fd,
                    Response(r.from, r.session, isOk, Packed(json, isOk, answer)));
  }

  // ---------------------------------------------------------------- no answer wanted

  lemma Unpacked(r: Request)
    requires Packable(r)
    ensures EncodeRequest(r).Some? && DecodeRequest(EncodeRequest(r).value) == Parsed(r, [])
  {
    PackableEncodes(r);
    RequestRoundTrip(r, []);
    assert EncodeRequest(r).value + [] == EncodeRequest(r).value;
    hide EncodeRequest, DecodeRequest, Packable;
  }

  /** A request of session 0 is passed on to the service at once; the far node remembers nothing of it. */
  lemma SendArrives(json: Json, lookup: Bytes -> nat, far: State, fd: nat, r: Request)
    requires Packable(r) && r.session == 0 && json.valid(r.data)
    ensures OnServerMsg(json, lookup, far, fd, EncodeRequest(r).value)
            == (far, [PostCall(lookup(r.name), 0, json.again(r.data))])
  {
    hide EncodeRequest, DecodeRequest, Packable;
    PackableEncodes(r);
    Unpacked(r);
    var call := PostCall(lookup(r.name), 0, json.again(r.data));
    assert [] + [call] == [call];
  }

  // ---------------------------------------------------------------- failures are reported

  /** The connection cannot be started, or is refused later: the caller gets a failure for its session. */
  lemma ConnectReported(json: Json, near: State, toNode: nat, r: Request, sendOk: bool)
    requires Packable(r) && (toNode in near.tcpClients ==> !sendOk)
    ensures
      var near1 := Resume(json, Dispatch(near, toNode, r), |near.nextCoro|, sendOk, true).0;
      && near.autoSession in near1.httpCoro && near1.httpCoro[near.autoSession].Relay?
      && HttpReply(near1, near.autoSession, true, false).1 ==
         [Dial(near.nextClient, toNode), PostResponse(r.from, r.session, false, EMPTY)]
      && OnConnectError(HttpReply(near1, near.autoSession, true, true).0, near.nextClient) ==
         [PostResponse(r.from, r.session, false, EMPTY)]
  {
    hide EncodeRequest, Packable, Resume, Dispatch;
    PackableEncodes(r);
    LooksUp(json, near, toNode, r, sendOk);
  }

  /** A served request that gets no answer in time: the caller gets a failure for its session. */
  lemma TimeoutReported(json: Json, near: State, far: State, c: nat, fd: nat, service: nat, r: Request)
    requires Packable(r) && json.valid(r.data) && json.valid(EMPTY) && c in near.clients
    ensures
      var far1 := far.(nextCoro := far.nextCoro + [Serve(fd, service, r.from, r.session, r.data)]);
      var far2 := Resume(json, far1, |far.nextCoro|, true, true).0;
      var (far3, out) := OnTimeout(far2, far.autoSession);
      && far.autoSession !in far3.callCoro && |out| == 1 && out[0].SendServer? && out[0].fd == fd
      && OnClientMsg(json, near, c, out[0].frame) == [PostResponse(r.from, r.session, false, json.again(EMPTY))]
  {
    hide EncodeRequest, EncodeResponse, OnClientMsg, Respond;
    var answer := Response(r.from, r.session, false, EMPTY);
    assert PackableResponse(answer);
    ForwardedAnswer(json, near, c, fd, answer);
  }

  lemma UnpackedResponse(r: Response)
    requires PackableResponse(r)
    ensures EncodeResponse(r).Some? && DecodeResponse(EncodeResponse(r).value) == Parsed(r, [])
  {
    ResponseRoundTrip(r, []);
    assert EncodeResponse(r).value + [] == EncodeResponse(r).value;
    hide EncodeResponse, DecodeResponse;
  }

  /**
   A request for a name nobody has: the reason goes back, and reaches the caller if it can be decoded there. The far
   node then goes on all the same, to call service 0.
   */
  lemma UnknownReported(json: Json, lookup: Bytes -> nat, near: State, far: State, c: nat, fd: nat, r: Request)
    requires Packable(r) && r.session > 0 && lookup(r.name) == 0 && |NotFoundText(r.name)| < U32 && c in near.clients
    ensures
      var (far1, out) := OnServerMsg(json, lookup, far, fd, EncodeRequest(r).value);
      && far1 == far.(nextCoro := far.nextCoro + [Serve(fd, 0, r.from, r.session, r.data)])
      && |out| == 1 && out[0].SendServer? && out[0].fd == fd
      && OnClientMsg(json, near, c, out[0].frame) ==
         if json.valid(NotFoundText(r.name))
         then [PostResponse(r.from, r.session, false, json.again(NotFoundText(r.name)))] else []
  {
    var answer := Response(r.from, r.session, false, NotFoundText(r.name));
    assert PackableResponse(answer);
    hide EncodeRequest, DecodeRequest, EncodeResponse, DecodeResponse, NotFoundText, Packable, PackableResponse;
    PackableEncodes(r);
    Unpacked(r);
    UnpackedResponse(answer);
  }

  /** After a connection has closed, the next request for its node makes a new one. */
  lemma CloseForgets(near: State, c: nat)
    requires c in near.clients && near.clients[c].Relay?
    ensures near.clients[c].toNode !in OnClose(near, c).tcpClients && c !in OnClose(near, c).clients
    ensures forall m :: m in near.tcpClients && m != near.clients[c].toNode ==>
              m in OnClose(near, c).tcpClients && OnClose(near, c).tcpClients[m] == near.tcpClients[m]
  {
  }

  // ---------------------------------------------------------------- the same on the objects

  /** The near half when the connection has to be made. */
  method ConnectCall(near: ClusterServ, toNode: nat, r: Request, sendOk: bool) returns (c: nat, frame: Bytes)
    requires Packable(r) && (toNode in near.tcpClients ==> !sendOk)
    modifies near
    ensures EncodeRequest(r) == Some(frame) && c == old(near.nextClient)
    ensures near.View() == Joined(old(near.View()), toNode, r)
    ensures c in near.clients && toNode in near.tcpClients && near.tcpClients[toNode] == c
    ensures near.calls == old(near.calls)
              + [HttpGet(old(near.autoSession), toNode), Dial(c, toNode), SendClient(c, frame)]
  {
    hide EncodeRequest, Dispatch, Resume, HttpReply, OnConnect, Joined, Packable;
    ColdRequest(near.json, near.View(), toNode, r, sendOk);
    JoinedClient(near.View(), toNode, r);
    var i, h := |near.nextCoro|, near.autoSession;
    LooksUp(near.json, near.View(), toNode, r, sendOk);
    near.DispatchSend(toNode, r.name, r.from, r.session, r.data);
    near.RunCoroutine(i, sendOk, true);
    c := near.nextClient;
    near.OnHttpReply(h, true, true);
    near.OnClientConnect(c);
    frame := near.calls[|near.calls| - 1].frame;
    PackableEncodes(r);
  }

  lemma JoinedClient(near: State, toNode: nat, r: Request)
    requires Packable(r)
    ensures var s := Joined(near, toNode, r);
            near.nextClient in s.clients && toNode in s.tcpClients && s.tcpClients[toNode] == near.nextClient
  {
  }

  /**
   Two of these objects exchange the first call between their nodes: it looks up, dials and sends, is served in a
   session of the far service's own, and the caller's service is posted exactly the answer for the session it called
   in, or nothing if the answer cannot be decoded.
   */
  method FirstCall(near: ClusterServ, far: ClusterServ, lookup: Bytes -> nat, toNode: nat, fd: nat, r: Request,
      sendOk: bool, isOk: bool, answer: Bytes) returns (c: nat, frame: Bytes)
    requires near != far && near.json == far.json
    requires Packable(r) && r.session > 0 && near.json.valid(r.data) && lookup(r.name) > 0
    requires toNode in near.tcpClients ==> !sendOk
    requires near.json.valid(Packed(near.json, isOk, answer)) && |Packed(near.json, isOk, answer)| < U32
    requires far.autoSession !in far.callCoro
    modifies near, far
    ensures EncodeRequest(r) == Some(frame) && c == old(near.nextClient)
    ensures near.View() == Joined(old(near.View()), toNode, r)
    ensures far.View() == old(far.View()).(autoSession := old(far.autoSession) + 1)
    ensures near.calls == old(near.calls)
              + [HttpGet(old(near.autoSession), toNode), Dial(c, toNode), SendClient(c, frame)]
              + if isOk && !near.json.valid(answer) then []
                else [PostResponse(r.from, r.session, isOk, near.json.again(Packed(near.json, isOk, answer)))]
    ensures |old(far.calls)| < |far.calls| && far.calls[..|old(far.calls)|] == old(far.calls)
    ensures far.calls[|old(far.calls)|] == PostCall(lookup(r.name), old(far.autoSession), near.json.again(r.data))
  {
    var response := Response(r.from, r.session, isOk, Packed(near.json, isOk, answer));
    assert PackableResponse(response);
    hide EncodeRequest, EncodeResponse, OnClientMsg, Respond, PackableResponse, Packed, Packable, Joined;
    c, frame := ConnectCall(near, toNode, r, sendOk);
    ServeCall(far, lookup, fd, frame, r, isOk, answer);
    if !isOk || near.json.valid(answer) {
      ForwardedAnswer(near.json, near.View(), c, fd, response);
      near.OnClientResponse(c, far.calls[|far.calls| - 1].frame);
    }
  }

  /** A send between two of these objects, over an open connection or one to be made, ends as one posted request. */
  method SendAcross(near: ClusterServ, far: ClusterServ, lookup: Bytes -> nat, toNode: nat, fd: nat, r: Request,
      open: bool) returns (c: nat)
    requires near != far && Packable(r) && r.session == 0 && far.json.valid(r.data)
    requires open <==> toNode in near.tcpClients
    modifies near, far
    ensures c == if open then old(near.tcpClients)[toNode] else old(near.nextClient)
    ensures near.View() == if open then old(near.View()) else Joined(old(near.View()), toNode, r)
    ensures EncodeRequest(r).Some?
    ensures near.calls == old(near.calls)
              + (if open then [] else [HttpGet(old(near.autoSession), toNode), Dial(c, toNode)])
              + [SendClient(c, EncodeRequest(r).value)]
    ensures far.View() == old(far.View())
    ensures far.calls == old(far.calls) + [PostCall(lookup(r.name), 0, far.json.again(r.data))]
  {
    hide EncodeRequest, Packable, OnServerMsg, Joined;
    PackableEncodes(r);
    var frame;
    if open {
      c := near.tcpClients[toNode];
      frame := RelayCall(near, toNode, r);
    } else {
      c, frame := ConnectCall(near, toNode, r, true);
    }
    SendArrives(far.json, lookup, far.View(), fd, r);
    far.OnMsg(lookup, fd, frame);
  }
}
