/**
 The cluster service of one node (services/clusterServ.lua) with the parts of lualib/api.lua it runs on.
 Each handler is given twice: as a function from the state before to the state after and the foreign calls
 it makes, and as a method of class ClusterServ that updates the fields as the script does.
 A Lua value list is represented by its JSON text.
 */
module ClusterService {
  import opened Basics
  import opened Frames

  /** A coroutine created by api.async: a request to relay to another node, or one received from it. */
  datatype Task =
    | Relay(toNode: nat, frame: Bytes, from: nat, session: nat)
    | Serve(fd: nat, service: nat, from: nat, session: nat, data: Bytes)

  /** Where the answer of a served request goes. */
  datatype Back = Back(fd: nat, from: nat, session: nat)

  /** Calls out of the script: sockets, the HTTP client and the mailboxes of this node's services. */
  datatype Effect =
    | SendClient(client: nat, frame: Bytes)
    | SendServer(fd: nat, frame: Bytes)
    | PostCall(service: nat, session: nat, data: Bytes)
    | PostResponse(service: nat, session: nat, isOk: bool, data: Bytes)
    | HttpGet(session: nat, node: nat)
    | Dial(client: nat, node: nat)

  /** `clients` holds api.tcpClients together with the request captured by each client's callbacks. */
  datatype State = State(
    nextCoro: seq<Task>,
    httpCoro: map<nat, Task>,
    clients: map<nat, Task>,
    tcpClients: map<nat, nat>,
    callCoro: map<nat, Back>,
    autoSession: nat,
    nextClient: nat)

  /**
   The JSON library: which texts it can decode; the text that decoding one, unpacking it as an argument list and
   encoding the arguments gives; and the text of a list that holds the one decoded value.
   */
  datatype Json = Json(valid: Bytes -> bool, again: Bytes -> Bytes, wrap: Bytes -> Bytes)

  /** "{}", the JSON text of an empty Lua table. */
  const EMPTY: Bytes := [123, 125]

  /** "not found service id:" followed by the name (services/clusterServ.lua:36). */
  function NotFoundText(name: Bytes): Bytes {
    [110, 111, 116, 32, 102, 111, 117, 110, 100, 32, 115, 101, 114, 118, 105, 99, 101, 32, 105, 100, 58] + name
  }

  function Remove(tasks: seq<Task>, i: nat): seq<Task>
    requires i < |tasks|
  {
    tasks[..i] + tasks[i + 1..]
  }

  // ---------------------------------------------------------------- handlers as functions

  /** Frame of a response, sent on `fd`; nothing is sent when string.pack raises an error. */
  function Respond(fd: nat, r: Response): seq<Effect> {
    match EncodeResponse(r)
    case Some(frame) => [SendServer(fd, frame)]
    case None => []
  }

  /** The "send" branch: pack now, relay from a coroutine. */
  function Dispatch(s: State, toNode: nat, r: Request): State {
    match EncodeRequest(r)
    case Some(frame) => s.(nextCoro := s.nextCoro + [Relay(toNode, frame, r.from, r.session)])
    case None => s
  }

  function BeginHttp(s: State, task: Task, node: nat, started: bool): (State, seq<Effect>) {
    (s.(autoSession := s.autoSession + 1,
        httpCoro := if started then s.httpCoro[s.autoSession := task] else s.httpCoro),
     [HttpGet(s.autoSession, node)])
  }

  /** Runs coroutine `i`: `sendOk` is the result of tcpClient:send, `started` that of httpClient.get. */
  function Resume(json: Json, s: State, i: nat, sendOk: bool, started: bool): (State, seq<Effect>)
    requires i < |s.nextCoro|
  {
    var task, s1 := s.nextCoro[i], s.(nextCoro := Remove(s.nextCoro, i));
    match task
    case Relay(toNode, frame, _, _) =>
      if toNode in s.tcpClients then
        var client := s.tcpClients[toNode];
        if sendOk then (s1, [SendClient(client, frame)])
        else BeginHttp(s1.(clients := s1.clients - {client}, tcpClients := s1.tcpClients - {toNode}), task, toNode,
          started)
      else BeginHttp(s1, task, toNode, started)
    case Serve(fd, service, from, session, data) =>
      if json.valid(data) then
        (s1.(callCoro := s1.callCoro[s1.autoSession := Back(fd, from, session)], autoSession := s1.autoSession + 1),
         [PostCall(service, s1.autoSession, json.again(data))])
      else (s1, [])
  }

  /** The HTTP lookup of a node's address came back: status 200 or not, and whether connecting could start. */
  function HttpReply(s: State, h: nat, found: bool, connectOk: bool): (State, seq<Effect>)
    requires h in s.httpCoro && s.httpCoro[h].Relay?
  {
    var task, s1 := s.httpCoro[h], s.(httpCoro := s.httpCoro - {h});
    if !found then (s1, [])
    else
      (s1.(clients := s1.clients[s1.nextClient := task], nextClient := s1.nextClient + 1),
       [Dial(s1.nextClient, task.toNode)]
       + if connectOk then [] else [PostResponse(task.from, task.session, false, EMPTY)])
  }

  function OnConnect(s: State, c: nat): (State, seq<Effect>) {
    if c in s.clients && s.clients[c].Relay? then
      (s.(tcpClients := s.tcpClients[s.clients[c].toNode := c]), [SendClient(c, s.clients[c].frame)])
    else (s, [])
  }

  function OnConnectError(s: State, c: nat): seq<Effect> {
    if c in s.clients && s.clients[c].Relay? then
      [PostResponse(s.clients[c].from, s.clients[c].session, false, EMPTY)]
    else []
  }

  /** The callback forgets the node's client even when a newer one has replaced this one. */
  function OnClose(s: State, c: nat): State {
    if c in s.clients && s.clients[c].Relay? then
      s.(clients := s.clients - {c}, tcpClients := s.tcpClients - {s.clients[c].toNode})
    else s
  }

  function OnClientMsg(json: Json, s: State, c: nat, msg: Bytes): seq<Effect> {
    if c !in s.clients then []
    else match DecodeResponse(msg)
      case Malformed => []
      case Parsed(r, _) =>
        if json.valid(r.data) then [PostResponse(r.to, r.session, r.isOk, json.again(r.data))] else []
  }

  /** `lookup` is queryService, 0 for an unknown name; that branch answers and then goes on all the same. */
  function OnServerMsg(json: Json, lookup: Bytes -> nat, s: State, fd: nat, msg: Bytes): (State, seq<Effect>) {
    match DecodeRequest(msg)
    case Malformed => (s, [])
    case Parsed(r, _) =>
      var service := lookup(r.name);
      var refused := if service == 0 && r.session > 0
                     then Respond(fd, Response(r.from, r.session, false, NotFoundText(r.name))) else [];
      if r.session == 0 then
        (s, refused + if json.valid(r.data) then [PostCall(service, 0, json.again(r.data))] else [])
      else
        (s.(nextCoro := s.nextCoro + [Serve(fd, service, r.from, r.session, r.data)]), refused)
  }

  /** The text packed for an answer: its values, or a list with what a failed call returned. */
  function Packed(json: Json, isOk: bool, data: Bytes): Bytes {
    if isOk then json.again(data) else json.wrap(data)
  }

  /** The serving coroutine goes on with an answer; api.call raises an error when its values cannot be decoded. */
  function Reply(json: Json, b: Back, isOk: bool, data: Bytes): seq<Effect> {
    if isOk && !json.valid(data) then []
    else Respond(b.fd, Response(b.from, b.session, isOk, Packed(json, isOk, data)))
  }

  /** A response to one of this service's own calls; nothing happens when no coroutine waits for the session. */
  function OnResponse(json: Json, s: State, t: nat, isOk: bool, data: Bytes): (State, seq<Effect>) {
    if t in s.callCoro then (s.(callCoro := s.callCoro - {t}), Reply(json, s.callCoro[t], isOk, data)) else (s, [])
  }

  function OnTimeout(s: State, t: nat): (State, seq<Effect>) {
    if t in s.callCoro then
      var b := s.callCoro[t];
      (s.(callCoro := s.callCoro - {t}), Respond(b.fd, Response(b.from, b.session, false, EMPTY)))
    else (s, [])
  }

  // ---------------------------------------------------------------- one call along the fault-free path

  /**
   Without faults, a call relayed by one cluster service over an open connection, served by another and answered
   by the target service comes back as exactly that answer, for the caller and session it left with.
   The two nodes may be in any state; `near` and `far` change between the steps only as stated.
   */
  lemma RelayRoundTrip(json: Json, lookup: Bytes -> nat, near: State, far: State,
                       toNode: nat, fd: nat, c: nat, r: Request, isOk: bool, answer: Bytes)
    requires Packable(r) && r.session > 0 && json.valid(r.data)
    requires toNode in near.tcpClients && near.tcpClients[toNode] == c && c in near.clients
    requires lookup(r.name) > 0
    requires json.valid(Packed(json, isOk, answer)) && |Packed(json, isOk, answer)| < U32
    ensures
      var near1 := Dispatch(near, toNode, r);
      && |near1.nextCoro| == |near.nextCoro| + 1
      && var (near2, out) := Resume(json, near1, |near.nextCoro|, true, true);
      && near2 == near && |out| == 1 && out[0].SendClient? && out[0].client == c
      && var (far1, none) := OnServerMsg(json, lookup, far, fd, out[0].frame);
      && none == [] && |far1.nextCoro| == |far.nextCoro| + 1
      && var (far2, call) := Resume(json, far1, |far.nextCoro|, true, true);
      && call == [PostCall(lookup(r.name), far.autoSession, json.again(r.data))]
      && var (far3, back) := OnResponse(json, far2, far.autoSession, isOk, answer);
      && far3 == far.(autoSession := far.autoSession + 1, callCoro := far.callCoro - {far.autoSession})
      && if isOk && !json.valid(answer) then back == []
         else
           && |back| == 1 && back[0].SendServer? && back[0].fd == fd
           && OnClientMsg(json, near, c, back[0].frame)
              == [PostResponse(r.from, r.session, isOk, json.again(Packed(json, isOk, answer)))]
  {
    hide EncodeRequest, DecodeRequest, EncodeResponse, DecodeResponse, OnServerMsg, OnClientMsg, OnResponse, Resume,
      Respond;
    RelayedRequest(json, near, toNode, c, r);
    ReceivedRequest(json, lookup, far, fd, r);
    ServedRequest(json, far, fd, lookup(r.name), r.from, r.session, r.data, isOk, answer);
    ForwardedAnswer(json, near, c, fd, Response(r.from, r.session, isOk, Packed(json, isOk, answer)));
  }

  lemma RelayedRequest(json: Json, near: State, toNode: nat, c: nat, r: Request)
    requires Packable(r) && toNode in near.tcpClients && near.tcpClients[toNode] == c
    ensures |Dispatch(near, toNode, r).nextCoro| == |near.nextCoro| + 1
    ensures Resume(json, Dispatch(near, toNode, r), |near.nextCoro|, true, true)
            == (near, [SendClient(c, EncodeRequest(r).value)])
  {
    assert Remove(Dispatch(near, toNode, r).nextCoro, |near.nextCoro|) == near.nextCoro;
  }

  /** A served request is called in the service's own next session; its answer goes back where the request came from. */
  lemma ServedRequest(json: Json, far: State, fd: nat, service: nat, from: nat, session: nat, data: Bytes,
      isOk: bool, answer: Bytes)
    requires json.valid(data)
    ensures
      var far1 := far.(nextCoro := far.nextCoro + [Serve(fd, service, from, session, data)]);
      var (far2, call) := Resume(json, far1, |far.nextCoro|, true, true);
      && call == [PostCall(service, far.autoSession, json.again(data))]
      && OnResponse(json, far2, far.autoSession, isOk, answer)
         == (far.(autoSession := far.autoSession + 1, callCoro := far.callCoro - {far.autoSession}),
             Reply(json, Back(fd, from, session), isOk, answer))
  {
    hide Reply;
    var far1 := far.(nextCoro := far.nextCoro + [Serve(fd, service, from, session, data)]);
    assert Remove(far1.nextCoro, |far.nextCoro|) == far.nextCoro;
    var pending := far.callCoro[far.autoSession := Back(fd, from, session)];
    assert pending - {far.autoSession} == far.callCoro - {far.autoSession};
  }

  lemma ReceivedRequest(json: Json, lookup: Bytes -> nat, far: State, fd: nat, r: Request)
    requires Packable(r) && r.session > 0 && lookup(r.name) > 0
    ensures OnServerMsg(json, lookup, far, fd, EncodeRequest(r).value)
            == (far.(nextCoro := far.nextCoro + [Serve(fd, lookup(r.name), r.from, r.session, r.data)]), [])
  {
    RequestRoundTrip(r, []);
    assert EncodeRequest(r).value + [] == EncodeRequest(r).value;
    hide EncodeRequest, DecodeRequest;
  }

  lemma ForwardedAnswer(json: Json, near: State, c: nat, fd: nat, r: Response)
    requires PackableResponse(r) && json.valid(r.data) && c in near.clients
    ensures Respond(fd, r) == [SendServer(fd, EncodeResponse(r).value)]
    ensures OnClientMsg(json, near, c, EncodeResponse(r).value)
            == [PostResponse(r.to, r.session, r.isOk, json.again(r.data))]
  {
    ResponseRoundTrip(r, []);
    assert EncodeResponse(r).value + [] == EncodeResponse(r).value;
  }

  // ---------------------------------------------------------------- the script

  /** services/clusterServ.lua as an object: its local tables are fields, its foreign calls are logged in `calls`. */
  class ClusterServ {
    const json: Json
    var nextCoro: seq<Task>
    var httpCoro: map<nat, Task>
    var clients: map<nat, Task>
    var tcpClients: map<nat, nat>
    var callCoro: map<nat, Back>
    var autoSession: nat
    var nextClient: nat
    var calls: seq<Effect>

    constructor (json: Json)
      ensures this.json == json
      ensures View() == State([], map[], map[], map[], map[], 1, 1) && calls == []
    {
      this.json := json;
      nextCoro, httpCoro, clients, tcpClients, callCoro := [], map[], map[], map[], map[];
      autoSession, nextClient, calls := 1, 1, [];
    }

    ghost function View(): State
      reads this
    {
      State(nextCoro, httpCoro, clients, tcpClients, callCoro, autoSession, nextClient)
    }

    method DispatchSend(toNode: nat, name: Bytes, from: nat, session: nat, data: Bytes)
      modifies this
      ensures View() == Dispatch(old(View()), toNode, Request(name, from, session, data))
      ensures calls == old(calls)
    {
      var packData := EncodeRequest(Request(name, from, session, data));
      if packData.Some? {
        nextCoro := nextCoro + [Relay(toNode, packData.value, from, session)];
      }
    }

    method SendResponse(fd: nat, to: nat, session: nat, isOk: bool, msg: Bytes)
      modifies this`calls
      ensures calls == old(calls) + Respond(fd, Response(to, session, isOk, msg))
    {
      var packData := EncodeResponse(Response(to, session, isOk, msg));
      if packData.Some? {
        calls := calls + [SendServer(fd, packData.value)];
      }
    }

    method StartHttpGet(task: Task, node: nat, started: bool)
      modifies this`autoSession, this`httpCoro, this`calls
      ensures View() == BeginHttp(old(View()), task, node, started).0
      ensures calls == old(calls) + BeginHttp(old(View()), task, node, started).1
    {
      var session := autoSession;
      autoSession := autoSession + 1;
      calls := calls + [HttpGet(session, node)];
      if started {
        httpCoro := httpCoro[session := task];
      }
    }

    method RunCoroutine(i: nat, sendOk: bool, started: bool)
      requires i < |nextCoro|
      modifies this
      ensures View() == Resume(json, old(View()), i, sendOk, started).0
      ensures calls == old(calls) + Resume(json, old(View()), i, sendOk, started).1
    {
      var task := nextCoro[i];
      nextCoro := nextCoro[..i] + nextCoro[i + 1..];
      match task
      case Relay(toNode, frame, _, _) =>
        if toNode in tcpClients {
          var client := tcpClients[toNode];
          if sendOk {
            calls := calls + [SendClient(client, frame)];
            return;
          }
          clients := clients - {client};
          tcpClients := tcpClients - {toNode};
        }
        StartHttpGet(task, toNode, started);
      case Serve(fd, service, from, session, data) =>
        if json.valid(data) {
          var t := autoSession;
          autoSession := autoSession + 1;
          callCoro := callCoro[t := Back(fd, from, session)];
          calls := calls + [PostCall(service, t, json.again(data))];
        }
    }

    method OnHttpReply(h: nat, found: bool, connectOk: bool)
      requires h in httpCoro && httpCoro[h].Relay?
      modifies this
      ensures View() == HttpReply(old(View()), h, found, connectOk).0
      ensures calls == old(calls) + HttpReply(old(View()), h, found, connectOk).1
    {
      var task := httpCoro[h];
      httpCoro := httpCoro - {h};
      if found {
        var client := nextClient;
        nextClient := nextClient + 1;
        clients := clients[client := task];
        calls := calls + [Dial(client, task.toNode)];
        if !connectOk {
          calls := calls + [PostResponse(task.from, task.session, false, EMPTY)];
        }
      }
    }

    method OnClientConnect(c: nat)
      modifies this
      ensures View() == OnConnect(old(View()), c).0
      ensures calls == old(calls) + OnConnect(old(View()), c).1
    {
      if c in clients && clients[c].Relay? {
        tcpClients := tcpClients[clients[c].toNode := c];
        calls := calls + [SendClient(c, clients[c].frame)];
      }
    }

    method OnClientConnectError(c: nat)
      modifies this`calls
      ensures calls == old(calls) + OnConnectError(old(View()), c)
    {
      if c in clients && clients[c].Relay? {
        calls := calls + [PostResponse(clients[c].from, clients[c].session, false, EMPTY)];
      }
    }

    method OnClientClose(c: nat)
      modifies this`clients, this`tcpClients
      ensures View() == OnClose(old(View()), c)
    {
      if c in clients && clients[c].Relay? {
        var toNode := clients[c].toNode;
        clients := clients - {c};
        tcpClients := tcpClients - {toNode};
      }
    }

    method OnClientResponse(c: nat, msg: Bytes)
      modifies this`calls
      ensures calls == old(calls) + OnClientMsg(json, old(View()), c, msg)
    {
      if c in clients {
        var unpacked := DecodeResponse(msg);
        if unpacked.Parsed? && json.valid(unpacked.value.data) {
          var r := unpacked.value;
          calls := calls + [PostResponse(r.to, r.session, r.isOk, json.again(r.data))];
        }
      }
    }

    method OnMsg(lookup: Bytes -> nat, fd: nat, msg: Bytes)
      modifies this
      ensures View() == OnServerMsg(json, lookup, old(View()), fd, msg).0
      ensures calls == old(calls) + OnServerMsg(json, lookup, old(View()), fd, msg).1
    {
      var unpacked := DecodeRequest(msg);
      if unpacked.Malformed? {
        return;
      }
      var r := unpacked.value;
      var service := lookup(r.name);
      if service == 0 {
        if r.session > 0 {
          SendResponse(fd, r.from, r.session, false, NotFoundText(r.name));
        }
      }
      if r.session == 0 {
        if json.valid(r.data) {
          calls := calls + [PostCall(service, 0, json.again(r.data))];
        }
      } else {
        nextCoro := nextCoro + [Serve(fd, service, r.from, r.session, r.data)];
      }
    }

    method OnCallResult(t: nat, timedOut: bool, isOk: bool, data: Bytes)
      modifies this
      ensures timedOut ==>
                View() == OnTimeout(old(View()), t).0 && calls == old(calls) + OnTimeout(old(View()), t).1
      ensures !timedOut ==>
                && View() == OnResponse(json, old(View()), t, isOk, data).0
                && calls == old(calls) + OnResponse(json, old(View()), t, isOk, data).1
    {
      if t in callCoro {
        var b := callCoro[t];
        callCoro := callCoro - {t};
        if timedOut {
          SendResponse(b.fd, b.from, b.session, false, EMPTY);
        } else if isOk {
          if json.valid(data) {
            SendResponse(b.fd, b.from, b.session, true, json.again(data));
          }
        } else {
          SendResponse(b.fd, b.from, b.session, false, json.wrap(data));
        }
      }
    }
  }

  /** The near half of a call: packed, queued, and sent on the open client by the coroutine. */
  method RelayCall(near: ClusterServ, toNode: nat, r: Request) returns (frame: Bytes)
    requires Packable(r) && toNode in near.tcpClients
    modifies near
    ensures near.View() == old(near.View())
        && near.calls == old(near.calls) + [SendClient(near.tcpClients[toNode], frame)]
    ensures EncodeRequest(r) == Some(frame)
  {
    hide EncodeRequest, Dispatch, Resume, Packable;
    RelayedRequest(near.json, near.View(), toNode, near.tcpClients[toNode], r);
    var i := |near.nextCoro|;
    near.DispatchSend(toNode, r.name, r.from, r.session, r.data);
    near.RunCoroutine(i, true, true);
    frame := near.calls[|near.calls| - 1].frame;
    PackableEncodes(r);
  }

  lemma PackableEncodes(r: Request)
    requires Packable(r)
    ensures EncodeRequest(r).Some?
  {
  }

  /** The far half: received, called in a session of its own, and answered on the descriptor it came from. */
  method ServeCall(far: ClusterServ, lookup: Bytes -> nat, fd: nat, frame: Bytes, r: Request, isOk: bool, answer: Bytes)
    requires EncodeRequest(r) == Some(frame) && Packable(r) && r.session > 0 && far.json.valid(r.data)
        && lookup(r.name) > 0
    requires far.autoSession !in far.callCoro
    modifies far
    ensures far.View() == old(far.View()).(autoSession := old(far.autoSession) + 1)
    ensures far.calls == old(far.calls) + [PostCall(lookup(r.name), old(far.autoSession), far.json.again(r.data))]
                         + Reply(far.json, Back(fd, r.from, r.session), isOk, answer)
  {
    hide EncodeRequest, OnServerMsg, OnResponse, Resume, Reply, Packable;
    ghost var before := far.callCoro;
    ReceivedRequest(far.json, lookup, far.View(), fd, r);
    ServedRequest(far.json, far.View(), fd, lookup(r.name), r.from, r.session, r.data, isOk, answer);
    var k, t := |far.nextCoro|, far.autoSession;
    far.OnMsg(lookup, fd, frame);
    far.RunCoroutine(k, true, true);
    far.OnCallResult(t, false, isOk, answer);
    assert before - {t} == before;
  }

  /**
   Two of these objects exchange one call without faults: whatever both have pending, the caller's service is posted
   exactly the answer for the session it called in, or nothing if the answer cannot be decoded, and nothing else of
   either object changes but the far service's session counter.
   */
  method ExchangeCall(near: ClusterServ, far: ClusterServ, lookup: Bytes -> nat, toNode: nat, fd: nat, r: Request,
      isOk: bool, answer: Bytes) returns (frame: Bytes)
    requires near != far && near.json == far.json
    requires Packable(r) && r.session > 0 && near.json.valid(r.data) && lookup(r.name) > 0
    requires toNode in near.tcpClients && near.tcpClients[toNode] in near.clients
    requires near.json.valid(Packed(near.json, isOk, answer)) && |Packed(near.json, isOk, answer)| < U32
    requires far.autoSession !in far.callCoro
    modifies near, far
    ensures EncodeRequest(r) == Some(frame)
    ensures near.View() == old(near.View())
    ensures far.View() == old(far.View()).(autoSession := old(far.autoSession) + 1)
    ensures near.calls == old(near.calls) + [SendClient(near.tcpClients[toNode], frame)]
              + if isOk && !near.json.valid(answer) then []
                else [PostResponse(r.from, r.session, isOk, near.json.again(Packed(near.json, isOk, answer)))]
    ensures |old(far.calls)| < |far.calls| && far.calls[..|old(far.calls)|] == old(far.calls)
    ensures far.calls[|old(far.calls)|] == PostCall(lookup(r.name), old(far.autoSession), near.json.again(r.data))
  {
    var c, response := near.tcpClients[toNode], Response(r.from, r.session, isOk, Packed(near.json, isOk, answer));
    assert PackableResponse(response);
    hide EncodeRequest, EncodeResponse, OnClientMsg, Respond, PackableResponse, Packed, Packable;
    frame := RelayCall(near, toNode, r);
    ServeCall(far, lookup, fd, frame, r, isOk, answer);
    if !isOk || near.json.valid(answer) {
      ForwardedAnswer(near.json, near.View(), c, fd, response);
      near.OnClientResponse(c, far.calls[|far.calls| - 1].frame);
    }
  }
}
