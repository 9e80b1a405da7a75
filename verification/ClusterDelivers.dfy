/**
 A call to another node can be answered: for every call and every answer there is a run in which the caller is resumed
 with exactly that answer, from nodes that have never talked to each other.
 */
module ClusterDelivers {
  import opened Basics
  import opened Frames
  import opened ClusterService
  import opened ClusterSystem
  import opened ClusterPaths
  import opened ClusterMisuse

  /** Service `caller` of node `n` calls service `target` of node `m`, registered as `name`. */
  datatype Parties = Parties(n: nat, m: nat, caller: nat, target: nat, name: Bytes)

  ghost predicate Ready(cfg: Config, p: Parties) {
    && p.n != p.m && p.caller != cfg.cluster(p.n) && p.target != cfg.cluster(p.m)
    && p.target > 0 && cfg.lookup(p.m, p.name) == p.target
  }

  /** What the two nodes are made of: cluster services, the two services, four mailboxes, and one connection. */
  datatype View = View(
    near: State, far: State, app: App, serving: App,
    toNear: seq<Msg>, toFar: seq<Msg>, toCaller: seq<Msg>, toTarget: seq<Msg>,
    conn: Option<Conn>, nextFd: nat, history: History, results: seq<Result>)

  function Net(cfg: Config, p: Parties, v: View): System {
    System(map[p.n := v.near, p.m := v.far],
           map[Addr(p.n, p.caller) := v.app, Addr(p.m, p.target) := v.serving],
           map[Addr(p.n, cfg.cluster(p.n)) := v.toNear, Addr(p.m, cfg.cluster(p.m)) := v.toFar,
               Addr(p.n, p.caller) := v.toCaller, Addr(p.m, p.target) := v.toTarget],
           if v.conn.Some? then map[Addr(p.n, 1) := v.conn.value] else map[],
           map[p.m := v.nextFd], v.history, v.results)
  }

  /** Where the parts of a view are found. */
  lemma Places(cfg: Config, p: Parties, v: View)
    requires Ready(cfg, p)
    ensures var g := Net(cfg, p, v);
            && p.n in g.clusters && g.clusters[p.n] == v.near && p.m in g.clusters && g.clusters[p.m] == v.far
            && Addr(p.n, p.caller) in g.apps && g.apps[Addr(p.n, p.caller)] == v.app
            && Addr(p.m, p.target) in g.apps && g.apps[Addr(p.m, p.target)] == v.serving
            && Addr(p.n, cfg.cluster(p.n)) in g.mail && g.mail[Addr(p.n, cfg.cluster(p.n))] == v.toNear
            && Addr(p.m, cfg.cluster(p.m)) in g.mail && g.mail[Addr(p.m, cfg.cluster(p.m))] == v.toFar
            && Addr(p.n, p.caller) in g.mail && g.mail[Addr(p.n, p.caller)] == v.toCaller
            && Addr(p.m, p.target) in g.mail && g.mail[Addr(p.m, p.target)] == v.toTarget
            && (v.conn.Some? ==> Addr(p.n, 1) in g.conns && g.conns[Addr(p.n, 1)] == v.conn.value)
            && p.m in g.nextFd && g.nextFd[p.m] == v.nextFd && g.history == v.history && g.results == v.results
  {
  }

  /** Changing one part of a view changes one entry of the system. */
  lemma EitherOfTwo(a: nat, b: nat, x: State, y: State, k: State)
    requires a != b
    ensures map[a := x, b := y][a := k] == map[a := k, b := y]
    ensures map[a := x, b := y][b := k] == map[a := x, b := k]
  {
  }

  lemma SetClusters(cfg: Config, p: Parties, v: View, k: State)
    requires Ready(cfg, p)
    ensures var g := Net(cfg, p, v);
            && Net(cfg, p, v.(near := k)) == g.(clusters := g.clusters[p.n := k])
            && Net(cfg, p, v.(far := k)) == g.(clusters := g.clusters[p.m := k])
  {
    EitherOfTwo(p.n, p.m, v.near, v.far, k);
  }

  lemma SetApp(cfg: Config, p: Parties, v: View, app: App)
    requires Ready(cfg, p)
    ensures var g := Net(cfg, p, v); Net(cfg, p, v.(app := app)) == g.(apps := g.apps[Addr(p.n, p.caller) := app])
  {
  }

  lemma SetServing(cfg: Config, p: Parties, v: View, app: App)
    requires Ready(cfg, p)
    ensures var g := Net(cfg, p, v); Net(cfg, p, v.(serving := app)) == g.(apps := g.apps[Addr(p.m, p.target) := app])
  {
  }

  lemma FirstOfFour(a: Addr, b: Addr, c: Addr, d: Addr, w: seq<Msg>, x: seq<Msg>, y: seq<Msg>, z: seq<Msg>, q: seq<Msg>)
    requires a != b && a != c && a != d
    ensures map[a := w, b := x, c := y, d := z][a := q] == map[a := q, b := x, c := y, d := z]
  {
  }

  lemma SetNearMail(cfg: Config, p: Parties, v: View, q: seq<Msg>)
    requires Ready(cfg, p)
    ensures var g := Net(cfg, p, v);
            Net(cfg, p, v.(toNear := q)) == g.(mail := g.mail[Addr(p.n, cfg.cluster(p.n)) := q])
  {
    FirstOfFour(Addr(p.n, cfg.cluster(p.n)), Addr(p.m, cfg.cluster(p.m)), Addr(p.n, p.caller), Addr(p.m, p.target),
                v.toNear, v.toFar, v.toCaller, v.toTarget, q);
  }

  lemma SetCallerMail(cfg: Config, p: Parties, v: View, q: seq<Msg>)
    requires Ready(cfg, p)
    ensures var g := Net(cfg, p, v); Net(cfg, p, v.(toCaller := q)) == g.(mail := g.mail[Addr(p.n, p.caller) := q])
  {
  }

  lemma SetFarMail(cfg: Config, p: Parties, v: View, q: seq<Msg>)
    requires Ready(cfg, p)
    ensures var g := Net(cfg, p, v);
            && Net(cfg, p, v.(toFar := q)) == g.(mail := g.mail[Addr(p.m, cfg.cluster(p.m)) := q])
            && Net(cfg, p, v.(toTarget := q)) == g.(mail := g.mail[Addr(p.m, p.target) := q])
  {
  }

  lemma SetRest(cfg: Config, p: Parties, v: View, conn: Conn, fd: nat, h: History, results: seq<Result>)
    requires Ready(cfg, p)
    ensures var g := Net(cfg, p, v);
            && Net(cfg, p, v.(conn := Some(conn))) == g.(conns := g.conns[Addr(p.n, 1) := conn])
            && Net(cfg, p, v.(nextFd := fd)) == g.(nextFd := g.nextFd[p.m := fd])
            && Net(cfg, p, v.(history := h)) == g.(history := h)
            && Net(cfg, p, v.(results := results)) == g.(results := results)
  {
  }

  const IDLE := State([], map[], map[], map[], map[], 1, 1)

  function Start(fd: nat): View {
    View(IDLE, IDLE, App(1, {}, {}), App(1, {}, {}), [], [], [], [], None, fd,
         History(map[], map[], map[], map[], {}, {}), [])
  }

  /** One event from one view to the next, honest and possible. */
  ghost predicate Goes(cfg: Config, p: Parties, v: View, e: Event, v': View) {
    && Enabled(cfg, Net(cfg, p, v), e) && HonestStep(cfg, Net(cfg, p, v), e)
    && Net(cfg, p, v') == Apply(cfg, Net(cfg, p, v), e)
  }

  lemma GoesOn(cfg: Config, p: Parties, v: View, e: Event, v': View)
    requires Enabled(cfg, Net(cfg, p, v), e) && HonestStep(cfg, Net(cfg, p, v), e)
    requires FailedBy(cfg, Net(cfg, p, v), e) == {} && Net(cfg, p, v') == Move(cfg, Net(cfg, p, v), e)
    ensures Goes(cfg, p, v, e, v')
  {
    hide Enabled, HonestStep, FailedBy, Move, Net;
    NothingFails(cfg, Net(cfg, p, v), e);
  }

  /** The event is possible and honest, nothing fails in it, and `g'` is what it leads to. */
  ghost predicate Fine(cfg: Config, g: System, e: Event, g': System) {
    Enabled(cfg, g, e) && HonestStep(cfg, g, e) && FailedBy(cfg, g, e) == {} && g' == Move(cfg, g, e)
  }

  lemma GoesFine(cfg: Config, p: Parties, v: View, e: Event, v': View)
    requires Fine(cfg, Net(cfg, p, v), e, Net(cfg, p, v'))
    ensures Goes(cfg, p, v, e, v')
  {
    hide Net, Enabled, HonestStep, FailedBy, Move;
    GoesOn(cfg, p, v, e, v');
  }

  lemma CallFine(cfg: Config, g: System, at: Addr, toNode: nat, name: Bytes, data: Bytes)
    requires at in g.apps
    ensures Fine(cfg, g, CallRemote(at, toNode, name, data),
                 Issue(g, at, Remote(toNode, name, data), Addr(at.node, cfg.cluster(at.node)),
                       Send(toNode, name, at.service, data)))
  {
    hide Issue;
  }

  lemma AskFine(cfg: Config, g: System, n: nat, source: nat, k: nat, toNode: nat, name: Bytes, from: nat, data: Bytes)
    requires var at := Addr(n, cfg.cluster(n));
             && n in g.clusters && at in g.mail && g.mail[at] == [Ask(source, k, Send(toNode, name, from, data))]
    ensures var at, k := Addr(n, cfg.cluster(n)), Dispatch(g.clusters[n], toNode, Request(name, from, k, data));
            Fine(cfg, g, ClusterTake(n), g.(mail := g.mail[at := []], clusters := g.clusters[n := k]))
  {
    hide Become, Dispatch;
    var at := Addr(n, cfg.cluster(n));
    assert g.mail[at][1..] == [];
    BecomeNone(cfg, g.(mail := g.mail[at := []]), n, Dispatch(g.clusters[n], toNode, Request(name, from, k, data)));
  }

  lemma AnswerFine(cfg: Config, g: System, at: Addr, duty: Duty, isOk: bool, data: Bytes)
    requires at in g.apps && duty in g.apps[at].duties
    ensures Fine(cfg, g, AppAnswer(at, duty, isOk, data),
                 Push(g.(history := g.history.(given := g.history.given + {GivenBy(at, duty, isOk, data)})),
                      Addr(at.node, duty.source), Answer(duty.session, isOk, data)))
  {
    hide Push;
  }

  lemma TakeFine(cfg: Config, g: System, at: Addr, m: Msg)
    requires at in g.apps && at in g.mail && g.mail[at] == [m]
    ensures var app, g1 := g.apps[at], g.(mail := g.mail[at := []]);
            && (m.Ask? && m.body.Plain? ==>
                  Fine(cfg, g, AppTake(at),
                       g1.(apps := g.apps[at := app.(
                         duties := app.duties + {Duty(m.source, m.session, m.body.data)})])))
            && (m.Answer? && m.session in app.waiting ==>
                  Fine(cfg, g, AppTake(at),
                       g1.(apps := g.apps[at := app.(waiting := app.waiting - {m.session})],
                           results := g.results + [Result(Key(at, m.session), Answered(m.isOk, m.data))])))
  {
    assert g.mail[at][1..] == [];
  }

  lemma ClientFine(cfg: Config, g: System, n: nat, c: nat, frame: Bytes)
    requires n in g.clusters && Addr(n, c) in g.conns && g.conns[Addr(n, c)].down == [frame]
    ensures Fine(cfg, g, ClientRead(n, c),
                 Become(cfg, g.(conns := g.conns[Addr(n, c) := g.conns[Addr(n, c)].(down := [])]), n, g.clusters[n],
                        OnClientMsg(cfg.json, g.clusters[n], c, frame)))
  {
    hide Become, OnClientMsg;
    assert [frame][1..] == [];
  }

  lemma AnswerTaken(cfg: Config, g: System, n: nat, t: nat, isOk: bool, data: Bytes)
    requires var at := Addr(n, cfg.cluster(n)); n in g.clusters && at in g.mail && g.mail[at] == [Answer(t, isOk, data)]
    ensures var (k, es) := OnResponse(cfg.json, g.clusters[n], t, isOk, data);
            Fine(cfg, g, ClusterTake(n), Become(cfg, g.(mail := g.mail[Addr(n, cfg.cluster(n)) := []]), n, k, es))
  {
    hide Become, OnResponse;
    assert [Answer(t, isOk, data)][1..] == [];
  }

  lemma RunFine(cfg: Config, g: System, n: nat, i: nat, sendOk: bool, started: bool)
    requires n in g.clusters && i < |g.clusters[n].nextCoro|
    ensures var (k, es) := Resume(cfg.json, g.clusters[n], i, sendOk, started);
            Fine(cfg, g, ClusterRun(n, i, sendOk, started), Become(cfg, g, n, k, es))
  {
    hide Become, Resume;
  }

  lemma ReadFine(cfg: Config, g: System, n: nat, c: nat, frame: Bytes, r: Request)
    requires Addr(n, c) in g.conns && g.conns[Addr(n, c)].up == [frame] && g.conns[Addr(n, c)].fd.Some?
    requires Addr(n, c) in g.history.dialed && g.history.dialed[Addr(n, c)] in g.clusters
    requires DecodeRequest(frame) == Parsed(r, []) && cfg.lookup(g.history.dialed[Addr(n, c)], r.name) > 0
    ensures var conn, m := g.conns[Addr(n, c)], g.history.dialed[Addr(n, c)];
            var (k, es) := OnServerMsg(cfg.json, name => cfg.lookup(m, name), g.clusters[m], conn.fd.value, frame);
            Fine(cfg, g, ServerRead(n, c), Become(cfg, g.(conns := g.conns[Addr(n, c) := conn.(up := [])]), m, k, es))
  {
    hide Become, OnServerMsg, DecodeRequest;
    assert [frame][1..] == [];
  }

  lemma ConnectFine(cfg: Config, g: System, n: nat, c: nat)
    requires n in g.clusters && Addr(n, c) in g.conns && g.conns[Addr(n, c)].fd.None?
    requires Addr(n, c) in g.history.dialed && g.history.dialed[Addr(n, c)] in g.nextFd
    ensures var id, m := Addr(n, c), g.history.dialed[Addr(n, c)];
            var fd := g.nextFd[m];
            var (k, es) := OnConnect(g.clusters[n], c);
            Fine(cfg, g, Connected(n, c),
                 Become(cfg, g.(conns := g.conns[id := g.conns[id].(fd := Some(fd))], nextFd := g.nextFd[m := fd + 1],
                                history := g.history.(peers := g.history.peers[Addr(m, fd) := id])), n, k, es))
  {
    hide Become, OnConnect;
  }

  // ---------------------------------------------------------------- the steps

  lemma Calls(cfg: Config, p: Parties, v: View, data: Bytes) returns (v': View)
    requires Ready(cfg, p) && v.toNear == []
    ensures Goes(cfg, p, v, CallRemote(Addr(p.n, p.caller), p.m, p.name, data), v')
    ensures var k := v.app.autoSession;
            v' == v.(app := v.app.(autoSession := k + 1, waiting := v.app.waiting + {k}),
                     toNear := [Ask(p.caller, k, Send(p.m, p.name, p.caller, data))], history := v'.history)
    ensures v'.history.dialed == v.history.dialed && v'.history.peers == v.history.peers
  {
    hide Enabled, HonestStep, FailedBy, Move, Fine, Goes, Net, Ready;
    var k := v.app.autoSession;
    v' := v.(app := v.app.(autoSession := k + 1, waiting := v.app.waiting + {k}),
             toNear := [Ask(p.caller, k, Send(p.m, p.name, p.caller, data))],
             history := v.history.(calls := v.history.calls[Key(Addr(p.n, p.caller), k) := Remote(p.m, p.name, data)]));
    assert [] + v'.toNear == v'.toNear;
    var v1 := v.(app := v'.app);
    var v2 := v1.(history := v'.history);
    Places(cfg, p, v);
    SetApp(cfg, p, v, v'.app);
    SetRest(cfg, p, v1, Conn(None, [], []), 0, v'.history, []);
    Places(cfg, p, v2);
    SetNearMail(cfg, p, v2, v'.toNear);
    CallFine(cfg, Net(cfg, p, v), Addr(p.n, p.caller), p.m, p.name, data);
    GoesFine(cfg, p, v, CallRemote(Addr(p.n, p.caller), p.m, p.name, data), v');
  }

  lemma BecomeNone(cfg: Config, g: System, n: nat, k: State)
    ensures Become(cfg, g, n, k, []) == g.(clusters := g.clusters[n := k])
  {
  }

  /** The near cluster service packs the request. */
  lemma Packs(cfg: Config, p: Parties, v: View, k: nat, data: Bytes) returns (v': View)
    requires Ready(cfg, p) && v.toNear == [Ask(p.caller, k, Send(p.m, p.name, p.caller, data))]
    ensures Goes(cfg, p, v, ClusterTake(p.n), v')
    ensures v' == v.(near := Dispatch(v.near, p.m, Request(p.name, p.caller, k, data)), toNear := [])
  {
    hide Enabled, HonestStep, FailedBy, Move, Fine, Goes, Dispatch, Net;
    v' := v.(near := Dispatch(v.near, p.m, Request(p.name, p.caller, k, data)), toNear := []);
    Places(cfg, p, v);
    SetNearMail(cfg, p, v, []);
    SetClusters(cfg, p, v.(toNear := []), v'.near);
    AskFine(cfg, Net(cfg, p, v), p.n, p.caller, k, p.m, p.name, p.caller, data);
    GoesFine(cfg, p, v, ClusterTake(p.n), v');
  }

  /** Its coroutine looks the node up. */
  lemma Looks(cfg: Config, p: Parties, v: View, i: nat, near: State, h: nat) returns (v': View)
    requires Ready(cfg, p) && i < |v.near.nextCoro|
    requires Resume(cfg.json, v.near, i, false, true) == (near, [HttpGet(h, p.m)])
    ensures Goes(cfg, p, v, ClusterRun(p.n, i, false, true), v') && v' == v.(near := near)
  {
    hide Enabled, HonestStep, FailedBy, Move, Fine, Goes, Net, Ready, Become, Resume;
    v' := v.(near := near);
    Places(cfg, p, v);
    SetClusters(cfg, p, v, near);
    BecomeOne(cfg, Net(cfg, p, v), p.n, near, HttpGet(h, p.m));
    RunFine(cfg, Net(cfg, p, v), p.n, i, false, true);
    GoesFine(cfg, p, v, ClusterRun(p.n, i, false, true), v');
  }

  /** The node is found and dialled. */
  lemma Dials(cfg: Config, p: Parties, v: View, h: nat, near: State) returns (v': View)
    requires Ready(cfg, p) && h in v.near.httpCoro && v.near.httpCoro[h].Relay? && v.conn == None
    requires HttpReply(v.near, h, true, true) == (near, [Dial(1, p.m)])
    ensures Goes(cfg, p, v, HttpDone(p.n, h, true, true), v')
    ensures v' == v.(near := near, conn := Some(Conn(None, [], [])),
                     history := v.history.(dialed := v.history.dialed[Addr(p.n, 1) := p.m]))
  {
    hide Become, HttpReply;
    v' := v.(near := near, conn := Some(Conn(None, [], [])),
             history := v.history.(dialed := v.history.dialed[Addr(p.n, 1) := p.m]));
    BecomeOne(cfg, Net(cfg, p, v), p.n, near, Dial(1, p.m));
    GoesOn(cfg, p, v, HttpDone(p.n, h, true, true), v');
  }

  /** The connection is there, and the request goes out on it. */
  lemma Connects(cfg: Config, p: Parties, v: View, near: State, frame: Bytes) returns (v': View)
    requires Ready(cfg, p) && v.conn == Some(Conn(None, [], []))
    requires Addr(p.n, 1) in v.history.dialed && v.history.dialed[Addr(p.n, 1)] == p.m
    requires OnConnect(v.near, 1) == (near, [SendClient(1, frame)])
    ensures Goes(cfg, p, v, Connected(p.n, 1), v')
    ensures v' == v.(near := near, conn := Some(Conn(Some(v.nextFd), [frame], [])), nextFd := v.nextFd + 1,
                     history := v.history.(peers := v.history.peers[Addr(p.m, v.nextFd) := Addr(p.n, 1)]))
  {
    hide Enabled, HonestStep, FailedBy, Move, Fine, Goes, Net, Ready, OnConnect, Become;
    v' := v.(near := near, conn := Some(Conn(Some(v.nextFd), [frame], [])), nextFd := v.nextFd + 1,
             history := v.history.(peers := v.history.peers[Addr(p.m, v.nextFd) := Addr(p.n, 1)]));
    var g, c := Net(cfg, p, v), Conn(Some(v.nextFd), [], []);
    var v1 := v.(conn := Some(c));
    var v2 := v1.(nextFd := v.nextFd + 1);
    var v3 := v2.(history := v'.history);
    var v4 := v3.(near := near);
    assert [] + [frame] == [frame];
    Places(cfg, p, v);
    SetRest(cfg, p, v, c, 0, v.history, []);
    SetRest(cfg, p, v1, c, v.nextFd + 1, v.history, []);
    SetRest(cfg, p, v2, c, 0, v'.history, []);
    SetClusters(cfg, p, v3, near);
    Places(cfg, p, v4);
    SetRest(cfg, p, v4, v'.conn.value, 0, v.history, []);
    BecomeOne(cfg, Net(cfg, p, v3), p.n, near, SendClient(1, frame));
    ConnectFine(cfg, g, p.n, 1);
    GoesFine(cfg, p, v, Connected(p.n, 1), v');
  }

  /** The far cluster service reads the request. */
  lemma Reads(cfg: Config, p: Parties, v: View, fd: nat, frame: Bytes, r: Request, far: State) returns (v': View)
    requires Ready(cfg, p) && v.conn == Some(Conn(Some(fd), [frame], []))
    requires Addr(p.n, 1) in v.history.dialed && v.history.dialed[Addr(p.n, 1)] == p.m
    requires DecodeRequest(frame) == Parsed(r, []) && r.name == p.name
    requires OnServerMsg(cfg.json, name => cfg.lookup(p.m, name), v.far, fd, frame) == (far, [])
    ensures Goes(cfg, p, v, ServerRead(p.n, 1), v')
    ensures v' == v.(far := far, conn := Some(Conn(Some(fd), [], [])))
  {
    hide Enabled, HonestStep, FailedBy, Move, Fine, Goes, Net, Become, OnServerMsg, DecodeRequest;
    var g, c := Net(cfg, p, v), Conn(Some(fd), [], []);
    v' := v.(far := far, conn := Some(c));
    Places(cfg, p, v);
    SetRest(cfg, p, v, c, 0, v.history, []);
    SetClusters(cfg, p, v.(conn := Some(c)), far);
    BecomeNone(cfg, g.(conns := g.conns[Addr(p.n, 1) := c]), p.m, far);
    ReadFine(cfg, g, p.n, 1, frame, r);
    GoesFine(cfg, p, v, ServerRead(p.n, 1), v');
  }

  /** And calls the service asked. */
  lemma Passes(cfg: Config, p: Parties, v: View, i: nat, far: State, t: nat, data: Bytes) returns (v': View)
    requires Ready(cfg, p) && i < |v.far.nextCoro| && v.toTarget == []
    requires Resume(cfg.json, v.far, i, true, true) == (far, [PostCall(p.target, t, data)])
    ensures Goes(cfg, p, v, ClusterRun(p.m, i, true, true), v')
    ensures v' == v.(far := far, toTarget := [Ask(cfg.cluster(p.m), t, Plain(data))], history := v'.history)
    ensures v'.history.dialed == v.history.dialed && v'.history.peers == v.history.peers
  {
    hide Enabled, HonestStep, FailedBy, Move, Fine, Goes, Net, Ready, Become, Resume;
    var e := PostCall(p.target, t, data);
    v' := v.(far := far, toTarget := [Ask(cfg.cluster(p.m), t, Plain(data))],
             history := Noted(cfg, v.history, p.m, far, e));
    var v1 := v.(far := far);
    var v2 := v1.(history := v'.history);
    assert [] + v'.toTarget == v'.toTarget;
    Places(cfg, p, v);
    SetClusters(cfg, p, v, far);
    SetRest(cfg, p, v1, Conn(None, [], []), 0, v'.history, []);
    Places(cfg, p, v2);
    SetFarMail(cfg, p, v2, v'.toTarget);
    BecomeOne(cfg, Net(cfg, p, v), p.m, far, e);
    RunFine(cfg, Net(cfg, p, v), p.m, i, true, true);
    GoesFine(cfg, p, v, ClusterRun(p.m, i, true, true), v');
  }

  /** The service takes the request. */
  lemma TakesOn(cfg: Config, p: Parties, v: View, t: nat, data: Bytes) returns (v': View)
    requires Ready(cfg, p) && v.toTarget == [Ask(cfg.cluster(p.m), t, Plain(data))]
    ensures Goes(cfg, p, v, AppTake(Addr(p.m, p.target)), v')
    ensures v' == v.(toTarget := [],
                     serving := v.serving.(duties := v.serving.duties + {Duty(cfg.cluster(p.m), t, data)}))
  {
    hide Enabled, HonestStep, FailedBy, Move, Fine, Goes, Net, Ready;
    v' := v.(toTarget := [], serving := v.serving.(duties := v.serving.duties + {Duty(cfg.cluster(p.m), t, data)}));
    var v1 := v.(toTarget := []);
    Places(cfg, p, v);
    SetFarMail(cfg, p, v, []);
    SetServing(cfg, p, v1, v'.serving);
    TakeFine(cfg, Net(cfg, p, v), Addr(p.m, p.target), v.toTarget[0]);
    GoesFine(cfg, p, v, AppTake(Addr(p.m, p.target)), v');
  }

  /** And answers it. */
  lemma AnswersIt(cfg: Config, p: Parties, v: View, t: nat, data: Bytes, isOk: bool, answer: Bytes) returns (v': View)
    requires Ready(cfg, p) && Duty(cfg.cluster(p.m), t, data) in v.serving.duties && v.toFar == []
    ensures Goes(cfg, p, v, AppAnswer(Addr(p.m, p.target), Duty(cfg.cluster(p.m), t, data), isOk, answer), v')
    ensures v' == v.(toFar := [Answer(t, isOk, answer)], history := v'.history)
    ensures v'.history.dialed == v.history.dialed && v'.history.peers == v.history.peers
  {
    hide Enabled, HonestStep, FailedBy, Move, Fine, Goes, Net, Ready;
    var duty := Duty(cfg.cluster(p.m), t, data);
    v' := v.(toFar := [Answer(t, isOk, answer)],
             history := v.history.(given := v.history.given + {GivenBy(Addr(p.m, p.target), duty, isOk, answer)}));
    assert [] + v'.toFar == v'.toFar;
    var v1 := v.(history := v'.history);
    Places(cfg, p, v);
    SetRest(cfg, p, v, Conn(None, [], []), 0, v'.history, []);
    Places(cfg, p, v1);
    SetFarMail(cfg, p, v1, v'.toFar);
    AnswerFine(cfg, Net(cfg, p, v), Addr(p.m, p.target), duty, isOk, answer);
    GoesFine(cfg, p, v, AppAnswer(Addr(p.m, p.target), duty, isOk, answer), v');
  }

  /** The far cluster service sends the answer back on the connection the request came from. */
  lemma Replies(cfg: Config, p: Parties, v: View, t: nat, isOk: bool, answer: Bytes, fd: nat, far: State, frame: Bytes)
      returns (v': View)
    requires Ready(cfg, p) && v.toFar == [Answer(t, isOk, answer)] && v.conn == Some(Conn(Some(fd), [], []))
    requires Addr(p.m, fd) in v.history.peers && v.history.peers[Addr(p.m, fd)] == Addr(p.n, 1)
    requires OnResponse(cfg.json, v.far, t, isOk, answer) == (far, [SendServer(fd, frame)])
    ensures Goes(cfg, p, v, ClusterTake(p.m), v')
    ensures v' == v.(far := far, toFar := [], conn := Some(Conn(Some(fd), [], [frame])))
  {
    hide Enabled, HonestStep, FailedBy, Move, Fine, Goes, Net, Ready, OnResponse, Become;
    v' := v.(far := far, toFar := [], conn := Some(Conn(Some(fd), [], [frame])));
    var g := Net(cfg, p, v);
    var v1 := v.(toFar := []);
    var v2 := v1.(far := far);
    assert v.toFar[1..] == [] && [] + [frame] == [frame];
    Places(cfg, p, v);
    SetFarMail(cfg, p, v, []);
    SetClusters(cfg, p, v1, far);
    Places(cfg, p, v2);
    SetRest(cfg, p, v2, v'.conn.value, 0, v.history, []);
    BecomeOne(cfg, g.(mail := g.mail[Addr(p.m, cfg.cluster(p.m)) := []]), p.m, far, SendServer(fd, frame));
    AnswerTaken(cfg, g, p.m, t, isOk, answer);
    GoesFine(cfg, p, v, ClusterTake(p.m), v');
  }

  /** The near one posts it to the caller. */
  lemma Returns(cfg: Config, p: Parties, v: View, fd: nat, frame: Bytes, k: nat, isOk: bool, data: Bytes)
      returns (v': View)
    requires Ready(cfg, p) && v.conn == Some(Conn(Some(fd), [], [frame])) && v.toCaller == []
    requires OnClientMsg(cfg.json, v.near, 1, frame) == [PostResponse(p.caller, k, isOk, data)]
    ensures Goes(cfg, p, v, ClientRead(p.n, 1), v')
    ensures v' == v.(conn := Some(Conn(Some(fd), [], [])), toCaller := [Answer(k, isOk, data)])
  {
    hide Enabled, HonestStep, FailedBy, Move, Fine, Goes, Net, Ready, OnClientMsg, Become;
    v' := v.(conn := Some(Conn(Some(fd), [], [])), toCaller := [Answer(k, isOk, data)]);
    var g, c := Net(cfg, p, v), Conn(Some(fd), [], []);
    var v1 := v.(conn := Some(c));
    assert [frame][1..] == [] && [] + v'.toCaller == v'.toCaller;
    Places(cfg, p, v);
    SetRest(cfg, p, v, c, 0, v.history, []);
    Places(cfg, p, v1);
    SetCallerMail(cfg, p, v1, v'.toCaller);
    SetClusters(cfg, p, v1, v.near);
    BecomeOne(cfg, g.(conns := g.conns[Addr(p.n, 1) := c]), p.n, v.near, PostResponse(p.caller, k, isOk, data));
    ClientFine(cfg, g, p.n, 1, frame);
    GoesFine(cfg, p, v, ClientRead(p.n, 1), v');
  }

  /** The caller goes on. */
  lemma GoesOnWith(cfg: Config, p: Parties, v: View, k: nat, isOk: bool, data: Bytes) returns (v': View)
    requires Ready(cfg, p) && v.toCaller == [Answer(k, isOk, data)] && k in v.app.waiting
    ensures Goes(cfg, p, v, AppTake(Addr(p.n, p.caller)), v')
    ensures v' == v.(toCaller := [], app := v.app.(waiting := v.app.waiting - {k}),
                     results := v.results + [Result(Key(Addr(p.n, p.caller), k), Answered(isOk, data))])
  {
    hide Enabled, HonestStep, FailedBy, Move, Fine, Goes, Net, Ready;
    v' := v.(toCaller := [], app := v.app.(waiting := v.app.waiting - {k}),
             results := v.results + [Result(Key(Addr(p.n, p.caller), k), Answered(isOk, data))]);
    var v1 := v.(toCaller := []);
    var v2 := v1.(app := v'.app);
    Places(cfg, p, v);
    SetCallerMail(cfg, p, v, []);
    SetApp(cfg, p, v1, v'.app);
    SetRest(cfg, p, v2, Conn(None, [], []), 0, v.history, v'.results);
    TakeFine(cfg, Net(cfg, p, v), Addr(p.n, p.caller), v.toCaller[0]);
    GoesFine(cfg, p, v, AppTake(Addr(p.n, p.caller)), v');
  }

  // ---------------------------------------------------------------- the run

  /** Views linked by events are a run. */
  lemma Linked(cfg: Config, p: Parties, vs: seq<View>, events: seq<Event>) returns (states: seq<System>)
    requires Ready(cfg, p) && |vs| == |events| + 1 && vs[0] == Start(vs[0].nextFd)
    requires forall i :: 0 <= i < |events| ==> Goes(cfg, p, vs[i], events[i], vs[i + 1])
    ensures IsRun(cfg, states, events) && Honest(cfg, states, events)
    ensures |states| == |vs| && forall i :: 0 <= i < |vs| ==> states[i] == Net(cfg, p, vs[i])
  {
    states := seq(|vs|, i requires 0 <= i < |vs| => Net(cfg, p, vs[i]));
    StartsIdle(cfg, p, vs[0].nextFd);
    hide Net, Init, Ready, Enabled, Apply, HonestStep;
    forall i | 0 <= i < |events|
      ensures Enabled(cfg, states[i], events[i]) && states[i + 1] == Apply(cfg, states[i], events[i])
      ensures HonestStep(cfg, states[i], events[i])
    {
      assert Goes(cfg, p, vs[i], events[i], vs[i + 1]);
    }
  }

  lemma StartsIdle(cfg: Config, p: Parties, fd: nat)
    requires Ready(cfg, p)
    ensures Init(cfg, Net(cfg, p, Start(fd)))
  {
  }

  /** The near half of the run: the request is on its way. */
  lemma GoesOut(cfg: Config, p: Parties, fd: nat, data: Bytes) returns (vs: seq<View>, events: seq<Event>)
    requires Ready(cfg, p) && Packable(Request(p.name, p.caller, 1, data))
    ensures |vs| == 6 && |events| == 5 && vs[0] == Start(fd)
    ensures events[0] == CallRemote(Addr(p.n, p.caller), p.m, p.name, data)
    ensures forall i :: 0 <= i < |events| ==> Goes(cfg, p, vs[i], events[i], vs[i + 1])
    ensures var r := Request(p.name, p.caller, 1, data);
            && EncodeRequest(r).Some?
            && vs[5].near == Joined(IDLE, p.m, r) && vs[5].far == IDLE
            && vs[5].conn == Some(Conn(Some(fd), [EncodeRequest(r).value], []))
            && vs[5].app == App(2, {1}, {}) && vs[5].serving == App(1, {}, {})
            && vs[5].toFar == [] && vs[5].toCaller == [] && vs[5].toTarget == [] && vs[5].results == []
            && Addr(p.n, 1) in vs[5].history.dialed && vs[5].history.dialed[Addr(p.n, 1)] == p.m
            && Addr(p.m, fd) in vs[5].history.peers && vs[5].history.peers[Addr(p.m, fd)] == Addr(p.n, 1)
  {
    hide Goes, Ready, EncodeRequest, Packable, Joined, Dispatch, Resume, HttpReply, OnConnect;
    var r, at := Request(p.name, p.caller, 1, data), Addr(p.n, p.caller);
    PackableEncodes(r);
    ColdRequest(cfg.json, IDLE, p.m, r, false);
    var v0 := Start(fd);
    var v1 := Calls(cfg, p, v0, data);
    var v2 := Packs(cfg, p, v1, 1, data);
    LooksUp(cfg.json, IDLE, p.m, r, false);
    var near3 := Resume(cfg.json, v2.near, 0, false, true).0;
    var v3 := Looks(cfg, p, v2, 0, near3, 1);
    var near4 := HttpReply(near3, 1, true, true).0;
    var v4 := Dials(cfg, p, v3, 1, near4);
    var v5 := Connects(cfg, p, v4, Joined(IDLE, p.m, r), EncodeRequest(r).value);
    vs := [v0, v1, v2, v3, v4, v5];
    events := [CallRemote(at, p.m, p.name, data), ClusterTake(p.n), ClusterRun(p.n, 0, false, true),
               HttpDone(p.n, 1, true, true), Connected(p.n, 1)];
    forall i | 0 <= i < |events| ensures Goes(cfg, p, vs[i], events[i], vs[i + 1]) {
      assert i == 0 || i == 1 || i == 2 || i == 3 || i == 4;
    }
  }

  /** The far half: the request is read, passed on, taken and answered. */
  lemma IsServed(cfg: Config, p: Parties, v0: View, fd: nat, data: Bytes, isOk: bool, answer: Bytes)
      returns (vs: seq<View>, events: seq<Event>)
    requires Ready(cfg, p) && Packable(Request(p.name, p.caller, 1, data)) && cfg.json.valid(data)
    requires var r := Request(p.name, p.caller, 1, data);
             EncodeRequest(r).Some? && v0.conn == Some(Conn(Some(fd), [EncodeRequest(r).value], []))
    requires v0.far == IDLE && v0.toFar == [] && v0.toTarget == []
    requires Addr(p.n, 1) in v0.history.dialed && v0.history.dialed[Addr(p.n, 1)] == p.m
    ensures |vs| == 5 && |events| == 4 && vs[0] == v0
    ensures forall i :: 0 <= i < |events| ==> Goes(cfg, p, vs[i], events[i], vs[i + 1])
    ensures vs[4].far == IDLE.(autoSession := 2, callCoro := map[1 := Back(fd, p.caller, 1)])
    ensures vs[4] == v0.(far := vs[4].far, conn := Some(Conn(Some(fd), [], [])), serving := vs[4].serving,
                         toFar := [Answer(1, isOk, answer)], history := vs[4].history)
    ensures vs[4].history.peers == v0.history.peers
  {
    hide Goes, Ready, EncodeRequest, DecodeRequest, Packable, OnServerMsg, Resume;
    var r, frame := Request(p.name, p.caller, 1, data), EncodeRequest(Request(p.name, p.caller, 1, data)).value;
    Registered(cfg, p);
    Unpacked(r);
    ReceivedRequest(cfg.json, name => cfg.lookup(p.m, name), IDLE, fd, r);
    var far1 := OnServerMsg(cfg.json, name => cfg.lookup(p.m, name), IDLE, fd, frame).0;
    var v1 := Reads(cfg, p, v0, fd, frame, r, far1);
    ServesIdle(cfg.json, fd, p.target, r);
    var far2 := Resume(cfg.json, far1, 0, true, true).0;
    var v2 := Passes(cfg, p, v1, 0, far2, 1, cfg.json.again(data));
    var v3 := TakesOn(cfg, p, v2, 1, cfg.json.again(data));
    var v4 := AnswersIt(cfg, p, v3, 1, cfg.json.again(data), isOk, answer);
    vs := [v0, v1, v2, v3, v4];
    events := [ServerRead(p.n, 1), ClusterRun(p.m, 0, true, true), AppTake(Addr(p.m, p.target)),
               AppAnswer(Addr(p.m, p.target), Duty(cfg.cluster(p.m), 1, cfg.json.again(data)), isOk, answer)];
    forall i | 0 <= i < |events| ensures Goes(cfg, p, vs[i], events[i], vs[i + 1]) {
      assert i == 0 || i == 1 || i == 2 || i == 3;
    }
  }

  lemma Registered(cfg: Config, p: Parties)
    requires Ready(cfg, p)
    ensures cfg.lookup(p.m, p.name) == p.target && p.target > 0
  {
  }

  lemma ServesIdle(json: Json, fd: nat, service: nat, r: Request)
    requires json.valid(r.data)
    ensures var tasks := IDLE.nextCoro + [Serve(fd, service, r.from, r.session, r.data)];
            Resume(json, IDLE.(nextCoro := tasks), 0, true, true) ==
              (IDLE.(autoSession := 2, callCoro := map[1 := Back(fd, r.from, r.session)]),
               [PostCall(service, 1, json.again(r.data))])
  {
    var tasks := IDLE.nextCoro + [Serve(fd, service, r.from, r.session, r.data)];
    assert Remove(tasks, 0) == [];
    assert map[][1 := Back(fd, r.from, r.session)] == map[1 := Back(fd, r.from, r.session)];
  }

  /** The way back. */
  lemma ComesBack(cfg: Config, p: Parties, v0: View, fd: nat, r: Request, isOk: bool, answer: Bytes)
      returns (vs: seq<View>, events: seq<Event>)
    requires Ready(cfg, p) && r.from == p.caller && r.session == 1 && Packable(r)
    requires PackableResponse(Response(r.from, r.session, isOk, Packed(cfg.json, isOk, answer)))
    requires cfg.json.valid(Packed(cfg.json, isOk, answer)) && (isOk ==> cfg.json.valid(answer))
    requires v0.toFar == [Answer(1, isOk, answer)] && v0.conn == Some(Conn(Some(fd), [], [])) && v0.toCaller == []
    requires v0.far == IDLE.(autoSession := 2, callCoro := map[1 := Back(fd, p.caller, 1)])
    requires v0.near == Joined(IDLE, p.m, r) && 1 in v0.app.waiting
    requires Addr(p.m, fd) in v0.history.peers && v0.history.peers[Addr(p.m, fd)] == Addr(p.n, 1)
    ensures |vs| == 4 && |events| == 3 && vs[0] == v0
    ensures forall i :: 0 <= i < |events| ==> Goes(cfg, p, vs[i], events[i], vs[i + 1])
    ensures vs[3].results == v0.results + [Result(Key(Addr(p.n, p.caller), 1),
                                                  Answered(isOk, cfg.json.again(Packed(cfg.json, isOk, answer))))]
  {
    hide Goes, Ready, Joined, Packable, PackableResponse, EncodeResponse, OnClientMsg, Respond, Packed;
    var back := Response(r.from, r.session, isOk, Packed(cfg.json, isOk, answer));
    JoinedClient(IDLE, p.m, r);
    UnpackedResponse(back);
    ForwardedAnswer(cfg.json, v0.near, 1, fd, back);
    var frame := EncodeResponse(back).value;
    var far1 := OnResponse(cfg.json, v0.far, 1, isOk, answer).0;
    var v1 := Replies(cfg, p, v0, 1, isOk, answer, fd, far1, frame);
    var v2 := Returns(cfg, p, v1, fd, frame, 1, isOk, cfg.json.again(back.data));
    var v3 := GoesOnWith(cfg, p, v2, 1, isOk, cfg.json.again(back.data));
    vs := [v0, v1, v2, v3];
    events := [ClusterTake(p.m), ClientRead(p.n, 1), AppTake(Addr(p.n, p.caller))];
    forall i | 0 <= i < |events| ensures Goes(cfg, p, vs[i], events[i], vs[i + 1]) {
      assert i == 0 || i == 1 || i == 2;
    }
  }

  /** Two stretches, the second going on from where the first ends. */
  lemma Joint(cfg: Config, p: Parties, vs: seq<View>, events: seq<Event>, ws: seq<View>, more: seq<Event>)
    requires |vs| == |events| + 1 && |ws| == |more| + 1 && ws[0] == vs[|events|]
    requires forall i :: 0 <= i < |events| ==> Goes(cfg, p, vs[i], events[i], vs[i + 1])
    requires forall i :: 0 <= i < |more| ==> Goes(cfg, p, ws[i], more[i], ws[i + 1])
    ensures var all, es := vs + ws[1..], events + more;
            |all| == |es| + 1 && forall i :: 0 <= i < |es| ==> Goes(cfg, p, all[i], es[i], all[i + 1])
  {
    hide Goes;
    var all, es, n := vs + ws[1..], events + more, |events|;
    forall i | 0 <= i < |es| ensures Goes(cfg, p, all[i], es[i], all[i + 1]) {
      if i >= n {
        assert es[i] == more[i - n] && all[i] == ws[i - n] && all[i + 1] == ws[i - n + 1];
      }
    }
  }

  /**
   A call is answered. For all nodes, services, names, data and answers that can be packed and decoded, and whatever
   number the far node gives its first descriptor, there is an honest run from idle nodes in which the one coroutine
   that is resumed is the caller, in the session of its call, with exactly what the handler answered.
   */
  lemma CallAnswered(cfg: Config, p: Parties, fd: nat, data: Bytes, isOk: bool, answer: Bytes)
      returns (states: seq<System>, events: seq<Event>)
    requires Ready(cfg, p) && Packable(Request(p.name, p.caller, 1, data)) && cfg.json.valid(data)
    requires PackableResponse(Response(p.caller, 1, isOk, Packed(cfg.json, isOk, answer)))
    requires cfg.json.valid(Packed(cfg.json, isOk, answer)) && (isOk ==> cfg.json.valid(answer))
    ensures IsRun(cfg, states, events) && Honest(cfg, states, events)
    ensures |events| > 0 && events[0] == CallRemote(Addr(p.n, p.caller), p.m, p.name, data)
    ensures states[|events|].results == [Result(Key(Addr(p.n, p.caller), 1),
                                                Answered(isOk, cfg.json.again(Packed(cfg.json, isOk, answer))))]
  {
    hide Goes, Ready, Packable, PackableResponse, Packed, Joined, EncodeRequest;
    var r := Request(p.name, p.caller, 1, data);
    var vs, es := GoesOut(cfg, p, fd, data);
    var ws, fs := IsServed(cfg, p, vs[5], fd, data, isOk, answer);
    Joint(cfg, p, vs, es, ws, fs);
    var us, gs := ComesBack(cfg, p, ws[4], fd, r, isOk, answer);
    Joint(cfg, p, vs + ws[1..], es + fs, us, gs);
    events := (es + fs) + gs;
    states := Linked(cfg, p, (vs + ws[1..]) + us[1..], events);
  }
}
