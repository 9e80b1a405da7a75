/**
 What happens when a service sends a request to relay to its cluster service by itself and names another service as the
 one to answer: the condition of ClusterRun.EndToEndCorrelation cannot be dropped.
 */
module ClusterMisuse {
  import opened Basics
  import opened Frames
  import opened ClusterService
  import opened ClusterSystem
  import opened ClusterRun

  // ---------------------------------------------------------------- requests that name somebody else

  /** One node `n` with its cluster service and the services `victim` and `sender`. */
  function Start(cfg: Config, n: nat, victim: nat, sender: nat): System {
    System(map[n := State([], map[], map[], map[], map[], 1, 1)],
           map[Addr(n, victim) := App(1, {}, {}), Addr(n, sender) := App(1, {}, {})],
           map[Addr(n, cfg.cluster(n)) := [], Addr(n, victim) := []],
           map[], map[], History(map[], map[], map[], map[], {}, {}), [])
  }

  lemma LocalCall(cfg: Config, g: System, at: Addr, service: nat, data: Bytes)
    requires at in g.apps
    ensures Enabled(cfg, g, CallLocal(at, service, data))
    ensures Apply(cfg, g, CallLocal(at, service, data)) ==
            Issue(g, at, Local(service, data), Addr(at.node, service), Plain(data))
  {
    hide Issue;
    NothingFails(cfg, g, CallLocal(at, service, data));
  }

  /** Both services have called: the victim some third service, the sender its cluster service. */
  lemma BothCall(cfg: Config, n: nat, victim: nat, sender: nat, other: nat, raw: Bytes) returns (s1: System, s2: System)
    requires victim != sender && victim != cfg.cluster(n) && sender != cfg.cluster(n)
    requires other != cfg.cluster(n) && other != victim
    ensures var s0 := Start(cfg, n, victim, sender);
            && Enabled(cfg, s0, CallLocal(Addr(n, victim), other, []))
            && s1 == Apply(cfg, s0, CallLocal(Addr(n, victim), other, []))
            && Enabled(cfg, s1, CallLocal(Addr(n, sender), cfg.cluster(n), raw))
            && s2 == Apply(cfg, s1, CallLocal(Addr(n, sender), cfg.cluster(n), raw))
    ensures s2.clusters == map[n := State([], map[], map[], map[], map[], 1, 1)] && s2.conns == map[]
        && s2.results == []
    ensures s2.mail == map[Addr(n, cfg.cluster(n)) := [Ask(sender, 1, Plain(raw))], Addr(n, victim) := []]
    ensures Addr(n, victim) in s2.apps && s2.apps[Addr(n, victim)] == App(2, {1}, {})
    ensures s2.history.given == {} && Key(Addr(n, victim), 1) in s2.history.calls
    ensures s2.history.calls[Key(Addr(n, victim), 1)] == Local(other, [])
  {
    hide Apply, Enabled;
    var s0 := Start(cfg, n, victim, sender);
    LocalCall(cfg, s0, Addr(n, victim), other, []);
    s1 := Apply(cfg, s0, CallLocal(Addr(n, victim), other, []));
    assert s1.mail == s0.mail;
    LocalCall(cfg, s1, Addr(n, sender), cfg.cluster(n), raw);
    s2 := Apply(cfg, s1, CallLocal(Addr(n, sender), cfg.cluster(n), raw));
    assert [] + [Ask(sender, 1, Plain(raw))] == [Ask(sender, 1, Plain(raw))];
    assert s2.mail == map[Addr(n, cfg.cluster(n)) := [Ask(sender, 1, Plain(raw))], Addr(n, victim) := []];
  }

  lemma NothingFails(cfg: Config, g: System, e: Event)
    requires Enabled(cfg, g, e) && FailedBy(cfg, g, e) == {}
    ensures Apply(cfg, g, e) == Move(cfg, g, e)
  {
    hide FailedBy, Move;
    assert Noting(cfg, g, e) == g;
  }

  lemma PerformOne(cfg: Config, g: System, n: nat, e: Effect)
    ensures PerformAll(cfg, g, n, [e]) == Perform(cfg, g, n, e)
  {
    hide Perform;
    var es := [e];
    assert es[1..] == [];
  }

  lemma BecomeOne(cfg: Config, g: System, n: nat, k: State, e: Effect)
    ensures Become(cfg, g, n, k, [e]) ==
            Perform(cfg, g.(clusters := g.clusters[n := k], history := Noted(cfg, g.history, n, k, e)), n, e)
  {
    hide Perform, Noted, PerformAll, NotedAll;
    NotedOne(cfg, g.history, n, k, e);
    PerformOne(cfg, g.(clusters := g.clusters[n := k], history := Noted(cfg, g.history, n, k, e)), n, e);
  }

  lemma BecomeTwo(cfg: Config, g: System, n: nat, k: State, d: Effect, e: Effect)
    ensures Become(cfg, g, n, k, [d] + [e]) ==
            var g' := g.(clusters := g.clusters[n := k],
                         history := Noted(cfg, Noted(cfg, g.history, n, k, d), n, k, e));
            Perform(cfg, Perform(cfg, g', n, d), n, e)
  {
    hide Perform, Noted;
    var es := [d] + [e];
    assert es[1..] == [e] && es[0] == d;
    NotedOne(cfg, Noted(cfg, g.history, n, k, d), n, k, e);
    var g' := g.(clusters := g.clusters[n := k], history := Noted(cfg, Noted(cfg, g.history, n, k, d), n, k, e));
    PerformOne(cfg, Perform(cfg, g', n, d), n, e);
  }

  /** The coroutine that relays the request. */
  function RelayTask(r: Request, toNode: nat): Task
    requires EncodeRequest(r).Some?
  {
    Relay(toNode, EncodeRequest(r).value, r.from, r.session)
  }

  /** The cluster service takes the request. */
  lemma Taken(cfg: Config, g: System, n: nat, victim: nat, sender: nat, raw: Bytes, r: Request) returns (s: System)
    requires g.clusters == map[n := State([], map[], map[], map[], map[], 1, 1)]
    requires g.mail == map[Addr(n, cfg.cluster(n)) := [Ask(sender, 1, Plain(raw))], Addr(n, victim) := []]
    requires victim != cfg.cluster(n) && cfg.command(raw).Some? && EncodeRequest(r).Some?
    requires var c := cfg.command(raw).value; r == Request(c.name, c.from, 1, c.data)
    ensures Enabled(cfg, g, ClusterTake(n)) && s == Apply(cfg, g, ClusterTake(n))
    ensures s.clusters ==
            map[n := State([RelayTask(r, cfg.command(raw).value.toNode)], map[], map[], map[], map[], 1, 1)]
    ensures s.mail == map[Addr(n, cfg.cluster(n)) := [], Addr(n, victim) := []]
    ensures s.apps == g.apps && s.conns == g.conns && s.results == g.results && s.history == g.history
    ensures r.from != sender ==> !HonestStep(cfg, g, ClusterTake(n))
  {
    hide EncodeRequest;
    var at, k := Addr(n, cfg.cluster(n)),
      State([RelayTask(r, cfg.command(raw).value.toNode)], map[], map[], map[], map[], 1, 1);
    s := Apply(cfg, g, ClusterTake(n));
    NothingFails(cfg, g, ClusterTake(n));
    hide Apply;
    var g1 := g.(mail := g.mail[at := g.mail[at][1..]]);
    assert Dispatch(g.clusters[n], cfg.command(raw).value.toNode, r).nextCoro ==
      [RelayTask(r, cfg.command(raw).value.toNode)];
    assert s == Become(cfg, g1, n, k, []);
    assert g1.clusters[n := k] == map[n := k];
    assert g.mail[at][1..] == [];
  }

  /** Its coroutine looks the node up. */
  lemma LookedUp(cfg: Config, g: System, n: nat, r: Request, toNode: nat) returns (s: System)
    requires EncodeRequest(r).Some?
        && g.clusters == map[n := State([RelayTask(r, toNode)], map[], map[], map[], map[], 1, 1)]
    ensures Enabled(cfg, g, ClusterRun(n, 0, false, true)) && s == Apply(cfg, g, ClusterRun(n, 0, false, true))
    ensures s.clusters == map[n := State([], map[1 := RelayTask(r, toNode)], map[], map[], map[], 2, 1)]
    ensures s == g.(clusters := s.clusters)
  {
    hide EncodeRequest;
    var k := State([], map[1 := RelayTask(r, toNode)], map[], map[], map[], 2, 1);
    s := Apply(cfg, g, ClusterRun(n, 0, false, true));
    NothingFails(cfg, g, ClusterRun(n, 0, false, true));
    hide Apply;
    var coro := g.clusters[n].nextCoro;
    assert Remove(coro, 0) == [];
    assert Resume(cfg.json, g.clusters[n], 0, false, true) == (k, [HttpGet(1, toNode)]);
    BecomeOne(cfg, g, n, k, HttpGet(1, toNode));
    assert g.clusters[n := k] == map[n := k];
  }

  /** The node is found but cannot be connected to: the failure goes to whom the request named. */
  lemma CannotConnect(cfg: Config, g: System, n: nat, r: Request, toNode: nat) returns (s: System)
    requires EncodeRequest(r).Some? && r.session == 1 && Addr(n, r.from) in g.mail
    requires g.clusters == map[n := State([], map[1 := RelayTask(r, toNode)], map[], map[], map[], 2, 1)]
    ensures Enabled(cfg, g, HttpDone(n, 1, true, false)) && s == Apply(cfg, g, HttpDone(n, 1, true, false))
    ensures s.apps == g.apps && s.results == g.results && s.history.given == g.history.given
        && s.history.calls == g.history.calls
    ensures s.mail == g.mail[Addr(n, r.from) := g.mail[Addr(n, r.from)] + [Answer(1, false, EMPTY)]]
  {
    hide EncodeRequest;
    var k := State([], map[], map[1 := RelayTask(r, toNode)], map[], map[], 2, 2);
    s := Apply(cfg, g, HttpDone(n, 1, true, false));
    var g1 := Noting(cfg, g, HttpDone(n, 1, true, false));
    assert map[1 := RelayTask(r, toNode)] - {1} == map[];
    var more := [PostResponse(r.from, 1, false, EMPTY)];
    assert HttpReply(g1.clusters[n], 1, true, false) == (k, [Dial(1, toNode)] + more);
    BecomeTwo(cfg, g1, n, k, Dial(1, toNode), PostResponse(r.from, 1, false, EMPTY));
  }

  /** From the request in the cluster service's mailbox to the failure in the victim's. */
  lemma RelayFails(cfg: Config, g: System, n: nat, victim: nat, sender: nat, raw: Bytes)
      returns (s3: System, s4: System, s5: System)
    requires g.clusters == map[n := State([], map[], map[], map[], map[], 1, 1)] && victim != sender
    requires g.mail == map[Addr(n, cfg.cluster(n)) := [Ask(sender, 1, Plain(raw))], Addr(n, victim) := []]
    requires victim != cfg.cluster(n) && cfg.command(raw).Some?
    requires var c := cfg.command(raw).value; c.from == victim && Packable(Request(c.name, c.from, 1, c.data))
    ensures Enabled(cfg, g, ClusterTake(n)) && s3 == Apply(cfg, g, ClusterTake(n))
        && !HonestStep(cfg, g, ClusterTake(n))
    ensures Enabled(cfg, s3, ClusterRun(n, 0, false, true)) && s4 == Apply(cfg, s3, ClusterRun(n, 0, false, true))
    ensures Enabled(cfg, s4, HttpDone(n, 1, true, false)) && s5 == Apply(cfg, s4, HttpDone(n, 1, true, false))
    ensures s5.apps == g.apps && s5.results == g.results
    ensures s5.history.given == g.history.given && s5.history.calls == g.history.calls
    ensures Addr(n, victim) in s5.mail && s5.mail[Addr(n, victim)] == [] + [Answer(1, false, EMPTY)]
  {
    hide Apply, Enabled, HonestStep, EncodeRequest, Packable, RelayTask;
    var c := cfg.command(raw).value;
    var r := Request(c.name, c.from, 1, c.data);
    PackableEncodes(r);
    s3 := Taken(cfg, g, n, victim, sender, raw, r);
    s4 := LookedUp(cfg, s3, n, r, c.toNode);
    s5 := CannotConnect(cfg, s4, n, r, c.toNode);
  }

  /**
   Without the condition every request that names somebody else is dangerous: whatever text a cluster service reads as
   a request to answer `victim`, some other service may send it, and then there is a run in which `victim` is resumed
   with an answer to a call of its own that nobody ever answered.
   */
  lemma Misdelivered(cfg: Config, n: nat, victim: nat, sender: nat, other: nat, raw: Bytes)
      returns (states: seq<System>, events: seq<Event>)
    requires victim != sender && victim != cfg.cluster(n) && sender != cfg.cluster(n)
    requires other != cfg.cluster(n) && other != victim
    requires cfg.command(raw).Some?
    requires var c := cfg.command(raw).value; c.from == victim && Packable(Request(c.name, c.from, 1, c.data))
    ensures IsRun(cfg, states, events) && !Honest(cfg, states, events)
    ensures var last := states[|events|];
            && |last.results| == 1 && last.results[0] == Result(Key(Addr(n, victim), 1), Answered(false, EMPTY))
            && Key(Addr(n, victim), 1) in last.history.calls && last.history.given == {}
            && forall d: nat :: !AnswersIn(cfg, last.history, d, Key(Addr(n, victim), 1), false, EMPTY)
  {
    var s0 := Start(cfg, n, victim, sender);
    hide Apply, Start, Enabled, HonestStep, AnswersIn, Init, IsRun, Honest, Packable;
    var s1, s2 := BothCall(cfg, n, victim, sender, other, raw);
    var s3, s4, s5 := RelayFails(cfg, s2, n, victim, sender, raw);
    var s6 := Resumed(cfg, s5, n, victim, other);
    states := [s0, s1, s2, s3, s4, s5, s6];
    events := [CallLocal(Addr(n, victim), other, []), CallLocal(Addr(n, sender), cfg.cluster(n), raw), ClusterTake(n),
               ClusterRun(n, 0, false, true), HttpDone(n, 1, true, false), AppTake(Addr(n, victim))];
    StartInit(cfg, n, victim, sender);
    SixSteps(cfg, states, events);
  }

  lemma SixSteps(cfg: Config, states: seq<System>, events: seq<Event>)
    requires |states| == 7 && |events| == 6 && Init(cfg, states[0])
    requires Enabled(cfg, states[0], events[0]) && states[1] == Apply(cfg, states[0], events[0])
    requires Enabled(cfg, states[1], events[1]) && states[2] == Apply(cfg, states[1], events[1])
    requires Enabled(cfg, states[2], events[2]) && states[3] == Apply(cfg, states[2], events[2])
    requires Enabled(cfg, states[3], events[3]) && states[4] == Apply(cfg, states[3], events[3])
    requires Enabled(cfg, states[4], events[4]) && states[5] == Apply(cfg, states[4], events[4])
    requires Enabled(cfg, states[5], events[5]) && states[6] == Apply(cfg, states[5], events[5])
    requires !HonestStep(cfg, states[2], events[2])
    ensures IsRun(cfg, states, events) && !Honest(cfg, states, events)
  {
    hide Enabled, Apply, Init, HonestStep;
    forall i | 0 <= i < |events|
      ensures Enabled(cfg, states[i], events[i]) && states[i + 1] == Apply(cfg, states[i], events[i])
    {
      assert i == 0 || i == 1 || i == 2 || i == 3 || i == 4 || i == 5;
    }
  }

  lemma StartInit(cfg: Config, n: nat, victim: nat, sender: nat)
    requires victim != cfg.cluster(n) && sender != cfg.cluster(n)
    ensures Init(cfg, Start(cfg, n, victim, sender))
  {
  }

  /** The victim's coroutine wakes up. */
  lemma Resumed(cfg: Config, g: System, n: nat, victim: nat, other: nat) returns (s: System)
    requires var at := Addr(n, victim);
             && at in g.apps && g.apps[at] == App(2, {1}, {}) && at in g.mail
               && g.mail[at] == [] + [Answer(1, false, EMPTY)]
    requires Key(Addr(n, victim), 1) in g.history.calls && g.history.calls[Key(Addr(n, victim), 1)] == Local(other, [])
    requires other != cfg.cluster(n) && g.history.given == {} && g.results == []
    ensures Enabled(cfg, g, AppTake(Addr(n, victim))) && s == Apply(cfg, g, AppTake(Addr(n, victim)))
    ensures s.results == [Result(Key(Addr(n, victim), 1), Answered(false, EMPTY))] && s.history == g.history
    ensures forall d: nat :: !AnswersIn(cfg, s.history, d, Key(Addr(n, victim), 1), false, EMPTY)
  {
    s := Apply(cfg, g, AppTake(Addr(n, victim)));
    NothingFails(cfg, g, AppTake(Addr(n, victim)));
  }
}
