/**
 What becomes of each service a worker takes, over whole runs of the scheduler (src/worker/worker.cpp,
 src/service/serviceMgr.cpp), and what the steps of one thread come to when no other interferes.
 */
module SchedulerRounds {
  import opened Basics
  import opened Scheduler
  import ServiceMgr

  // ---------------------------------------------------------------- every take is polled once and pushed back once

  /** The end of a take: the service was polled, or it was gone. */
  datatype Fate = Fate(id: nat, polled: bool)

  /** What worker `w` did so far, each kind in order: takes and their ends, pushes, pinned services read and polled. */
  datatype Rounds = Rounds(took: seq<nat>, fates: seq<Fate>, pushed: seq<nat>, read: seq<nat>, served: seq<nat>)

  ghost function TookBy(s: State, e: Event, w: nat): seq<nat> {
    if e == TakeFree(w) && s.freeServices != [] then [s.freeServices[0]] else []
  }

  ghost function FateBy(s: State, e: Event, w: nat): seq<Fate>
    requires Enabled(s, e)
  {
    if e == GetService(w) && s.workers[w].pc.id !in s.services then [Fate(s.workers[w].pc.id, false)]
    else if e == EndPoll(w) && s.workers[w].pc.token then [Fate(s.workers[w].pc.id, true)]
    else []
  }

  ghost function PushedBy(s: State, e: Event, w: nat): seq<nat>
    requires Enabled(s, e)
  {
    if e == PushFree(w) then [s.workers[w].pc.id] else []
  }

  ghost function ReadBy(s: State, e: Event, w: nat): seq<nat>
    requires Enabled(s, e)
  {
    if e == ReadService(w) && s.workers[w].pinned != 0 then [s.workers[w].pinned] else []
  }

  ghost function ServedBy(s: State, e: Event, w: nat): seq<nat>
    requires Enabled(s, e)
  {
    if e == EndPoll(w) && !s.workers[w].pc.token then [s.workers[w].pc.id] else []
  }

  ghost function RoundsOf(n: nat, states: seq<State>, events: seq<Event>, w: nat, j: nat): Rounds
    requires IsRun(n, states, events) && j <= |events|
    decreases j
  {
    if j == 0 then Rounds([], [], [], [], [])
    else
      var r, s, e := RoundsOf(n, states, events, w, j - 1), states[j - 1], events[j - 1];
      Rounds(r.took + TookBy(s, e, w), r.fates + FateBy(s, e, w), r.pushed + PushedBy(s, e, w),
             r.read + ReadBy(s, e, w), r.served + ServedBy(s, e, w))
  }

  function Ids(fates: seq<Fate>): (r: seq<nat>)
    ensures |r| == |fates| && forall i :: 0 <= i < |fates| ==> r[i] == fates[i].id
  {
    seq(|fates|, i requires 0 <= i < |fates| => fates[i].id)
  }

  /** The ids whose takes ended in a poll. */
  function Polled(fates: seq<Fate>): seq<nat> {
    if fates == [] then []
    else Polled(fates[..|fates| - 1]) + if fates[|fates| - 1].polled then [fates[|fates| - 1].id] else []
  }

  lemma PolledMore(fates: seq<Fate>, more: seq<Fate>)
    requires |more| <= 1
    ensures Polled(fates + more) == Polled(fates) + Polled(more) && Ids(fates + more) == Ids(fates) + Ids(more)
  {
    if more == [] {
      assert fates + more == fates;
    } else {
      assert (fates + more)[..|fates|] == fates && more[..0] == [];
    }
  }

  /** The id a worker has taken and not done with, is about to push back, or polls because it is pinned. */
  function Holding(pc: Pc): seq<nat> {
    if pc.Lookup? || (pc.Polling? && pc.token) then [pc.id] else []
  }

  function Pushing(pc: Pc): seq<nat> {
    if pc.PushBack? then [pc.id] else []
  }

  function Serving(pc: Pc): seq<nat> {
    if pc.Polling? && !pc.token then [pc.id] else []
  }

  lemma RoundStep(s: State, e: Event, w: nat)
    requires Enabled(s, e) && w < |s.workers|
    ensures w < |Apply(s, e).workers|
    ensures var pc, pc' := s.workers[w].pc, Apply(s, e).workers[w].pc;
            && Ids(FateBy(s, e, w)) + Holding(pc') == Holding(pc) + TookBy(s, e, w)
            && PushedBy(s, e, w) + Pushing(pc') == Pushing(pc) + Polled(FateBy(s, e, w))
            && ServedBy(s, e, w) + Serving(pc') == Serving(pc) + ReadBy(s, e, w)
  {
    hide IsServiceWorker, Ids, Polled, Apply;
    PcStep(s, e, w);
    var f := FateBy(s, e, w);
    if f != [] {
      OneFate(f[0]);
    } else {
      NoFate();
    }
  }

  lemma NoFate()
    ensures Ids([]) == [] && Polled([]) == []
  {
  }

  lemma OneFate(f: Fate)
    ensures Ids([f]) == [f.id] && Polled([f]) == if f.polled then [f.id] else []
  {
    assert [f][..0] == [];
  }

  /** Only the worker itself moves on in its loop. */
  lemma PcStep(s: State, e: Event, w: nat)
    requires Enabled(s, e) && w < |s.workers|
    ensures w < |Apply(s, e).workers|
    ensures var pc, pc' := s.workers[w].pc, Apply(s, e).workers[w].pc;
            if e == ReadService(w) then
              pc' == if s.workers[w].pinned != 0 then Pc.Polling(s.workers[w].pinned, false) else NeedFree
            else if e == TakeFree(w) then pc' == if s.freeServices == [] then Top else Lookup(s.freeServices[0])
            else if e == GetService(w) then pc' == if pc.id in s.services then Pc.Polling(pc.id, true) else Top
            else if e == EndPoll(w) then pc' == if pc.token then PushBack(pc.id) else Top
            else if e == PushFree(w) then pc' == Top
            else pc' == pc
  {
    hide IsServiceWorker, Apply;
    if WorkerEvent(e) {
      WorkerPc(s, e, w);
    } else {
      ManagerPc(s, e, w);
    }
  }

  lemma WorkerPc(s: State, e: Event, w: nat)
    requires Enabled(s, e) && w < |s.workers| && WorkerEvent(e)
    ensures w < |Apply(s, e).workers|
    ensures var pc, pc' := s.workers[w].pc, Apply(s, e).workers[w].pc;
            if e == ReadService(w) then
              pc' == if s.workers[w].pinned != 0 then Pc.Polling(s.workers[w].pinned, false) else NeedFree
            else if e == TakeFree(w) then pc' == if s.freeServices == [] then Top else Lookup(s.freeServices[0])
            else if e == GetService(w) then pc' == if pc.id in s.services then Pc.Polling(pc.id, true) else Top
            else if e == EndPoll(w) then pc' == if pc.token then PushBack(pc.id) else Top
            else if e == PushFree(w) then pc' == Top
            else pc' == pc
  {
    hide IsServiceWorker;
  }

  lemma ManagerPc(s: State, e: Event, w: nat)
    requires Enabled(s, e) && w < |s.workers| && !WorkerEvent(e)
    ensures w < |Apply(s, e).workers| && Apply(s, e).workers[w].pc == s.workers[w].pc
  {
    hide IsServiceWorker;
  }

  /**
   In every run, whatever the other threads do: each id a worker takes from the free queue is in its turn polled once,
   or dropped because it is in no map any more; each id polled is in its turn pushed back once, and nothing else is;
   and each time the worker finds a service pinned to it, it polls that service once. The worker is at most one behind.
   */
  lemma {:induction false} TakesArePolled(n: nat, states: seq<State>, events: seq<Event>, w: nat, j: nat)
    requires IsRun(n, states, events) && j <= |events| && w < n
    ensures w < |states[j].workers|
    ensures var r, pc := RoundsOf(n, states, events, w, j), states[j].workers[w].pc;
            && Ids(r.fates) + Holding(pc) == r.took
            && r.pushed + Pushing(pc) == Polled(r.fates)
            && r.served + Serving(pc) == r.read
    decreases j
  {
    hide Enabled, Apply, TookBy, FateBy, PushedBy, ReadBy, ServedBy, Holding, Pushing, Serving, Polled;
    if j == 0 {
      StartRounds(n, states, events, w);
    } else {
      TakesArePolled(n, states, events, w, j - 1);
      var r, s, e := RoundsOf(n, states, events, w, j - 1), states[j - 1], events[j - 1];
      RoundStep(s, e, w);
      assert states[j] == Apply(s, e);
      var pc, pc' := s.workers[w].pc, states[j].workers[w].pc;
      FewFates(s, e, w);
      PolledMore(r.fates, FateBy(s, e, w));
      Onward(Ids(r.fates), Holding(pc), r.took, Ids(FateBy(s, e, w)), Holding(pc'), TookBy(s, e, w));
      Onward(r.pushed, Pushing(pc), Polled(r.fates), PushedBy(s, e, w), Pushing(pc'), Polled(FateBy(s, e, w)));
      Onward(r.served, Serving(pc), r.read, ServedBy(s, e, w), Serving(pc'), ReadBy(s, e, w));
    }
  }

  lemma StartRounds(n: nat, states: seq<State>, events: seq<Event>, w: nat)
    requires IsRun(n, states, events) && w < n
    ensures w < |states[0].workers| && states[0].workers[w].pc == Top
    ensures Holding(Top) == [] && Pushing(Top) == [] && Serving(Top) == [] && Polled([]) == [] && Ids([]) == []
  {
  }

  lemma FewFates(s: State, e: Event, w: nat)
    requires Enabled(s, e)
    ensures |FateBy(s, e, w)| <= 1
  {
  }

  lemma Onward(done: seq<nat>, now: seq<nat>, all: seq<nat>, x: seq<nat>, next: seq<nat>, y: seq<nat>)
    requires done + now == all && x + next == now + y
    ensures (done + x) + next == all + y
  {
    assert (done + x) + next == done + (x + next) == done + (now + y) == (done + now) + y;
  }

  // ---------------------------------------------------------------- unique services stay pinned

  /** Somebody has unpinned the service in order to destroy it. */
  ghost predicate BeingUnpinned(s: State, id: nat) {
    exists op :: op in s.destroys && s.destroys[op] == Unpinned(id)
  }

  /** A worker found for a service to be destroyed is the one it went to. */
  ghost predicate GoodMatches(s: State) {
    forall op :: op in s.destroys && s.destroys[op].Matched? ==>
      && s.destroys[op].id in s.home && s.home[s.destroys[op].id] == s.destroys[op].worker
  }

  ghost predicate PinnedAt(s: State, id: nat) {
    id in s.home && 0 < s.home[id] <= |s.workers| && s.workers[s.home[id] - 1].pinned == id
  }

  ghost predicate UniqueServed(s: State) {
    && GoodMatches(s)
    && forall id :: id in s.services && id in s.handed && id in s.unique ==> PinnedAt(s, id) || BeingUnpinned(s, id)
  }

  lemma HomesOf(s: State)
    requires Inv(s)
    ensures forall id :: id in s.home ==> 0 < id < s.nextId && 0 < s.home[id] <= |s.workers|
    ensures forall id, id2 :: id in s.home && id2 in s.home && id != id2 ==> s.home[id] != s.home[id2]
    ensures forall i :: 0 <= i < |s.workers| && s.workers[i].pinned != 0 ==>
              s.workers[i].pinned in s.home && s.home[s.workers[i].pinned] == i + 1
    ensures forall op :: op in s.destroys && !s.destroys[op].Wanted? ==> s.destroys[op].id in s.home
    ensures forall id :: id in s.unique || id in s.handed ==> id in s.home
    ensures s.nextId !in s.home
  {
    hide GoodTokens, GoodWaiting, GoodCreate;
  }

  lemma MatchesStep(s: State, e: Event)
    requires Inv(s) && Enabled(s, e) && GoodMatches(s)
    ensures GoodMatches(Apply(s, e))
  {
    hide Inv;
    HomesOf(s);
  }

  /** Only hand-overs and unpinnings write to `mService`, and each writes to the worker its own service went to. */
  lemma PinnedStep(s: State, e: Event, id: nat)
    requires Inv(s) && Enabled(s, e) && GoodMatches(s) && id in s.home && PinnedAt(s, id)
    ensures PinnedAt(Apply(s, e), id) || BeingUnpinned(Apply(s, e), id)
  {
    hide Inv, IsServiceWorker;
    HomesOf(s);
    if e.HandOver? {
      CreateAt(s, e.op);
    }
    if e.ClearPin? && s.destroys[e.op].worker == s.home[id] {
      assert s.destroys[e.op].id == id;
      assert Apply(s, e).destroys[e.op] == Unpinned(id);
    }
  }

  lemma UnpinnedStep(s: State, e: Event, id: nat)
    requires Inv(s) && Enabled(s, e) && BeingUnpinned(s, id) && id in Apply(s, e).services
    ensures BeingUnpinned(Apply(s, e), id)
  {
    hide IsServiceWorker, Inv, Apply, Enabled;
    var op :| op in s.destroys && s.destroys[op] == Unpinned(id);
    if !Destroying(e) {
      OthersKeep(s, e);
    } else if e == Erase(op) {
      ErasedGone(s, op);
    } else {
      UnpinnedKept(s, e, op);
    }
    assert op in Apply(s, e).destroys && Apply(s, e).destroys[op] == Unpinned(id);
  }

  predicate Destroying(e: Event) {
    e.DestroyService? || e.FindService? || e.FindWorker? || e.ClearPin? || e.Erase? || e.Bury?
  }

  lemma OthersKeep(s: State, e: Event)
    requires Enabled(s, e) && !Destroying(e)
    ensures Apply(s, e).destroys == s.destroys
  {
    hide IsServiceWorker;
  }

  lemma ErasedGone(s: State, op: nat)
    requires Enabled(s, Erase(op))
    ensures s.destroys[op].id !in Apply(s, Erase(op)).services
  {
    hide IsServiceWorker;
  }

  lemma UnpinnedKept(s: State, e: Event, op: nat)
    requires Enabled(s, e) && Destroying(e) && op in s.destroys && s.destroys[op].Unpinned? && e != Erase(op)
    ensures op in Apply(s, e).destroys && Apply(s, e).destroys[op] == s.destroys[op]
  {
    hide IsServiceWorker;
  }

  /** A service that is new to the rotation has just been pinned. */
  lemma NewlyServed(s: State, e: Event, id: nat)
    requires Inv(s) && Enabled(s, e)
    requires var s' := Apply(s, e); id in s'.services && id in s'.handed && id in s'.unique
    requires !(id in s.services && id in s.handed && id in s.unique)
    ensures PinnedAt(Apply(s, e), id)
  {
    hide Inv, IsServiceWorker;
    HomesOf(s);
    if e.HandOver? {
      CreateAt(s, e.op);
    } else {
      if e.Store? {
        CreateAt(s, e.op);
      }
      SetsKept(s, e, id);
    }
  }

  /** Nothing but a hand-over makes a service one that is served. */
  lemma SetsKept(s: State, e: Event, id: nat)
    requires Enabled(s, e) && !e.HandOver? && s.nextId !in s.handed
    requires e.Store? ==> s.creates[e.op].id !in s.handed
    ensures var s' := Apply(s, e);
            id in s'.services && id in s'.handed && id in s'.unique ==>
              id in s.services && id in s.handed && id in s.unique
  {
    hide IsServiceWorker;
  }

  lemma UniqueStep(s: State, e: Event)
    requires Inv(s) && Enabled(s, e) && UniqueServed(s)
    ensures UniqueServed(Apply(s, e))
  {
    hide Inv;
    HomesOf(s);
    MatchesStep(s, e);
    var s' := Apply(s, e);
    hide Enabled, Apply, PinnedAt, BeingUnpinned, GoodMatches;
    forall id | id in s'.services && id in s'.handed && id in s'.unique
      ensures PinnedAt(s', id) || BeingUnpinned(s', id)
    {
      if !(id in s.services && id in s.handed && id in s.unique) {
        NewlyServed(s, e, id);
      } else if PinnedAt(s, id) {
        PinnedStep(s, e, id);
      } else {
        UnpinnedStep(s, e, id);
      }
    }
  }

  lemma {:induction false} RunUnique(n: nat, states: seq<State>, events: seq<Event>, i: nat)
    requires IsRun(n, states, events) && i < |states|
    ensures UniqueServed(states[i])
    decreases i
  {
    if i > 0 {
      hide Inv, Enabled, Apply, UniqueServed;
      RunUnique(n, states, events, i - 1);
      RunKeeps(n, states, events, i - 1);
      UniqueStep(states[i - 1], events[i - 1]);
    }
  }

  /**
   A unique service that was handed over and is still in the map is pinned to the worker it took, and to no other, until
   somebody has unpinned it in order to destroy it.
   */
  lemma UniquePinned(n: nat, states: seq<State>, events: seq<Event>, i: nat, id: nat)
    requires IsRun(n, states, events) && i < |states|
    requires id in states[i].services && id in states[i].handed && id in states[i].unique
    requires !BeingUnpinned(states[i], id)
    ensures PinnedAt(states[i], id)
    ensures forall w :: 0 <= w < |states[i].workers| && states[i].workers[w].pinned == id ==>
              w == states[i].home[id] - 1
  {
    RunUnique(n, states, events, i);
    RunKeeps(n, states, events, i);
    HomesOf(states[i]);
    hide Inv, IsRun, BeingUnpinned;
  }

  // ---------------------------------------------------------------- one thread at a time

  /** The steps of one round of worker `w` on its own. */
  ghost function RoundEvents(s: State, w: nat): seq<Event>
    requires w < |s.workers|
  {
    if s.workers[w].pinned != 0 then [ReadService(w), EndPoll(w)]
    else if s.freeServices == [] then [ReadService(w), TakeFree(w)]
    else if s.freeServices[0] !in s.services then [ReadService(w), TakeFree(w), GetService(w)]
    else [ReadService(w), TakeFree(w), GetService(w), EndPoll(w), PushFree(w)]
  }

  /** The steps can be taken one after another, and lead from `s` to `s'`. */
  ghost predicate Leads(s: State, events: seq<Event>, s': State)
    decreases |events|
  {
    if events == [] then s' == s
    else Enabled(s, events[0]) && Leads(Apply(s, events[0]), events[1..], s')
  }

  /** Which service is polled before the last step but one, 0 for none. */
  ghost function PollsIn(s: State, w: nat): nat
    requires w < |s.workers|
  {
    if s.workers[w].pinned != 0 then s.workers[w].pinned
    else if s.freeServices != [] && s.freeServices[0] in s.services then s.freeServices[0]
    else 0
  }

  lemma LeadsNone(s: State)
    ensures Leads(s, [], s)
  {
  }

  lemma LeadsOne(s: State, e: Event, rest: seq<Event>, s': State)
    requires Enabled(s, e) && Leads(Apply(s, e), rest, s')
    ensures Leads(s, [e] + rest, s')
  {
    assert ([e] + rest)[1..] == rest;
  }

  /**
   A round of a worker that nobody interferes with is the round of ServiceMgr.RunOnce: it ends at the top of the loop
   having polled the same service and left the same queue, and changes nothing else.
   */
  lemma RoundAlone(s: State, w: nat)
    requires w < |s.workers| && s.workers[w].pc == Top && s.lock.None?
    ensures var q := if s.workers[w].pinned != 0 then s.freeServices else ServiceMgr.Turn(s.services, s.freeServices).1;
            Leads(s, RoundEvents(s, w), s.(freeServices := q))
    ensures s.workers[w].pinned == 0 ==> PollsIn(s, w) == ServiceMgr.Turn(s.services, s.freeServices).0
  {
    var q := if s.workers[w].pinned != 0 then s.freeServices else ServiceMgr.Turn(s.services, s.freeServices).1;
    hide Leads;
    var end, none: seq<Event> := s.(freeServices := q), [];
    LeadsNone(end);
    var s1 := Apply(s, ReadService(w));
    if s.workers[w].pinned != 0 {
      var s2 := Apply(s1, EndPoll(w));
      assert s2.workers == s.workers;
      LeadsOne(s1, EndPoll(w), none, end);
      LeadsOne(s, ReadService(w), [EndPoll(w)] + none, end);
      assert [ReadService(w)] + ([EndPoll(w)] + none) == RoundEvents(s, w);
    } else {
      FreeRound(s, w, s1);
    }
  }

  lemma FreeRound(s: State, w: nat, s1: State)
    requires w < |s.workers| && s.workers[w] == Worker(0, Top) && s.lock.None? && s1 == Apply(s, ReadService(w))
    ensures Leads(s, RoundEvents(s, w), s.(freeServices := ServiceMgr.Turn(s.services, s.freeServices).1))
  {
    hide Leads;
    var end, none: seq<Event> := s.(freeServices := ServiceMgr.Turn(s.services, s.freeServices).1), [];
    LeadsNone(end);
    var s2 := Apply(s1, TakeFree(w));
    if s.freeServices == [] {
      assert s2.workers == s.workers;
      LeadsOne(s1, TakeFree(w), none, end);
      LeadsOne(s, ReadService(w), [TakeFree(w)] + none, end);
      assert [ReadService(w)] + ([TakeFree(w)] + none) == RoundEvents(s, w);
    } else {
      FoundRound(s, w, s1, s2);
    }
  }

  /** The worker has taken the front of the queue. */
  lemma FoundRound(s: State, w: nat, s1: State, s2: State)
    requires w < |s.workers| && s.workers[w] == Worker(0, Top) && s.lock.None? && s.freeServices != []
    requires s1 == Apply(s, ReadService(w)) && Enabled(s1, TakeFree(w)) && s2 == Apply(s1, TakeFree(w))
    ensures Leads(s, RoundEvents(s, w), s.(freeServices := ServiceMgr.Turn(s.services, s.freeServices).1))
  {
    hide Leads;
    var end, none: seq<Event> := s.(freeServices := ServiceMgr.Turn(s.services, s.freeServices).1), [];
    LeadsNone(end);
    var s3 := Apply(s2, GetService(w));
    if s.freeServices[0] !in s.services {
      assert s3.workers == s.workers;
      LeadsOne(s2, GetService(w), none, end);
      LeadsOne(s1, TakeFree(w), [GetService(w)] + none, end);
      LeadsOne(s, ReadService(w), [TakeFree(w)] + ([GetService(w)] + none), end);
      assert [ReadService(w)] + ([TakeFree(w)] + ([GetService(w)] + none)) == RoundEvents(s, w);
    } else {
      PolledRound(s3, w, end);
      var more := [EndPoll(w), PushFree(w)];
      LeadsOne(s2, GetService(w), more, end);
      LeadsOne(s1, TakeFree(w), [GetService(w)] + more, end);
      LeadsOne(s, ReadService(w), [TakeFree(w)] + ([GetService(w)] + more), end);
      assert [ReadService(w)] + ([TakeFree(w)] + ([GetService(w)] + more)) == RoundEvents(s, w);
    }
  }

  /** The poll and what follows it. */
  lemma PolledRound(s: State, w: nat, end: State)
    requires w < |s.workers| && s.workers[w].pc.Polling? && s.workers[w].pc.token
    requires end == s.(workers := s.workers[w := s.workers[w].(pc := Top)],
                       freeServices := s.freeServices + [s.workers[w].pc.id])
    ensures Leads(s, [EndPoll(w), PushFree(w)], end)
  {
    hide Leads;
    var none: seq<Event> := [];
    var s1 := Apply(s, EndPoll(w));
    LeadsNone(end);
    LeadsOne(s1, PushFree(w), none, end);
    LeadsOne(s, EndPoll(w), [PushFree(w)] + none, end);
    assert [EndPoll(w)] + ([PushFree(w)] + none) == [EndPoll(w), PushFree(w)];
  }

  lemma LeadsLast(s: State, e: Event)
    requires Enabled(s, e)
    ensures Leads(s, [e], Apply(s, e))
  {
    hide Apply, Enabled;
    assert [e][1..] == [];
  }

  lemma {:induction false} LeadsJoin(s: State, a: seq<Event>, t: State, b: seq<Event>, u: State)
    requires Leads(s, a, t) && Leads(t, b, u)
    ensures Leads(s, a + b, u)
    decreases |a|
  {
    hide Apply, Enabled;
    if a == [] {
      assert a + b == b;
    } else {
      assert (a + b)[1..] == a[1..] + b;
      LeadsJoin(Apply(s, a[0]), a[1..], t, b, u);
    }
  }

  lemma LeadsTwo(s: State, e: Event, f: Event)
    requires Enabled(s, e) && Enabled(Apply(s, e), f)
    ensures Leads(s, [e, f], Apply(Apply(s, e), f))
  {
    hide Apply, Enabled;
    LeadsLast(s, e);
    LeadsLast(Apply(s, e), f);
    LeadsJoin(s, [e], Apply(s, e), [f], Apply(Apply(s, e), f));
    assert [e] + [f] == [e, f];
  }

  /** newService up to its id: `t` is the state in which the service is built. */
  lemma Building(s: State, op: nat, isUnique: bool, worker: nat, t: State)
    requires op !in s.creates && worker in s.freeWorkers && forall v :: v in s.freeWorkers ==> worker <= v
    requires t == s.(freeWorkers := s.freeWorkers - {worker}, nextId := s.nextId + 1,
                     creates := s.creates[op := Built(worker, s.nextId, isUnique)],
                     home := s.home[s.nextId := worker], stage := s.stage[s.nextId := Stage.Building],
                     unique := if isUnique then s.unique + {s.nextId} else s.unique)
    ensures Leads(s, [NewService(op, isUnique), UseWorker(op, worker)] + [TakeId(op)], t)
  {
    hide Leads, IsServiceWorker;
    var s2 := Apply(Apply(s, NewService(op, isUnique)), UseWorker(op, worker));
    LeadsTwo(s, NewService(op, isUnique), UseWorker(op, worker));
    LeadsLast(s2, TakeId(op));
    assert Apply(s2, TakeId(op)) == t;
    LeadsJoin(s, [NewService(op, isUnique), UseWorker(op, worker)], s2, [TakeId(op)], t);
  }

  /** The rest of it. */
  lemma Publishing(s: State, op: nat, t: State)
    requires op in s.creates && s.creates[op].Built? && s.lock.None? && 0 < s.creates[op].worker <= |s.workers|
    requires var c := s.creates[op];
             t == s.(services := s.services + {c.id}, stage := s.stage[c.id := Live], handed := s.handed + {c.id},
                     creates := s.creates - {op},
                     workers := if c.unique then s.workers[c.worker - 1 := s.workers[c.worker - 1].(pinned := c.id)]
                                else s.workers,
                     freeServices := if c.unique then s.freeServices else s.freeServices + [c.id])
    ensures Leads(s, [Store(op), HandOver(op)], t)
  {
    hide Leads, IsServiceWorker;
    var c, s1 := s.creates[op], Apply(s, Store(op));
    LeadsTwo(s, Store(op), HandOver(op));
    assert s1.creates - {op} == s.creates - {op};
  }

  /**
   newService on its own, which finds `worker` the least free one: the least free worker and an id are used up, the
   service is in the map, and its worker is pinned to it or its id is at the end of the queue.
   */
  lemma CreateAlone(s: State, op: nat, isUnique: bool, worker: nat)
    requires op !in s.creates && s.lock.None? && 0 < worker <= |s.workers|
    requires worker in s.freeWorkers && forall v :: v in s.freeWorkers ==> worker <= v
    ensures var id := s.nextId;
            var s' := s.(freeWorkers := s.freeWorkers - {worker}, nextId := id + 1, services := s.services + {id},
                         home := s.home[id := worker], stage := s.stage[id := Live],
                         unique := if isUnique then s.unique + {id} else s.unique, handed := s.handed + {id},
                         workers := if isUnique then s.workers[worker - 1 := s.workers[worker - 1].(pinned := id)]
                                    else s.workers,
                         freeServices := if isUnique then s.freeServices else s.freeServices + [id]);
            Leads(s, ([NewService(op, isUnique), UseWorker(op, worker)] + [TakeId(op)]) + [Store(op), HandOver(op)], s')
  {
    hide Leads;
    var id := s.nextId;
    var t := s.(freeWorkers := s.freeWorkers - {worker}, nextId := id + 1,
                creates := s.creates[op := Built(worker, id, isUnique)],
                home := s.home[id := worker], stage := s.stage[id := Stage.Building],
                unique := if isUnique then s.unique + {id} else s.unique);
    var u := t.(services := t.services + {id}, stage := t.stage[id := Live], handed := t.handed + {id},
                creates := t.creates - {op},
                workers := if isUnique then t.workers[worker - 1 := t.workers[worker - 1].(pinned := id)]
                           else t.workers,
                freeServices := if isUnique then t.freeServices else t.freeServices + [id]);
    Building(s, op, isUnique, worker, t);
    Publishing(t, op, u);
    LeadsJoin(s, [NewService(op, isUnique), UseWorker(op, worker)] + [TakeId(op)], t, [Store(op), HandOver(op)], u);
    assert t.creates - {op} == s.creates && t.stage[id := Live] == s.stage[id := Live];
  }

  /** destoryService up to the unpinning: `t` is the state in which no worker is pinned to the service. */
  lemma Unpinning(s: State, op: nat, id: nat, worker: nat, t: State)
    requires op in s.destroys && s.destroys[op] == Wanted(id) && s.lock.None? && id in s.services
    requires IsServiceWorker(s, id, worker)
    requires t == s.(destroys := s.destroys[op := Unpinned(id)], lock := Some(op),
                     workers := if worker == 0 then s.workers
                                else s.workers[worker - 1 := s.workers[worker - 1].(pinned := 0)])
    ensures Leads(s, [FindService(op), FindWorker(op, worker)] + if worker == 0 then [] else [ClearPin(op)], t)
  {
    hide Leads, IsServiceWorker;
    var s1 := Apply(s, FindService(op));
    SameWorkers(s, s1, id, worker);
    var s2 := Apply(s1, FindWorker(op, worker));
    LeadsTwo(s, FindService(op), FindWorker(op, worker));
    if worker == 0 {
      assert s2 == t;
      LeadsNone(t);
      LeadsJoin(s, [FindService(op), FindWorker(op, worker)], t, [], t);
    } else {
      WorkerBound(s, id, worker);
      LeadsLast(s2, ClearPin(op));
      assert Apply(s2, ClearPin(op)) == t;
      LeadsJoin(s, [FindService(op), FindWorker(op, worker)], s2, [ClearPin(op)], t);
    }
  }

  lemma Burying(s: State, op: nat, t: State)
    requires op in s.destroys && s.destroys[op].Unpinned?
    requires var id := s.destroys[op].id;
             t == s.(services := s.services - {id}, preDestroy := s.preDestroy + [id], stage := s.stage[id := Buried],
                     destroys := s.destroys - {op}, lock := None)
    ensures Leads(s, [Erase(op), Bury(op)], t)
  {
    hide Leads, IsServiceWorker;
    var id, s1 := s.destroys[op].id, Apply(s, Erase(op));
    LeadsTwo(s, Erase(op), Bury(op));
    assert s1.destroys - {op} == s.destroys - {op} && s1.stage[id := Buried] == s.stage[id := Buried];
  }

  /** destoryService of an unknown id does nothing. */
  lemma DestroyNothing(s: State, op: nat, id: nat)
    requires op !in s.destroys && s.lock.None? && id !in s.services
    ensures Leads(s, [DestroyService(op, id), FindService(op)], s)
  {
    hide Leads, IsServiceWorker;
    LeadsTwo(s, DestroyService(op, id), FindService(op));
    assert s.destroys[op := Wanted(id)] - {op} == s.destroys;
  }

  /**
   destoryService on its own: the service is unpinned from the first worker that has it, leaves the map and is put on
   the stack, and nothing else changes.
   */
  lemma DestroyAlone(s: State, op: nat, id: nat, worker: nat)
    requires op !in s.destroys && s.lock.None? && id in s.services && IsServiceWorker(s, id, worker)
    ensures var s' := s.(services := s.services - {id}, preDestroy := s.preDestroy + [id],
                         stage := s.stage[id := Buried],
                         workers := if worker == 0 then s.workers
                                    else s.workers[worker - 1 := s.workers[worker - 1].(pinned := 0)]);
            var find := [FindService(op), FindWorker(op, worker)] + if worker == 0 then [] else [ClearPin(op)];
            Leads(s, [DestroyService(op, id)] + (find + [Erase(op), Bury(op)]), s')
  {
    hide Leads, IsServiceWorker;
    var s1 := Apply(s, DestroyService(op, id));
    var find := [FindService(op), FindWorker(op, worker)] + if worker == 0 then [] else [ClearPin(op)];
    SameWorkers(s, s1, id, worker);
    if worker != 0 {
      WorkerBound(s, id, worker);
    }
    var t := s1.(destroys := s1.destroys[op := Unpinned(id)], lock := Some(op),
                 workers := if worker == 0 then s1.workers
                            else s1.workers[worker - 1 := s1.workers[worker - 1].(pinned := 0)]);
    var u := t.(services := t.services - {id}, preDestroy := t.preDestroy + [id], stage := t.stage[id := Buried],
                destroys := t.destroys - {op}, lock := None);
    Unpinning(s1, op, id, worker, t);
    Burying(t, op, u);
    LeadsJoin(s1, find, t, [Erase(op), Bury(op)], u);
    LeadsOne(s, DestroyService(op, id), find + [Erase(op), Bury(op)], u);
    assert t.destroys - {op} == s.destroys;
  }

  /** poll deletes exactly the services on the stack, and leaves it empty. */
  lemma ReapDeletes(s: State, id: nat)
    requires Inv(s)
    ensures var s' := Apply(s, Reap);
            && s'.preDestroy == [] && (id in s'.deleted <==> id in s.deleted || id in s.preDestroy)
            && (id in s.stage ==>
                  id in s'.stage && s'.stage[id] == if s.stage[id] == Buried then Deleted else s.stage[id])
            && s'.services == s.services && s'.workers == s.workers && s'.freeServices == s.freeServices
  {
    hide GoodTokens, GoodPins, GoodHomes, GoodWaiting, GoodCreates, GoodDestroys;
  }

  lemma SameWorkers(s: State, s': State, id: nat, worker: nat)
    requires IsServiceWorker(s, id, worker) && s'.workers == s.workers
    ensures IsServiceWorker(s', id, worker)
  {
  }

  lemma WorkerBound(s: State, id: nat, worker: nat)
    requires IsServiceWorker(s, id, worker) && worker != 0
    ensures worker <= |s.workers|
  {
  }
}
