/**
 The actor scheduler as an interleaved step system (src/worker/worker.cpp, src/worker/workerMgr.cpp,
 src/service/serviceMgr.cpp). A step is one critical section or one access to an unlocked field; the ids handed out
 by `mAutoId++`, the push at the end of newService and every access to `mService` are single steps.
 A service object is identified with its id, and 0 is the null pointer. Any thread may create or destroy services.
 */
module Scheduler {
  import opened Basics

  /** Where a worker thread is in its loop. `token` says whether the id must go back to the free queue. */
  datatype Pc = Top | NeedFree | Lookup(id: nat) | Polling(id: nat, token: bool) | PushBack(id: nat)

  datatype Worker = Worker(pinned: nat, pc: Pc)

  /** A call of newService: it takes a worker, an id, enters the map and hands the service over. */
  datatype Create =
    | Start(unique: bool)
    | HasWorker(worker: nat, unique: bool)
    | Built(worker: nat, id: nat, unique: bool)
    | Stored(worker: nat, id: nat, unique: bool)

  /** A call of destoryService; from Locked on it holds the service lock. */
  datatype Destroy =
    | Wanted(id: nat)
    | Locked(id: nat)
    | Matched(id: nat, worker: nat)
    | Unpinned(id: nat)
    | Erased(id: nat)

  /** The life of a service object. */
  datatype Stage = Building | Live | Dying | Buried | Deleted

  /**
   The last four fields record history: the worker each created service took, the stage of its life, which services
   are unique, and which have been handed over to a worker or to the free queue.
   */
  datatype State = State(
    workers: seq<Worker>,
    freeWorkers: set<nat>,
    nextId: nat,
    services: set<nat>,
    freeServices: seq<nat>,
    preDestroy: seq<nat>,
    deleted: set<nat>,
    creates: map<nat, Create>,
    destroys: map<nat, Destroy>,
    lock: Option<nat>,
    home: map<nat, nat>,
    stage: map<nat, Stage>,
    unique: set<nat>,
    handed: set<nat>)

  datatype Event =
    | ReadService(w: nat)
    | TakeFree(w: nat)
    | GetService(w: nat)
    | EndPoll(w: nat)
    | PushFree(w: nat)
    | NewService(op: nat, isUnique: bool)
    | UseWorker(op: nat, worker: nat)
    | TakeId(op: nat)
    | Store(op: nat)
    | HandOver(op: nat)
    | DestroyService(op: nat, id: nat)
    | FindService(op: nat)
    | FindWorker(op: nat, worker: nat)
    | ClearPin(op: nat)
    | Erase(op: nat)
    | Bury(op: nat)
    | Reap

  // ---------------------------------------------------------------- steps

  ghost predicate AtPc(s: State, w: nat) {
    w < |s.workers|
  }

  /** The first worker whose `mService` is `id`, numbered from 1, or 0. */
  ghost predicate IsServiceWorker(s: State, id: nat, worker: nat) {
    if worker == 0 then forall i :: 0 <= i < |s.workers| ==> s.workers[i].pinned != id
    else
      && worker <= |s.workers| && s.workers[worker - 1].pinned == id
      && forall i :: 0 <= i < worker - 1 ==> s.workers[i].pinned != id
  }

  ghost predicate Enabled(s: State, e: Event) {
    match e
    case ReadService(w) => AtPc(s, w) && s.workers[w].pc.Top?
    case TakeFree(w) => AtPc(s, w) && s.workers[w].pc.NeedFree?
    case GetService(w) => AtPc(s, w) && s.workers[w].pc.Lookup? && s.lock.None?
    case EndPoll(w) => AtPc(s, w) && s.workers[w].pc.Polling?
    case PushFree(w) => AtPc(s, w) && s.workers[w].pc.PushBack?
    case NewService(op, _) => op !in s.creates
    case UseWorker(op, worker) =>
      && op in s.creates && s.creates[op].Start?
      && worker in s.freeWorkers && forall v :: v in s.freeWorkers ==> worker <= v
    case TakeId(op) => op in s.creates && s.creates[op].HasWorker?
    case Store(op) => op in s.creates && s.creates[op].Built? && s.lock.None?
    case HandOver(op) => op in s.creates && s.creates[op].Stored? && 0 < s.creates[op].worker <= |s.workers|
    case DestroyService(op, _) => op !in s.destroys
    case FindService(op) => op in s.destroys && s.destroys[op].Wanted? && s.lock.None?
    case FindWorker(op, worker) =>
      op in s.destroys && s.destroys[op].Locked? && IsServiceWorker(s, s.destroys[op].id, worker)
    case ClearPin(op) => op in s.destroys && s.destroys[op].Matched? && s.destroys[op].worker <= |s.workers|
    case Erase(op) => op in s.destroys && s.destroys[op].Unpinned?
    case Bury(op) => op in s.destroys && s.destroys[op].Erased?
    case Reap => true
  }

  function SetPc(s: State, w: nat, pc: Pc): State
    requires w < |s.workers|
  {
    s.(workers := s.workers[w := s.workers[w].(pc := pc)])
  }

  function Pin(s: State, w: nat, id: nat): State
    requires w < |s.workers|
  {
    s.(workers := s.workers[w := s.workers[w].(pinned := id)])
  }

  ghost function Apply(s: State, e: Event): State
    requires Enabled(s, e)
  {
    match e
    case ReadService(w) =>
      SetPc(s, w, if s.workers[w].pinned != 0 then Polling(s.workers[w].pinned, false) else NeedFree)
    case TakeFree(w) =>
      if s.freeServices == [] then SetPc(s, w, Top)
      else SetPc(s, w, Lookup(s.freeServices[0])).(freeServices := s.freeServices[1..])
    case GetService(w) =>
      SetPc(s, w, if s.workers[w].pc.id in s.services then Polling(s.workers[w].pc.id, true) else Top)
    case EndPoll(w) => SetPc(s, w, if s.workers[w].pc.token then PushBack(s.workers[w].pc.id) else Top)
    case PushFree(w) => SetPc(s, w, Top).(freeServices := s.freeServices + [s.workers[w].pc.id])
    case NewService(op, unique) => s.(creates := s.creates[op := Start(unique)])
    case UseWorker(op, worker) =>
      s.(freeWorkers := s.freeWorkers - {worker}, creates := s.creates[op := HasWorker(worker, s.creates[op].unique)])
    case TakeId(op) =>
      var c := s.creates[op];
      s.(nextId := s.nextId + 1, creates := s.creates[op := Built(c.worker, s.nextId, c.unique)],
         home := s.home[s.nextId := c.worker], stage := s.stage[s.nextId := Building],
         unique := if c.unique then s.unique + {s.nextId} else s.unique)
    case Store(op) =>
      var c := s.creates[op];
      s.(services := s.services + {c.id}, creates := s.creates[op := Stored(c.worker, c.id, c.unique)],
         stage := s.stage[c.id := Live])
    case HandOver(op) =>
      var c, s1 := s.creates[op], s.(creates := s.creates - {op}, handed := s.handed + {s.creates[op].id});
      if c.unique then Pin(s1, c.worker - 1, c.id) else s1.(freeServices := s.freeServices + [c.id])
    case DestroyService(op, id) => s.(destroys := s.destroys[op := Wanted(id)])
    case FindService(op) =>
      var id := s.destroys[op].id;
      if id in s.services then s.(destroys := s.destroys[op := Locked(id)], lock := Some(op))
      else s.(destroys := s.destroys - {op})
    case FindWorker(op, worker) =>
      var id := s.destroys[op].id;
      s.(destroys := s.destroys[op := if worker == 0 then Unpinned(id) else Matched(id, worker)])
    case ClearPin(op) =>
      var d, s1 := s.destroys[op], s.(destroys := s.destroys[op := Unpinned(s.destroys[op].id)]);
      if d.worker == 0 then s1 else Pin(s1, d.worker - 1, 0)
    case Erase(op) =>
      var id := s.destroys[op].id;
      s.(services := s.services - {id}, destroys := s.destroys[op := Erased(id)], stage := s.stage[id := Dying])
    case Bury(op) =>
      s.(preDestroy := s.preDestroy + [s.destroys[op].id], destroys := s.destroys - {op}, lock := None,
         stage := s.stage[s.destroys[op].id := Buried])
    case Reap =>
      s.(deleted := s.deleted + Elems(s.preDestroy), preDestroy := [],
         stage := map id | id in s.stage :: if id in s.preDestroy then Deleted else s.stage[id])
  }

  // ---------------------------------------------------------------- tokens

  /** 1 if the worker has taken free id `id` and neither pushed it back nor dropped it. */
  function Holds(w: Worker, id: nat): nat {
    match w.pc
    case Lookup(i) => if i == id then 1 else 0
    case Polling(i, token) => if token && i == id then 1 else 0
    case PushBack(i) => if i == id then 1 else 0
    case _ => 0
  }

  function Holders(ws: seq<Worker>, id: nat): nat {
    if ws == [] then 0 else Holds(ws[0], id) + Holders(ws[1..], id)
  }

  function Count(q: seq<nat>, id: nat): nat {
    if q == [] then 0 else (if q[0] == id then 1 else 0) + Count(q[1..], id)
  }

  /** Occurrences of an id: in the free queue and in the hands of workers. */
  function Tokens(s: State, id: nat): nat {
    Count(s.freeServices, id) + Holders(s.workers, id)
  }

  lemma {:induction false} HoldersUpdate(ws: seq<Worker>, i: nat, w: Worker, id: nat)
    requires i < |ws|
    ensures Holders(ws[i := w], id) + Holds(ws[i], id) == Holders(ws, id) + Holds(w, id)
    decreases |ws|
  {
    if i > 0 {
      assert ws[i := w][1..] == ws[1..][i - 1 := w];
      HoldersUpdate(ws[1..], i - 1, w, id);
    } else {
      assert ws[i := w][1..] == ws[1..];
    }
  }

  lemma {:induction false} HoldersTwo(ws: seq<Worker>, i: nat, j: nat, id: nat)
    requires i < j < |ws|
    ensures Holds(ws[i], id) + Holds(ws[j], id) <= Holders(ws, id)
    decreases |ws|
  {
    if i > 0 {
      HoldersTwo(ws[1..], i - 1, j - 1, id);
    } else {
      HoldersOne(ws[1..], j - 1, id);
    }
  }

  lemma {:induction false} HoldersOne(ws: seq<Worker>, i: nat, id: nat)
    requires i < |ws|
    ensures Holds(ws[i], id) <= Holders(ws, id)
    decreases |ws|
  {
    if i > 0 {
      HoldersOne(ws[1..], i - 1, id);
    }
  }

  lemma {:induction false} CountAppend(q: seq<nat>, x: nat, id: nat)
    ensures Count(q + [x], id) == Count(q, id) + if x == id then 1 else 0
    decreases |q|
  {
    if q == [] {
      assert q + [x] == [x];
    } else {
      assert (q + [x])[1..] == q[1..] + [x];
      CountAppend(q[1..], x, id);
    }
  }

  lemma {:induction false} CountMember(q: seq<nat>, i: nat)
    requires i < |q|
    ensures Count(q, q[i]) >= 1
    decreases |q|
  {
    if i > 0 {
      CountMember(q[1..], i - 1);
    }
  }

  lemma {:induction false} CountTwo(q: seq<nat>, i: nat, j: nat)
    requires i < j < |q| && q[i] == q[j]
    ensures Count(q, q[i]) >= 2
    decreases |q|
  {
    if i > 0 {
      CountTwo(q[1..], i - 1, j - 1);
    } else {
      CountMember(q[1..], j - 1);
    }
  }

  /** The step adds a token of `id`: a shared service is handed over. */
  ghost predicate Adds(s: State, e: Event, id: nat)
    requires Enabled(s, e)
  {
    e.HandOver? && !s.creates[e.op].unique && s.creates[e.op].id == id
  }

  /** The step drops a token of `id`: a worker finds that the service is gone. */
  ghost predicate Drops(s: State, e: Event, id: nat)
    requires Enabled(s, e)
  {
    e.GetService? && s.workers[e.w].pc.id == id && id !in s.services
  }

  predicate WorkerEvent(e: Event) {
    e.ReadService? || e.TakeFree? || e.GetService? || e.EndPoll? || e.PushFree?
  }

  /** Token conservation: no interleaving loses or duplicates an id. */
  lemma TokenConservation(s: State, e: Event, id: nat)
    requires Enabled(s, e)
    ensures Tokens(Apply(s, e), id) + (if Drops(s, e, id) then 1 else 0)
            == Tokens(s, id) + (if Adds(s, e, id) then 1 else 0)
  {
    hide Holders, Holds, IsServiceWorker;
    if WorkerEvent(e) {
      hide Tokens, Apply;
      WorkerTokens(s, e, id);
    } else if e.HandOver? {
      hide Tokens, Apply;
      HandOverTokens(s, e.op, id);
    } else if e.ClearPin? {
      var w := s.destroys[e.op].worker;
      if w > 0 {
        SamePc(s.workers, w - 1, 0, id);
      }
    } else {
      assert Apply(s, e).workers == s.workers && Apply(s, e).freeServices == s.freeServices;
    }
  }

  lemma WorkerTokens(s: State, e: Event, id: nat)
    requires Enabled(s, e) && WorkerEvent(e)
    ensures Tokens(Apply(s, e), id) + (if Drops(s, e, id) then 1 else 0) == Tokens(s, id)
  {
    hide Holders;
    var s' := Apply(s, e);
    HoldersUpdate(s.workers, e.w, s'.workers[e.w], id);
    if e.PushFree? {
      CountAppend(s.freeServices, s.workers[e.w].pc.id, id);
    }
  }

  lemma SamePc(ws: seq<Worker>, i: nat, pinned: nat, id: nat)
    requires i < |ws|
    ensures Holders(ws[i := ws[i].(pinned := pinned)], id) == Holders(ws, id)
  {
    HoldersUpdate(ws, i, ws[i].(pinned := pinned), id);
  }

  lemma HandOverTokens(s: State, op: nat, id: nat)
    requires Enabled(s, HandOver(op))
    ensures Tokens(Apply(s, HandOver(op)), id) == Tokens(s, id) + (if Adds(s, HandOver(op), id) then 1 else 0)
  {
    hide Holders;
    var c, s' := s.creates[op], Apply(s, HandOver(op));
    if c.unique {
      SamePc(s.workers, c.worker - 1, c.id, id);
    } else {
      CountAppend(s.freeServices, c.id, id);
    }
  }

  // ---------------------------------------------------------------- the invariant

  /** Every created id is in exactly one stage of its life, and the containers hold exactly the ids of their stage. */
  ghost predicate Accounted(nextId: nat, stage: map<nat, Stage>, services: set<nat>, preDestroy: seq<nat>,
        deleted: set<nat>) {
    && nextId > 0
    && (forall id: nat :: id in stage <==> 0 < id < nextId)
    && (forall id :: id in services <==> id in stage && stage[id] == Live)
    && (forall id :: id in preDestroy <==> id in stage && stage[id] == Buried)
    && (forall id :: id in deleted <==> id in stage && stage[id] == Deleted)
    && Distinct(preDestroy)
  }

  ghost predicate HasId(c: Create) {
    c.Built? || c.Stored?
  }

  /** What a creation that has its id says about itself. */
  ghost predicate GoodCreate(c: Create, home: map<nat, nat>, stage: map<nat, Stage>, unique: set<nat>,
        handed: set<nat>) {
    HasId(c) ==>
      && c.id in home && home[c.id] == c.worker && (c.unique <==> c.id in unique)
      && c.id in stage && c.id !in handed && (c.Built? ==> stage[c.id] == Building)
  }

  ghost predicate GoodCreates(creates: map<nat, Create>, home: map<nat, nat>, stage: map<nat, Stage>,
        unique: set<nat>, handed: set<nat>) {
    && (forall op :: op in creates ==> GoodCreate(creates[op], home, stage, unique, handed))
    && (forall op, op2 :: op in creates && op2 in creates && op != op2 && HasId(creates[op]) && HasId(creates[op2]) ==>
          creates[op].id != creates[op2].id)
  }

  /** Only the holder of the service lock is inside destoryService, and what it destroys is as far as it thinks. */
  ghost predicate GoodDestroys(destroys: map<nat, Destroy>, lock: Option<nat>, stage: map<nat, Stage>) {
    forall op :: op in destroys && !destroys[op].Wanted? ==>
      && lock == Some(op)
      && destroys[op].id in stage && stage[destroys[op].id] == if destroys[op].Erased? then Dying else Live
  }

  /** Every worker ever given away went to one service. */
  ghost predicate GoodHomes(n: nat, nextId: nat, home: map<nat, nat>, freeWorkers: set<nat>) {
    && (forall id: nat :: id in home <==> 0 < id < nextId)
    && (forall id :: id in home ==> 0 < home[id] <= n && home[id] !in freeWorkers)
    && (forall id, id2 :: id in home && id2 in home && id != id2 ==> home[id] != home[id2])
    && (forall w :: w in freeWorkers ==> 0 < w <= n)
  }

  /** So does every worker on its way to one. */
  ghost predicate GoodWaiting(n: nat, creates: map<nat, Create>, home: map<nat, nat>, freeWorkers: set<nat>) {
    && (forall op :: op in creates && creates[op].HasWorker? ==>
          0 < creates[op].worker <= n && creates[op].worker !in freeWorkers
          && forall id :: id in home ==> home[id] != creates[op].worker)
    && (forall op, op2 ::
          op in creates && op2 in creates && op != op2 && creates[op].HasWorker? && creates[op2].HasWorker? ==>
          creates[op].worker != creates[op2].worker)
  }

  ghost predicate AtHome(id: nat, worker: nat, home: map<nat, nat>, unique: set<nat>) {
    id in unique && id in home && home[id] == worker
  }

  /** A pinned service, or one polled because it is pinned, is unique and at home on that worker. */
  ghost predicate GoodPins(workers: seq<Worker>, home: map<nat, nat>, unique: set<nat>) {
    forall i :: 0 <= i < |workers| ==>
      && (workers[i].pinned != 0 ==> AtHome(workers[i].pinned, i + 1, home, unique))
      && (workers[i].pc.Polling? && !workers[i].pc.token ==> AtHome(workers[i].pc.id, i + 1, home, unique))
  }

  /** At most one token per id, none unless the service is shared and handed over, exactly one while it lives. */
  ghost predicate GoodTokens(s: State) {
    forall id: nat ::
      && Tokens(s, id) <= 1
      && (Tokens(s, id) > 0 ==> id in s.handed && id !in s.unique)
      && (id in s.services && id in s.handed && id !in s.unique ==> Tokens(s, id) == 1)
  }

  ghost predicate Inv(s: State) {
    && Accounted(s.nextId, s.stage, s.services, s.preDestroy, s.deleted)
    && GoodCreates(s.creates, s.home, s.stage, s.unique, s.handed)
    && GoodDestroys(s.destroys, s.lock, s.stage)
    && GoodHomes(|s.workers|, s.nextId, s.home, s.freeWorkers)
    && GoodWaiting(|s.workers|, s.creates, s.home, s.freeWorkers)
    && (forall id :: id in s.unique || id in s.handed ==> id in s.home)
    && GoodPins(s.workers, s.home, s.unique)
    && GoodTokens(s)
  }

  // ---------------------------------------------------------------- every step keeps it

  lemma NotYet(s: State)
    requires Inv(s)
    ensures s.nextId !in s.handed
  {
  }

  /** A shared service is handed over once, and stays handed over; only such services have tokens. */
  lemma SharedMoves(s: State, e: Event, id: nat)
    requires Inv(s) && Enabled(s, e)
    ensures var s' := Apply(s, e);
            && (Adds(s, e, id) ==> id !in s.handed && id in s'.handed && id !in s'.unique)
            && (id in s.handed && id !in s.unique ==> id in s'.handed && id !in s'.unique)
            && (id in s'.services && id in s'.handed && id !in s'.unique ==>
                  Adds(s, e, id) || (id in s.services && id in s.handed && id !in s.unique))
            && (Drops(s, e, id) ==> id !in s'.services)
  {
    hide Inv, IsServiceWorker;
    NotYet(s);
    if e.HandOver? || e.Store? {
      CreateAt(s, e.op);
    }
  }

  lemma TokenKept(s: State, e: Event, id: nat)
    requires Inv(s) && Enabled(s, e)
    ensures var s' := Apply(s, e);
            && Tokens(s', id) <= 1 && (Tokens(s', id) > 0 ==> id in s'.handed && id !in s'.unique)
            && (id in s'.services && id in s'.handed && id !in s'.unique ==> Tokens(s', id) == 1)
  {
    assert GoodTokens(s);
    hide Inv, Enabled, Apply, Tokens, Adds, Drops;
    SharedMoves(s, e, id);
    TokenConservation(s, e, id);
  }

  lemma TokensKept(s: State, e: Event)
    requires Inv(s) && Enabled(s, e)
    ensures GoodTokens(Apply(s, e))
  {
    hide Tokens, Inv, Enabled, Apply;
    forall id: nat
      ensures var s' := Apply(s, e);
              && Tokens(s', id) <= 1 && (Tokens(s', id) > 0 ==> id in s'.handed && id !in s'.unique)
              && (id in s'.services && id in s'.handed && id !in s'.unique ==> Tokens(s', id) == 1)
    {
      TokenKept(s, e, id);
    }
  }

  lemma PinsUpdate(workers: seq<Worker>, i: nat, w: Worker, home: map<nat, nat>, unique: set<nat>)
    requires GoodPins(workers, home, unique) && i < |workers|
    requires w.pinned != 0 ==> AtHome(w.pinned, i + 1, home, unique)
    requires w.pc.Polling? && !w.pc.token ==> AtHome(w.pc.id, i + 1, home, unique)
    ensures GoodPins(workers[i := w], home, unique)
  {
    hide AtHome;
  }

  lemma PinnedAtHome(workers: seq<Worker>, i: nat, home: map<nat, nat>, unique: set<nat>)
    requires GoodPins(workers, home, unique) && i < |workers|
    ensures workers[i].pinned != 0 ==> AtHome(workers[i].pinned, i + 1, home, unique)
    ensures workers[i].pc.Polling? && !workers[i].pc.token ==> AtHome(workers[i].pc.id, i + 1, home, unique)
  {
  }

  lemma WorkerKeeps(s: State, e: Event)
    requires Inv(s) && Enabled(s, e) && WorkerEvent(e)
    ensures Inv(Apply(s, e))
  {
    hide Accounted, GoodCreates, GoodDestroys, GoodHomes, GoodWaiting, GoodTokens, AtHome, GoodPins;
    TokensKept(s, e);
    PinnedAtHome(s.workers, e.w, s.home, s.unique);
    var s' := Apply(s, e);
    PinsUpdate(s.workers, e.w, s'.workers[e.w], s.home, s.unique);
  }

  lemma WaitingUse(n: nat, creates: map<nat, Create>, home: map<nat, nat>, freeWorkers: set<nat>, op: nat,
        worker: nat, unique: bool)
    requires GoodWaiting(n, creates, home, freeWorkers) && op in creates && creates[op].Start?
    requires worker in freeWorkers && 0 < worker <= n && forall id :: id in home ==> home[id] !in freeWorkers
    ensures GoodWaiting(n, creates[op := HasWorker(worker, unique)], home, freeWorkers - {worker})
  {
  }

  lemma CreatesChange(creates: map<nat, Create>, op: nat, c: Create, home: map<nat, nat>, stage: map<nat, Stage>,
        unique: set<nat>, handed: set<nat>)
    requires GoodCreates(creates, home, stage, unique, handed) && GoodCreate(c, home, stage, unique, handed)
    requires HasId(c) ==> forall op2 :: op2 in creates && op2 != op && HasId(creates[op2]) ==> creates[op2].id != c.id
    ensures GoodCreates(creates[op := c], home, stage, unique, handed)
  {
    hide GoodCreate;
  }

  lemma WaitingChange(n: nat, creates: map<nat, Create>, op: nat, c: Create, home: map<nat, nat>, freeWorkers: set<nat>)
    requires GoodWaiting(n, creates, home, freeWorkers) && !c.HasWorker?
    ensures GoodWaiting(n, creates[op := c], home, freeWorkers) && GoodWaiting(n, creates - {op}, home, freeWorkers)
  {
  }

  lemma UseWorkerKeeps(s: State, op: nat, worker: nat)
    requires Inv(s) && Enabled(s, UseWorker(op, worker))
    ensures Inv(Apply(s, UseWorker(op, worker)))
  {
    hide GoodTokens, GoodPins, Accounted, GoodDestroys, GoodCreates, GoodWaiting;
    TokensKept(s, UseWorker(op, worker));
    var unique := s.creates[op].unique;
    WaitingUse(|s.workers|, s.creates, s.home, s.freeWorkers, op, worker, unique);
    CreatesChange(s.creates, op, HasWorker(worker, unique), s.home, s.stage, s.unique, s.handed);
  }

  /** A new id agrees with everything said about older ones. */
  lemma FreshId(s: State, worker: nat, isUnique: bool)
    requires Inv(s)
    ensures var id := s.nextId;
            var home, stage := s.home[id := worker], s.stage[id := Building];
            var unique := if isUnique then s.unique + {id} else s.unique;
            && GoodCreates(s.creates, home, stage, unique, s.handed)
            && GoodDestroys(s.destroys, s.lock, stage)
            && Accounted(id + 1, stage, s.services, s.preDestroy, s.deleted)
            && GoodCreate(Built(worker, id, isUnique), home, stage, unique, s.handed)
            && forall op :: op in s.creates && HasId(s.creates[op]) ==> s.creates[op].id != id
  {
    hide GoodTokens, GoodPins, GoodWaiting;
    var id := s.nextId;
    assert id !in s.home && id !in s.stage && id !in s.handed && id !in s.unique;
    assert forall op :: op in s.creates ==> GoodCreate(s.creates[op], s.home, s.stage, s.unique, s.handed);
  }

  lemma FreshPins(s: State, worker: nat, isUnique: bool)
    requires GoodPins(s.workers, s.home, s.unique) && s.nextId !in s.home
    ensures GoodPins(s.workers, s.home[s.nextId := worker], if isUnique then s.unique + {s.nextId} else s.unique)
  {
  }

  lemma FreshHome(n: nat, nextId: nat, home: map<nat, nat>, freeWorkers: set<nat>, creates: map<nat, Create>,
        op: nat, c: Create)
    requires GoodHomes(n, nextId, home, freeWorkers) && GoodWaiting(n, creates, home, freeWorkers) && nextId > 0
    requires op in creates && creates[op].HasWorker? && !c.HasWorker?
    ensures var home' := home[nextId := creates[op].worker];
            GoodHomes(n, nextId + 1, home', freeWorkers) && GoodWaiting(n, creates[op := c], home', freeWorkers)
  {
  }

  lemma TakeIdKeeps(s: State, op: nat)
    requires Inv(s) && Enabled(s, TakeId(op))
    ensures Inv(Apply(s, TakeId(op)))
  {
    hide GoodTokens, GoodPins, GoodDestroys, GoodCreates, GoodWaiting, GoodCreate;
    TokensKept(s, TakeId(op));
    var c, s' := s.creates[op], Apply(s, TakeId(op));
    var built := Built(c.worker, s.nextId, c.unique);
    FreshId(s, c.worker, c.unique);
    FreshPins(s, c.worker, c.unique);
    FreshHome(|s.workers|, s.nextId, s.home, s.freeWorkers, s.creates, op, built);
    CreatesChange(s.creates, op, built, s'.home, s'.stage, s'.unique, s.handed);
    hide Accounted, GoodHomes;
  }

  lemma CreateAt(s: State, op: nat)
    requires Inv(s) && op in s.creates
    ensures GoodCreate(s.creates[op], s.home, s.stage, s.unique, s.handed)
    ensures HasId(s.creates[op]) ==>
              forall op2 :: op2 in s.creates && op2 != op && HasId(s.creates[op2]) ==>
                s.creates[op2].id != s.creates[op].id
  {
    hide GoodTokens, GoodPins, GoodDestroys, GoodWaiting, GoodHomes, Accounted, GoodCreate;
  }

  /** A stage may change as long as no creation that only has its id is concerned. */
  lemma StageChange(creates: map<nat, Create>, home: map<nat, nat>, stage: map<nat, Stage>, unique: set<nat>,
        handed: set<nat>, id: nat, to: Stage, op: nat)
    requires GoodCreates(creates, home, stage, unique, handed) && id in stage
    requires forall op2 :: op2 in creates && creates[op2].Built? && creates[op2].id == id ==> op2 == op
    ensures op in creates && creates[op].Built? ==>
              GoodCreates(creates[op := Stored(creates[op].worker, creates[op].id, creates[op].unique)], home,
                stage[id := to], unique, handed)
    ensures !(op in creates && creates[op].Built?) ==> GoodCreates(creates, home, stage[id := to], unique, handed)
  {
    forall op2 | op2 in creates ensures GoodCreate(creates[op2], home, stage, unique, handed) {}
  }

  lemma DestroysStage(destroys: map<nat, Destroy>, lock: Option<nat>, stage: map<nat, Stage>, id: nat, to: Stage)
    requires GoodDestroys(destroys, lock, stage) && lock.None?
    ensures GoodDestroys(destroys, lock, stage[id := to])
  {
  }

  lemma StoreKeeps(s: State, op: nat)
    requires Inv(s) && Enabled(s, Store(op))
    ensures Inv(Apply(s, Store(op)))
  {
    hide GoodTokens, GoodPins, GoodHomes, GoodCreates, GoodWaiting, GoodDestroys;
    TokensKept(s, Store(op));
    var c := s.creates[op];
    CreateAt(s, op);
    WaitingChange(|s.workers|, s.creates, op, Stored(c.worker, c.id, c.unique), s.home, s.freeWorkers);
    StageChange(s.creates, s.home, s.stage, s.unique, s.handed, c.id, Live, op);
    DestroysStage(s.destroys, s.lock, s.stage, c.id, Live);
  }

  lemma CreatesDone(creates: map<nat, Create>, op: nat, home: map<nat, nat>, stage: map<nat, Stage>,
        unique: set<nat>, handed: set<nat>)
    requires GoodCreates(creates, home, stage, unique, handed) && op in creates && HasId(creates[op])
    ensures GoodCreates(creates - {op}, home, stage, unique, handed + {creates[op].id})
  {
    forall op2 | op2 in creates ensures GoodCreate(creates[op2], home, stage, unique, handed) {}
  }

  /** A unique service is pinned to its home; a shared one enters the free queue. */
  lemma HandOverKeeps(s: State, op: nat)
    requires Inv(s) && Enabled(s, HandOver(op))
    ensures Inv(Apply(s, HandOver(op)))
  {
    hide GoodTokens, GoodHomes, Accounted, GoodDestroys, GoodPins, GoodWaiting, GoodCreates;
    TokensKept(s, HandOver(op));
    var c := s.creates[op];
    CreateAt(s, op);
    WaitingChange(|s.workers|, s.creates, op, Start(false), s.home, s.freeWorkers);
    CreatesDone(s.creates, op, s.home, s.stage, s.unique, s.handed);
    PinnedAtHome(s.workers, c.worker - 1, s.home, s.unique);
    if c.unique {
      PinsUpdate(s.workers, c.worker - 1, s.workers[c.worker - 1].(pinned := c.id), s.home, s.unique);
    }
  }

  lemma DestroysChange(destroys: map<nat, Destroy>, lock: Option<nat>, lock': Option<nat>, stage: map<nat, Stage>,
        op: nat, d: Destroy)
    requires GoodDestroys(destroys, lock, stage)
    requires d.Wanted? || (lock' == Some(op) && d.id in stage && stage[d.id] == if d.Erased? then Dying else Live)
    requires lock.None? || lock' == lock
    ensures GoodDestroys(destroys[op := d], lock', stage) && GoodDestroys(destroys - {op}, lock, stage)
  {
  }

  lemma DestroyAt(s: State, op: nat)
    requires Inv(s) && op in s.destroys && !s.destroys[op].Wanted?
    ensures s.lock == Some(op) && s.destroys[op].id in s.stage
    ensures s.stage[s.destroys[op].id] == if s.destroys[op].Erased? then Dying else Live
    ensures forall op2 :: op2 in s.creates && s.creates[op2].Built? ==> s.creates[op2].id != s.destroys[op].id
  {
    hide GoodTokens, GoodHomes, Accounted, GoodPins, GoodWaiting;
    forall op2 | op2 in s.creates ensures GoodCreate(s.creates[op2], s.home, s.stage, s.unique, s.handed) {}
  }

  lemma EnterDestroyKeeps(s: State, e: Event)
    requires Inv(s) && Enabled(s, e) && (e.DestroyService? || e.FindService? || e.FindWorker?)
    ensures Inv(Apply(s, e))
  {
    hide GoodTokens, GoodHomes, GoodCreates, GoodWaiting, GoodPins, IsServiceWorker, GoodDestroys;
    TokensKept(s, e);
    match e
    case DestroyService(op, id) => DestroysChange(s.destroys, s.lock, s.lock, s.stage, op, Wanted(id));
    case FindService(op) =>
      var id := s.destroys[op].id;
      if id in s.services {
        DestroysChange(s.destroys, s.lock, Some(op), s.stage, op, Locked(id));
      } else {
        DestroysChange(s.destroys, s.lock, s.lock, s.stage, op, Wanted(id));
      }
    case FindWorker(op, worker) =>
      DestroyAt(s, op);
      var id := s.destroys[op].id;
      DestroysChange(s.destroys, s.lock, s.lock, s.stage, op,
                     if worker == 0 then Unpinned(id) else Matched(id, worker));
  }

  lemma ClearPinKeeps(s: State, op: nat)
    requires Inv(s) && Enabled(s, ClearPin(op))
    ensures Inv(Apply(s, ClearPin(op)))
  {
    hide GoodTokens, GoodHomes, GoodCreates, GoodWaiting, Accounted, AtHome, GoodPins, GoodDestroys;
    TokensKept(s, ClearPin(op));
    DestroyAt(s, op);
    var d := s.destroys[op];
    DestroysChange(s.destroys, s.lock, s.lock, s.stage, op, Unpinned(d.id));
    if d.worker > 0 {
      PinnedAtHome(s.workers, d.worker - 1, s.home, s.unique);
      PinsUpdate(s.workers, d.worker - 1, s.workers[d.worker - 1].(pinned := 0), s.home, s.unique);
    }
  }

  /** The holder of the lock moves its own service on. */
  lemma DestroysMove(destroys: map<nat, Destroy>, stage: map<nat, Stage>, op: nat, id: nat)
    requires GoodDestroys(destroys, Some(op), stage)
    ensures GoodDestroys(destroys[op := Erased(id)], Some(op), stage[id := Dying])
    ensures GoodDestroys(destroys - {op}, None, stage[id := Buried])
  {
  }

  lemma EraseKeeps(s: State, op: nat)
    requires Inv(s) && Enabled(s, Erase(op))
    ensures Inv(Apply(s, Erase(op)))
  {
    hide GoodTokens, GoodHomes, GoodWaiting, GoodPins, GoodCreates, GoodDestroys;
    TokensKept(s, Erase(op));
    DestroyAt(s, op);
    var id := s.destroys[op].id;
    DestroysMove(s.destroys, s.stage, op, id);
    StageAny(s.creates, s.home, s.stage, s.unique, s.handed, id, Dying);
  }

  lemma StageAny(creates: map<nat, Create>, home: map<nat, nat>, stage: map<nat, Stage>, unique: set<nat>,
        handed: set<nat>, id: nat, to: Stage)
    requires GoodCreates(creates, home, stage, unique, handed) && id in stage
    requires forall op2 :: op2 in creates && creates[op2].Built? ==> creates[op2].id != id
    ensures GoodCreates(creates, home, stage[id := to], unique, handed)
  {
    forall op2 | op2 in creates ensures GoodCreate(creates[op2], home, stage, unique, handed) {}
  }

  lemma BuryKeeps(s: State, op: nat)
    requires Inv(s) && Enabled(s, Bury(op))
    ensures Inv(Apply(s, Bury(op)))
  {
    hide GoodTokens, GoodHomes, GoodWaiting, GoodPins, GoodCreates, GoodDestroys;
    TokensKept(s, Bury(op));
    DestroyAt(s, op);
    var id := s.destroys[op].id;
    DestroysMove(s.destroys, s.stage, op, id);
    StageAny(s.creates, s.home, s.stage, s.unique, s.handed, id, Buried);
  }

  lemma ReapStages(s: State)
    requires Inv(s)
    ensures var stage := map id | id in s.stage :: if id in s.preDestroy then Deleted else s.stage[id];
            && Accounted(s.nextId, stage, s.services, [], s.deleted + Elems(s.preDestroy))
            && GoodDestroys(s.destroys, s.lock, stage)
            && GoodCreates(s.creates, s.home, stage, s.unique, s.handed)
  {
    hide GoodTokens, GoodHomes, GoodWaiting, GoodPins;
    forall op | op in s.creates ensures GoodCreate(s.creates[op], s.home, s.stage, s.unique, s.handed) {}
  }

  lemma ReapKeeps(s: State)
    requires Inv(s)
    ensures Inv(Apply(s, Reap))
  {
    hide GoodTokens, GoodHomes, GoodWaiting, GoodPins, GoodCreates, GoodDestroys, Accounted;
    TokensKept(s, Reap);
    ReapStages(s);
  }

  lemma NewServiceKeeps(s: State, op: nat, isUnique: bool)
    requires Inv(s) && Enabled(s, NewService(op, isUnique))
    ensures Inv(Apply(s, NewService(op, isUnique)))
  {
    hide GoodTokens, GoodHomes, GoodDestroys, Accounted, GoodPins, GoodCreates, GoodWaiting;
    TokensKept(s, NewService(op, isUnique));
    CreatesChange(s.creates, op, Start(isUnique), s.home, s.stage, s.unique, s.handed);
    WaitingChange(|s.workers|, s.creates, op, Start(isUnique), s.home, s.freeWorkers);
  }

  lemma StepKeeps(s: State, e: Event)
    requires Inv(s) && Enabled(s, e)
    ensures Inv(Apply(s, e)) && |Apply(s, e).workers| == |s.workers|
  {
    hide Inv, IsServiceWorker;
    match e
    case NewService(op, isUnique) => NewServiceKeeps(s, op, isUnique);
    case UseWorker(op, worker) => UseWorkerKeeps(s, op, worker);
    case TakeId(op) => TakeIdKeeps(s, op);
    case Store(op) => StoreKeeps(s, op);
    case HandOver(op) => HandOverKeeps(s, op);
    case DestroyService(_, _) => EnterDestroyKeeps(s, e);
    case FindService(_) => EnterDestroyKeeps(s, e);
    case FindWorker(_, _) => EnterDestroyKeeps(s, e);
    case ClearPin(op) => ClearPinKeeps(s, op);
    case Erase(op) => EraseKeeps(s, op);
    case Bury(op) => BuryKeeps(s, op);
    case Reap => ReapKeeps(s);
    case _ => WorkerKeeps(s, e);
  }

  // ---------------------------------------------------------------- runs

  /** After initWorker(n), before any service exists. */
  ghost predicate Init(s: State, n: nat) {
    && |s.workers| == n && (forall i :: 0 <= i < n ==> s.workers[i] == Worker(0, Top))
    && (forall w :: w in s.freeWorkers <==> 0 < w <= n) && |s.freeWorkers| == n
    && s.nextId == 1 && s.services == {} && s.freeServices == [] && s.preDestroy == [] && s.deleted == {}
    && s.creates == map[] && s.destroys == map[] && s.lock == None
    && s.home == map[] && s.stage == map[] && s.unique == {} && s.handed == {}
  }

  ghost predicate IsRun(n: nat, states: seq<State>, events: seq<Event>) {
    && |states| == |events| + 1 && Init(states[0], n)
    && forall i :: 0 <= i < |events| ==> Enabled(states[i], events[i]) && states[i + 1] == Apply(states[i], events[i])
  }

  lemma {:induction false} NoHolders(ws: seq<Worker>, id: nat)
    requires forall i :: 0 <= i < |ws| ==> ws[i].pc == Top
    ensures Holders(ws, id) == 0
    decreases |ws|
  {
    if ws != [] {
      NoHolders(ws[1..], id);
    }
  }

  lemma InitInv(s: State, n: nat)
    requires Init(s, n)
    ensures Inv(s)
  {
    assert GoodTokens(s) by {
      forall id: nat ensures Tokens(s, id) == 0 {
        NoHolders(s.workers, id);
      }
    }
    hide GoodTokens;
  }

  lemma {:induction false} RunKeeps(n: nat, states: seq<State>, events: seq<Event>, i: nat)
    requires IsRun(n, states, events) && i < |states|
    ensures Inv(states[i]) && |states[i].workers| == n
    decreases i
  {
    if i == 0 {
      InitInv(states[0], n);
    } else {
      RunKeeps(n, states, events, i - 1);
      hide Inv, Enabled, Apply;
      StepKeeps(states[i - 1], events[i - 1]);
    }
  }

  /** No service is ever polled by two workers at once, in any interleaving of any number of threads. */
  lemma SinglePoller(n: nat, states: seq<State>, events: seq<Event>, i: nat, a: nat, b: nat)
    requires IsRun(n, states, events) && i < |states| && a < b < |states[i].workers|
    requires states[i].workers[a].pc.Polling? && states[i].workers[b].pc.Polling?
    ensures states[i].workers[a].pc.id != states[i].workers[b].pc.id
  {
    RunKeeps(n, states, events, i);
    hide IsRun;
    var s := states[i];
    var id := s.workers[a].pc.id;
    if id == s.workers[b].pc.id {
      HoldersTwo(s.workers, a, b, id);
      HoldersOne(s.workers, a, id);
      HoldersOne(s.workers, b, id);
      assert false;
    }
  }

  /**
   A shared service is never lost from rotation: from its hand-over to its destruction exactly one token of it exists,
   in the free queue or with a worker. A unique service has none, and is pinned to at most one worker.
   */
  lemma TokensPerService(n: nat, states: seq<State>, events: seq<Event>, i: nat, id: nat)
    requires IsRun(n, states, events) && i < |states|
    ensures Tokens(states[i], id) <= 1
    ensures id in states[i].services && id in states[i].handed && id !in states[i].unique ==> Tokens(states[i], id) == 1
    ensures id in states[i].unique ==> Tokens(states[i], id) == 0
    ensures forall a, b :: 0 <= a < b < |states[i].workers| && states[i].workers[a].pinned != 0 ==>
              states[i].workers[a].pinned != states[i].workers[b].pinned
  {
    RunKeeps(n, states, events, i);
  }

  // ---------------------------------------------------------------- bounded bypass

  /** The id the step takes from the free queue, if any. */
  ghost function TakenAt(s: State, e: Event): seq<nat> {
    if e.TakeFree? && s.freeServices != [] then [s.freeServices[0]] else []
  }

  /** The id the step appends to the free queue, if any. */
  ghost function PushedAt(s: State, e: Event): seq<nat>
    requires Enabled(s, e)
  {
    if e.PushFree? then [s.workers[e.w].pc.id]
    else if e.HandOver? && !s.creates[e.op].unique then [s.creates[e.op].id]
    else []
  }

  ghost function Taken(n: nat, states: seq<State>, events: seq<Event>, i: nat, j: nat): seq<nat>
    requires IsRun(n, states, events) && i <= j <= |events|
    decreases j
  {
    if i == j then [] else Taken(n, states, events, i, j - 1) + TakenAt(states[j - 1], events[j - 1])
  }

  ghost function Pushed(n: nat, states: seq<State>, events: seq<Event>, i: nat, j: nat): seq<nat>
    requires IsRun(n, states, events) && i <= j <= |events|
    decreases j
  {
    if i == j then [] else Pushed(n, states, events, i, j - 1) + PushedAt(states[j - 1], events[j - 1])
  }

  lemma QueueStep(s: State, e: Event)
    requires Enabled(s, e)
    ensures TakenAt(s, e) + Apply(s, e).freeServices == s.freeServices + PushedAt(s, e)
  {
    hide IsServiceWorker;
    if e.TakeFree? && s.freeServices != [] {
      assert s.freeServices == [s.freeServices[0]] + s.freeServices[1..];
    }
  }

  lemma Splice(t: seq<nat>, x: seq<nat>, after: seq<nat>, start: seq<nat>, p: seq<nat>, y: seq<nat>, before: seq<nat>)
    requires t + before == start + p && x + after == before + y
    ensures (t + x) + after == start + (p + y)
  {
    calc {
      (t + x) + after;
      t + (x + after);
      t + (before + y);
      (t + before) + y;
      (start + p) + y;
      start + (p + y);
    }
  }

  /** The free queue is first-in first-out over any stretch of any run. */
  lemma {:induction false} QueueIsFifo(n: nat, states: seq<State>, events: seq<Event>, i: nat, j: nat)
    requires IsRun(n, states, events) && i <= j <= |events|
    ensures Taken(n, states, events, i, j) + states[j].freeServices ==
        states[i].freeServices + Pushed(n, states, events, i, j)
    decreases j
  {
    hide Enabled, Apply, PushedAt, TakenAt;
    if i == j {
      assert states[j].freeServices + [] == states[j].freeServices == [] + states[j].freeServices;
    } else {
      QueueIsFifo(n, states, events, i, j - 1);
      var s, e := states[j - 1], events[j - 1];
      QueueStep(s, e);
      Splice(Taken(n, states, events, i, j - 1), TakenAt(s, e), states[j].freeServices,
             states[i].freeServices, Pushed(n, states, events, i, j - 1), PushedAt(s, e), s.freeServices);
    }
  }

  lemma AtMostOnce(s: State, id: nat)
    requires Inv(s)
    ensures Count(s.freeServices, id) <= 1
  {
    assert Tokens(s, id) <= 1;
  }

  lemma QueueDistinct(s: State)
    requires Inv(s)
    ensures Distinct(s.freeServices)
    ensures forall k :: 0 <= k < |s.freeServices| ==> 0 < s.freeServices[k] < s.nextId
  {
    var q := s.freeServices;
    forall a, b | 0 <= a < b < |q| ensures q[a] != q[b] {
      AtMostOnce(s, q[a]);
      if q[a] == q[b] {
        CountTwo(q, a, b);
      }
    }
    forall k | 0 <= k < |q| ensures 0 < q[k] < s.nextId {
      CountMember(q, k);
      assert Tokens(s, q[k]) > 0;
    }
  }

  lemma SomeBound(q: seq<nat>, m: nat)
    requires forall k :: 0 <= k < |q| ==> 0 < q[k] <= m
    ensures |q| > 0 ==> m > 0
  {
    if |q| > 0 {
      assert 0 < q[0] <= m;
    }
  }

  lemma {:induction false} Pigeonhole(q: seq<nat>, m: nat)
    requires Distinct(q) && forall k :: 0 <= k < |q| ==> 0 < q[k] <= m
    ensures |q| <= m
    decreases m
  {
    SomeBound(q, m);
    if m == 0 {
    } else if k :| 0 <= k < |q| && q[k] == m {
      var rest := q[..k] + q[k + 1..];
      forall a | 0 <= a < |rest| ensures 0 < rest[a] <= m - 1 {
        assert rest[a] == q[if a < k then a else a + 1];
      }
      Pigeonhole(rest, m - 1);
    } else {
      Pigeonhole(q, m - 1);
    }
  }

  lemma FifoPlace(t: seq<nat>, after: seq<nat>, q: seq<nat>, pushed: seq<nat>, p: nat)
    requires t + after == q + pushed && p < |q|
    ensures |t| > p ==> t[..p] == q[..p] && t[p] == q[p]
    ensures |t| <= p ==> t == q[..|t|] && p - |t| < |after| && after[p - |t|] == q[p]
  {
    var all := q + pushed;
    assert forall k :: 0 <= k <= p ==> all[k] == q[k];
    assert forall k :: 0 <= k < |t| ==> all[k] == t[k];
    assert |t| <= p ==> all[p] == after[p - |t|];
  }

  /**
   Bounded bypass. Once an id stands at place `p` of the free queue, the next takes are exactly the `p` ids ahead of
   it, in order and each once, and then itself; and `p` is below the number of workers, whatever is created,
   destroyed or polled meanwhile.
   */
  lemma BoundedBypass(n: nat, states: seq<State>, events: seq<Event>, i: nat, j: nat, p: nat)
    requires IsRun(n, states, events) && i <= j <= |events| && p < |states[i].freeServices|
    ensures Distinct(states[i].freeServices) && p < n
    ensures var t, q := Taken(n, states, events, i, j), states[i].freeServices;
            && (|t| > p ==> t[..p] == q[..p] && t[p] == q[p])
            && (|t| <= p ==>
                  t == q[..|t|] && p - |t| < |states[j].freeServices|
                  && states[j].freeServices[p - |t|] == q[p])
  {
    QueueIsFifo(n, states, events, i, j);
    RunKeeps(n, states, events, i);
    hide IsRun;
    QueueDistinct(states[i]);
    IdsBounded(n, states, events, i);
    hide Inv;
    Pigeonhole(states[i].freeServices, n);
    hide Distinct;
    FifoPlace(Taken(n, states, events, i, j), states[j].freeServices, states[i].freeServices,
              Pushed(n, states, events, i, j), p);
  }

  // ---------------------------------------------------------------- allocation

  /** Calls of newService that have taken a worker and not yet an id. */
  function InFlight(creates: map<nat, Create>): set<nat> {
    set op | op in creates && creates[op].HasWorker?
  }

  lemma InFlightUpdate(creates: map<nat, Create>, op: nat, c: Create)
    ensures InFlight(creates[op := c]) == if c.HasWorker? then InFlight(creates) + {op} else InFlight(creates) - {op}
    ensures InFlight(creates - {op}) == InFlight(creates) - {op}
  {
  }

  /** Ids handed out, workers on their way to a service, free workers. */
  function Workforce(s: State): int {
    (s.nextId - 1) + |InFlight(s.creates)| + |s.freeWorkers|
  }

  lemma UseWorkerForce(s: State, op: nat, worker: nat)
    requires Enabled(s, UseWorker(op, worker))
    ensures Workforce(Apply(s, UseWorker(op, worker))) == Workforce(s)
  {
    InFlightUpdate(s.creates, op, HasWorker(worker, s.creates[op].unique));
    assert op !in InFlight(s.creates);
  }

  lemma TakeIdForce(s: State, op: nat)
    requires Enabled(s, TakeId(op))
    ensures Workforce(Apply(s, TakeId(op))) == Workforce(s)
  {
    InFlightUpdate(s.creates, op, Built(s.creates[op].worker, s.nextId, s.creates[op].unique));
    assert op in InFlight(s.creates);
  }

  lemma SameInFlight(creates: map<nat, Create>, op: nat, c: Create)
    requires !c.HasWorker? && (op in creates ==> !creates[op].HasWorker?)
    ensures InFlight(creates[op := c]) == InFlight(creates) && InFlight(creates - {op}) == InFlight(creates)
  {
  }

  lemma WorkforceStep(s: State, e: Event)
    requires Enabled(s, e)
    ensures Workforce(Apply(s, e)) == Workforce(s)
  {
    hide IsServiceWorker, InFlight;
    match e
    case UseWorker(op, worker) => UseWorkerForce(s, op, worker);
    case TakeId(op) => TakeIdForce(s, op);
    case NewService(op, unique) => SameInFlight(s.creates, op, Start(unique));
    case Store(op) => SameInFlight(s.creates, op, Apply(s, e).creates[op]);
    case HandOver(op) => SameInFlight(s.creates, op, Start(true));
    case _ => assert Apply(s, e).creates == s.creates;
  }

  /**
   No worker is ever given back: services created, creations in flight and free workers add up to the workers there
   were at the start, so at most that many services are ever created.
   */
  lemma {:induction false} IdsBounded(n: nat, states: seq<State>, events: seq<Event>, i: nat)
    requires IsRun(n, states, events) && i < |states|
    ensures (states[i].nextId - 1) + |InFlight(states[i].creates)| + |states[i].freeWorkers| == n
    decreases i
  {
    hide Apply, Enabled;
    if i == 0 {
      assert InFlight(states[0].creates) == {};
    } else {
      IdsBounded(n, states, events, i - 1);
      WorkforceStep(states[i - 1], events[i - 1]);
    }
  }

  /**
   Every created service is building, live, being destroyed, waiting for deletion or deleted, exactly one of these,
   and the stack and the map hold each service at most once.
   */
  lemma ServicesAccounted(n: nat, states: seq<State>, events: seq<Event>, i: nat, id: nat)
    requires IsRun(n, states, events) && i < |states|
    ensures var s := states[i];
            && (0 < id < s.nextId <==> id in s.stage)
            && (id in s.services <==> id in s.stage && s.stage[id] == Live)
            && (id in s.preDestroy <==> id in s.stage && s.stage[id] == Buried)
            && (id in s.deleted <==> id in s.stage && s.stage[id] == Deleted)
            && Distinct(s.preDestroy)
  {
    RunKeeps(n, states, events, i);
  }

  predicate Later(a: Stage, b: Stage) {
    match a
    case Building => true
    case Live => !b.Building?
    case Dying => !b.Building? && !b.Live?
    case Buried => b.Buried? || b.Deleted?
    case Deleted => b.Deleted?
  }

  lemma StageStep(s: State, e: Event, id: nat)
    requires Inv(s) && Enabled(s, e) && id in s.stage
    ensures id in Apply(s, e).stage && Later(s.stage[id], Apply(s, e).stage[id])
  {
    hide GoodTokens, GoodHomes, GoodWaiting, GoodPins, IsServiceWorker;
    if e.Store? {
      assert GoodCreate(s.creates[e.op], s.home, s.stage, s.unique, s.handed);
    }
  }

  /**
   A service only moves forward in its life: under any number of destroy requests it is buried and deleted at most
   once.
   */
  lemma {:induction false} LifeIsOneWay(n: nat, states: seq<State>, events: seq<Event>, i: nat, j: nat, id: nat)
    requires IsRun(n, states, events) && i <= j < |states| && id in states[i].stage
    ensures id in states[j].stage && Later(states[i].stage[id], states[j].stage[id])
    decreases j
  {
    hide Inv, Apply, Enabled;
    if i < j {
      LifeIsOneWay(n, states, events, i, j - 1, id);
      RunKeeps(n, states, events, j - 1);
      StageStep(states[j - 1], events[j - 1], id);
    }
  }
}
