/**
 The objects behind the scheduler as sequential code: Worker, WorkerMgr and ServiceMgr with their containers
 (src/worker/worker.cpp, src/worker/workerMgr.cpp, src/service/serviceMgr.cpp). Each method is what one thread does
 when nothing interferes; module Scheduler covers the interleavings. Services are named by their ids, 0 is null.
 */
module ServiceMgr {
  import opened Basics

  class Worker {
    var mService: nat

    constructor ()
      ensures mService == 0
    {
      mService := 0;
    }
  }

  class WorkerMgr {
    var mWorkers: seq<Worker>
    var mFreeWorkers: set<nat>

    constructor ()
      ensures mWorkers == [] && mFreeWorkers == {}
    {
      mWorkers, mFreeWorkers := [], {};
    }

    ghost predicate Valid()
      reads this
    {
      && Distinct(mWorkers)
      && forall w :: w in mFreeWorkers ==> 0 < w <= |mWorkers|
    }

    /** Workers are numbered from 1, unpinned and free. */
    method InitWorker(num: nat)
      requires mWorkers == [] && mFreeWorkers == {}
      modifies this
      ensures Valid() && |mWorkers| == num && fresh(mWorkers)
      ensures forall w: nat :: w in mFreeWorkers <==> 1 <= w <= num
      ensures forall i :: 0 <= i < num ==> mWorkers[i].mService == 0
    {
      var i := 1;
      while i <= num
        invariant 1 <= i <= num + 1 && |mWorkers| == i - 1
        invariant Valid() && fresh(mWorkers)
        invariant forall w: nat :: w in mFreeWorkers <==> 1 <= w < i
        invariant forall k :: 0 <= k < i - 1 ==> mWorkers[k].mService == 0
      {
        var worker := new Worker();
        mWorkers := mWorkers + [worker];
        mFreeWorkers := mFreeWorkers + {i};
        i := i + 1;
      }
    }

    method GetWorker(id: nat) returns (worker: Worker?)
      ensures worker == if 1 <= id <= |mWorkers| then mWorkers[id - 1] else null
    {
      if id < 1 || id > |mWorkers| {
        return null;
      }
      return mWorkers[id - 1];
    }

    /** The least free worker leaves the set for good; 0 when there is none. */
    method UseWorker() returns (id: nat)
      requires Valid()
      modifies this`mFreeWorkers
      ensures Valid()
      ensures old(mFreeWorkers) == {} ==> id == 0 && mFreeWorkers == {}
      ensures old(mFreeWorkers) != {} ==>
                && id in old(mFreeWorkers) && mFreeWorkers == old(mFreeWorkers) - {id}
                && forall v :: v in old(mFreeWorkers) ==> id <= v
    {
      id := 0;
      if mFreeWorkers != {} {
        id := First(mFreeWorkers);
        mFreeWorkers := mFreeWorkers - {id};
      }
    }

    /** The number of the first worker pinned to `value`, or 0. */
    method GetServiceWorker(value: nat) returns (worker: nat)
      ensures worker == 0 ==> forall i :: 0 <= i < |mWorkers| ==> mWorkers[i].mService != value
      ensures worker != 0 ==> worker <= |mWorkers| && mWorkers[worker - 1].mService == value
      ensures worker != 0 ==> forall i :: 0 <= i < worker - 1 ==> mWorkers[i].mService != value
    {
      worker := 0;
      for i := 0 to |mWorkers|
        invariant forall k :: 0 <= k < i ==> mWorkers[k].mService != value
      {
        if mWorkers[i].mService == value {
          return i + 1;
        }
      }
    }
  }

  /** begin() of an ordered map. */
  method First(s: set<nat>) returns (m: nat)
    requires s != {}
    ensures m in s && forall v :: v in s ==> m <= v
  {
    m :| m in s;
    var rest := s - {m};
    while rest != {}
      invariant m in s && rest <= s
      invariant forall v :: v in s && v !in rest ==> m <= v
      decreases |rest|
    {
      var v :| v in rest;
      if v < m {
        m := v;
      }
      rest := rest - {v};
    }
  }

  function Reverse(s: seq<nat>): seq<nat> {
    if s == [] then [] else Reverse(s[1..]) + [s[0]]
  }

  /** The stack is emptied from its top. */
  lemma {:induction false} ReverseLast(s: seq<nat>)
    requires s != []
    ensures Reverse(s) == [s[|s| - 1]] + Reverse(s[..|s| - 1])
    decreases |s|
  {
    if |s| > 1 {
      ReverseLast(s[1..]);
      assert s[1..][..|s| - 2] == s[..|s| - 1][1..];
    }
  }

  /** One round of a worker that nothing is pinned to: what it polls, 0 for nothing, and the queue it leaves. */
  function Turn(services: set<nat>, q: seq<nat>): (nat, seq<nat>) {
    if q == [] then (0, [])
    else if q[0] in services then (q[0], q[1..] + [q[0]])
    else (0, q[1..])
  }

  function Turns(services: set<nat>, q: seq<nat>, n: nat): (seq<nat>, seq<nat>)
    decreases n
  {
    if n == 0 then ([], q)
    else
      var (polled, q1) := Turn(services, q);
      var (rest, q2) := Turns(services, q1, n - 1);
      ([polled] + rest, q2)
  }

  /** The services of a queue that are still there, in order. */
  function Live(services: set<nat>, q: seq<nat>): (live: seq<nat>)
    ensures forall i :: 0 <= i < |live| ==> live[i] in services
  {
    if q == [] then [] else (if q[0] in services then [q[0]] else []) + Live(services, q[1..])
  }

  /** In the first round over a queue each service still there is polled once, in order, and the others drop out. */
  lemma {:induction false} FirstRound(services: set<nat>, q: seq<nat>, behind: seq<nat>)
    ensures var (polled, q') := Turns(services, q + behind, |q|);
            && |polled| == |q| && (forall i :: 0 <= i < |q| ==> polled[i] == if q[i] in services then q[i] else 0)
            && q' == behind + Live(services, q)
    decreases |q|
  {
    if q == [] {
      assert q + behind == behind && behind + [] == behind;
    } else {
      var moved := if q[0] in services then [q[0]] else [];
      assert (q + behind)[1..] == q[1..] + behind;
      assert Turn(services, q + behind).1 == q[1..] + (behind + moved);
      FirstRound(services, q[1..], behind + moved);
      assert behind + moved + Live(services, q[1..]) == behind + (moved + Live(services, q[1..]));
    }
  }

  /** The queue in order, and whenever the order is through, again in the same order. */
  ghost predicate InTurn(polled: seq<nat>, q: seq<nat>)
    requires q != []
  {
    && (forall k :: 0 <= k < |polled| && k < |q| ==> polled[k] == q[k])
    && (forall i, j :: 0 <= i < j < |polled| && j == i + |q| ==> polled[j] == polled[i])
  }

  lemma OneMore(polled: seq<nat>, q: seq<nat>)
    requires q != [] && InTurn(polled, q[1..] + [q[0]])
    ensures InTurn([q[0]] + polled, q)
  {
    var q1, more := q[1..] + [q[0]], [q[0]] + polled;
    assert |q1| == |q| && q1[|q| - 1] == q[0];
    forall k | 0 <= k < |more| && k < |q| ensures more[k] == q[k] {
      if k > 0 {
        assert more[k] == polled[k - 1] == q1[k - 1];
      }
    }
    forall i, j | 0 <= i < j < |more| && j == i + |q| ensures more[j] == more[i] {
      assert more[j] == polled[j - 1];
      if i > 0 {
        assert more[i] == polled[i - 1];
      }
    }
  }

  /** From then on they are polled round-robin for ever. */
  lemma {:induction false} RoundRobin(services: set<nat>, q: seq<nat>, n: nat)
    requires q != [] && forall i :: 0 <= i < |q| ==> q[i] in services
    ensures |Turns(services, q, n).0| == n && InTurn(Turns(services, q, n).0, q)
    decreases n
  {
    if n > 0 {
      var q1 := q[1..] + [q[0]];
      hide InTurn;
      RoundRobin(services, q1, n - 1);
      OneMore(Turns(services, q1, n - 1).0, q);
    } else {
      assert Turns(services, q, 0).0 == [];
    }
  }

  /** A round first, then the rest of the rounds; or the rounds first. */
  lemma {:induction false} TurnsThen(services: set<nat>, q: seq<nat>, n: nat)
    ensures var (polled, q1) := Turns(services, q, n);
            Turns(services, q, n + 1) == (polled + [Turn(services, q1).0], Turn(services, q1).1)
    decreases n
  {
    hide Turn;
    if n > 0 {
      var (head, q1) := Turn(services, q);
      TurnsThen(services, q1, n - 1);
      var (rest, q2) := Turns(services, q1, n - 1);
      assert [head] + (rest + [Turn(services, q2).0]) == ([head] + rest) + [Turn(services, q2).0];
    } else {
      assert [] + [Turn(services, q).0] == [Turn(services, q).0] + [];
    }
  }

  class ServiceMgr {
    const workerMgr: WorkerMgr
    var mServices: map<nat, bool>
    var mFreeServices: seq<nat>
    var mPreDestroyServices: seq<nat>
    var mAutoId: nat
    /** Ids passed to `delete`, in order. */
    var mDeleted: seq<nat>

    constructor (workerMgr: WorkerMgr)
      ensures this.workerMgr == workerMgr
      ensures mServices == map[] && mFreeServices == [] && mPreDestroyServices == [] && mAutoId == 1 && mDeleted == []
    {
      this.workerMgr := workerMgr;
      mServices, mFreeServices, mPreDestroyServices, mAutoId, mDeleted := map[], [], [], 1, [];
    }

    /**
     `mServices` maps an id to `mIsInit`, which the service's constructor sets when its script could be run.
     The call asks for a worker again and again while none is free; None means that `tries` times were not enough.
     */
    method NewService(isUnique: bool, isInit: bool, tries: nat) returns (created: Option<nat>)
      requires workerMgr.Valid()
      modifies this, workerMgr`mFreeWorkers, workerMgr.mWorkers
      ensures workerMgr.Valid() && workerMgr.mWorkers == old(workerMgr.mWorkers)
      ensures created.None? <==> tries == 0 || old(workerMgr.mFreeWorkers) == {}
      ensures mPreDestroyServices == old(mPreDestroyServices) && mDeleted == old(mDeleted)
      ensures created.None? ==>
                && mAutoId == old(mAutoId) && mServices == old(mServices) && mFreeServices == old(mFreeServices)
                && workerMgr.mFreeWorkers == old(workerMgr.mFreeWorkers)
                && forall w :: w in workerMgr.mWorkers ==> w.mService == old(w.mService)
      ensures created.Some? ==>
                && var id := created.value;
                && id == old(mAutoId) && mAutoId == id + 1 && mServices == old(mServices)[id := isInit]
                && mFreeServices == (if isUnique then old(mFreeServices) else old(mFreeServices) + [id])
                && exists w :: && w in old(workerMgr.mFreeWorkers)
                               && (forall v :: v in old(workerMgr.mFreeWorkers) ==> w <= v)
                               && workerMgr.mFreeWorkers == old(workerMgr.mFreeWorkers) - {w}
                               && forall i :: 0 <= i < |workerMgr.mWorkers| ==>
                                    workerMgr.mWorkers[i].mService ==
                                    if isUnique && i == w - 1 then id else old(workerMgr.mWorkers[i].mService)
    {
      var workerId, tried := 0, 0;
      while workerId == 0 && tried < tries
        invariant workerMgr.Valid() && tried <= tries && workerMgr.mWorkers == old(workerMgr.mWorkers)
        invariant workerId == 0 ==>
          workerMgr.mFreeWorkers == old(workerMgr.mFreeWorkers) && (tried == 0 || old(workerMgr.mFreeWorkers) == {})
        invariant workerId != 0 ==>
          && tried > 0 && workerId in old(workerMgr.mFreeWorkers)
          && workerMgr.mFreeWorkers == old(workerMgr.mFreeWorkers) - {workerId}
          && forall v :: v in old(workerMgr.mFreeWorkers) ==> workerId <= v
        decreases tries - tried
        modifies workerMgr`mFreeWorkers
      {
        workerId := workerMgr.UseWorker();
        tried := tried + 1;
      }
      if workerId == 0 {
        return None;
      }
      var worker := workerMgr.GetWorker(workerId);
      var id := mAutoId;
      mAutoId := mAutoId + 1;
      mServices := mServices[id := isInit];
      if isUnique {
        worker.mService := id;
      } else {
        mFreeServices := mFreeServices + [id];
      }
      created := Some(id);
    }

    /** Unpins the service from its worker, erases it and stacks it for deletion; an unknown id changes nothing. */
    method DestoryService(id: nat)
      requires workerMgr.Valid()
      modifies this`mServices, this`mPreDestroyServices, workerMgr.mWorkers
      ensures workerMgr.Valid()
      ensures id !in old(mServices) ==>
                && mServices == old(mServices) && mPreDestroyServices == old(mPreDestroyServices)
                && forall w :: w in workerMgr.mWorkers ==> w.mService == old(w.mService)
      ensures id in old(mServices) ==>
                && mServices == old(mServices) - {id} && mPreDestroyServices == old(mPreDestroyServices) + [id]
                && forall i :: 0 <= i < |workerMgr.mWorkers| ==>
                     workerMgr.mWorkers[i].mService ==
                     if old(workerMgr.mWorkers[i].mService) == id
                        && (forall k :: 0 <= k < i ==> old(workerMgr.mWorkers[k].mService) != id)
                     then 0 else old(workerMgr.mWorkers[i].mService)
    {
      if id in mServices {
        var worker := workerMgr.GetServiceWorker(id);
        if worker != 0 {
          workerMgr.mWorkers[worker - 1].mService := 0;
        }
        mServices := mServices - {id};
        mPreDestroyServices := mPreDestroyServices + [id];
      }
    }

    /** Deletes everything on the stack, each once, the top first. */
    method Poll()
      modifies this`mPreDestroyServices, this`mDeleted
      ensures mPreDestroyServices == [] && mDeleted == old(mDeleted) + Reverse(old(mPreDestroyServices))
    {
      ghost var stack := mPreDestroyServices;
      while mPreDestroyServices != []
        invariant |mPreDestroyServices| <= |stack| && mPreDestroyServices == stack[..|mPreDestroyServices|]
        invariant old(mDeleted) + Reverse(stack) == mDeleted + Reverse(mPreDestroyServices)
        decreases |mPreDestroyServices|
      {
        ReverseLast(mPreDestroyServices);
        var service := mPreDestroyServices[|mPreDestroyServices| - 1];
        mDeleted := mDeleted + [service];
        mPreDestroyServices := mPreDestroyServices[..|mPreDestroyServices| - 1];
      }
    }

    method GetFreeServiceId() returns (id: nat)
      modifies this`mFreeServices
      ensures old(mFreeServices) == [] ==> id == 0 && mFreeServices == []
      ensures old(mFreeServices) != [] ==> [id] + mFreeServices == old(mFreeServices)
    {
      if mFreeServices == [] {
        return 0;
      }
      id := mFreeServices[0];
      mFreeServices := mFreeServices[1..];
    }

    method PushFreeServiceId(value: nat)
      modifies this`mFreeServices
      ensures mFreeServices == old(mFreeServices) + [value]
    {
      mFreeServices := mFreeServices + [value];
    }

    /** One round of Worker::run: the service polled, or 0. A pinned worker leaves the queue alone. */
    method RunOnce(worker: Worker) returns (polled: nat)
      requires forall k :: 0 <= k < |mFreeServices| ==> mFreeServices[k] > 0
      modifies this`mFreeServices
      ensures worker.mService != 0 ==> polled == worker.mService && mFreeServices == old(mFreeServices)
      ensures worker.mService == 0 && old(mFreeServices) == [] ==> polled == 0 && mFreeServices == []
      ensures worker.mService == 0 && old(mFreeServices) != [] ==>
                var head, rest := old(mFreeServices)[0], old(mFreeServices)[1..];
                if head in mServices then polled == head && mFreeServices == rest + [head]
                else polled == 0 && mFreeServices == rest
    {
      var service, serviceId := worker.mService, 0;
      if service == 0 {
        serviceId := GetFreeServiceId();
        if serviceId == 0 {
          return 0;
        }
        if serviceId !in mServices {
          return 0;
        }
        service := serviceId;
      }
      polled := service;
      if serviceId > 0 {
        PushFreeServiceId(serviceId);
      }
    }

    /** Any number of rounds of an unpinned worker that is alone. */
    method Run(worker: Worker, rounds: nat) returns (polled: seq<nat>)
      requires worker.mService == 0 && forall k :: 0 <= k < |mFreeServices| ==> mFreeServices[k] > 0
      modifies this`mFreeServices
      ensures (polled, mFreeServices) == Turns(mServices.Keys, old(mFreeServices), rounds)
    {
      polled := [];
      for round := 0 to rounds
        invariant forall k :: 0 <= k < |mFreeServices| ==> mFreeServices[k] > 0
        invariant (polled, mFreeServices) == Turns(mServices.Keys, old(mFreeServices), round)
      {
        TurnsThen(mServices.Keys, old(mFreeServices), round);
        var head := RunOnce(worker);
        polled := polled + [head];
      }
    }
  }
}
