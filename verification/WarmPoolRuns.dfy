/**
 Runs of the warm pool against a clock: every run of the manager is a run of the timed pool, so what holds of that pool
 at all times holds of the workers' own stamps.
 */
module WarmPoolRuns {
  import opened WarmPool

  /** What may happen next. A worker is stamped and given back in one go, and a tick is handled when it is due. */
  datatype TimedEvent =
    | Begins(call: nat, fn: string)
    | Fails(call: nat)
    | Returns(call: nat)
    | Passes(duration: nat)
    | Ticks
    | Closes
    | ClosesChannel

  /** The manager is in the state `p` of the timed pool. */
  ghost predicate Follows(pool: WarmPoolManager, l: T.Limits, p: T.Pool)
    reads pool, Members(pool.workers)
  {
    && pool.Valid()
    && l == T.Limits(pool.idleTimeout, pool.maxWarmPerFunc)
    && p.closed == pool.closed
    && p.lists == Stamps(pool.workers)
  }

  /** A call that finds no idle worker, or a closed pool, moves nothing in the timed pool. */
  lemma ColdStartIsNoTake(l: T.Limits, p: T.Pool, workers: Lists, fn: string)
    requires p.lists == Stamps(workers) && (p.closed || ListOf(workers, fn) == [])
    ensures T.Step(l, p, T.Take(fn)) == p
  {
    StampsUpdate(workers, fn, []);
    StampLength(ListOf(workers, fn));
  }

  /** Neither does a worker that comes back to a closed pool or a full list. */
  lemma DropIsNoRelease(l: T.Limits, p: T.Pool, workers: Lists, fn: string)
    requires p.lists == Stamps(workers) && (p.closed || |ListOf(workers, fn)| >= l.max)
    ensures T.Step(l, p, T.Release(fn)) == p
  {
    StampsUpdate(workers, fn, []);
    StampLength(ListOf(workers, fn));
  }

  lemma NoStampsAtAll()
    ensures Stamps(map[]) == map[]
  {
  }

  method Begin(pool: WarmPoolManager, call: nat, fn: string, ghost l: T.Limits, ghost p: T.Pool)
    requires Follows(pool, l, p) && call !in pool.leases
    modifies pool
    ensures Follows(pool, l, T.Step(l, p, T.Take(fn)))
    ensures CallsOf(pool.leases) == if old(pool.closed) then CallsOf(old(pool.leases)) else CallsOf(old(pool.leases))[call := fn]
    ensures old(pool.place).Keys <= pool.place.Keys && forall w | w in pool.place && w !in old(pool.place) :: fresh(w)
  {
    hide Sound, T.Step, CallsOf;
    ghost var b := pool.View();
    LastIsPlaced(pool.maxWarmPerFunc, b, fn);
    var ok, isWarm := pool.Begin(call, fn);
    if ok { CallsGrow(b.leases, call, pool.leases[call]); }
    assert p.lists == Stamps(b.workers);
    hide Stamps;
    if isWarm {
      WarmStartIsTake(l, p, b, call, fn);
      TakeKeepsFlag(l, p, fn);
    } else {
      ColdStartIsNoTake(l, p, b.workers, fn);
    }
  }

  lemma TakeKeepsFlag(l: T.Limits, p: T.Pool, fn: string)
    ensures T.Step(l, p, T.Take(fn)).closed == p.closed && T.Step(l, p, T.Release(fn)).closed == p.closed
  {
  }

  method Return(pool: WarmPoolManager, call: nat, now: int, ghost l: T.Limits, ghost p: T.Pool)
    requires Follows(pool, l, p) && call in pool.leases && p.now == now
    modifies pool, pool.leases[call].worker
    ensures Follows(pool, l, T.Step(l, p, T.Release(old(pool.leases[call].fn))))
    ensures pool.place.Keys == old(pool.place).Keys && CallsOf(pool.leases) == CallsOf(old(pool.leases)) - {call}
  {
    hide Sound, T.Step, CallsOf;
    CallsShrink(pool.leases, call);
    ghost var b := pool.View();
    var Lease(fn, worker) := pool.leases[call];
    LeaseKnown(pool.maxWarmPerFunc, b, call);
    Stamp(pool, call, worker, now);
    pool.ReleaseWorker(call);
    assert p.lists == Stamps(b.workers);
    hide Stamps;
    TakeKeepsFlag(l, p, fn);
    if b.closed || |ListOf(b.workers, fn)| >= pool.maxWarmPerFunc {
      DropIsNoRelease(l, p, b.workers, fn);
    } else {
      ReturnIsRelease(l, p, b, call);
    }
  }

  method Stamp(pool: WarmPoolManager, call: nat, worker: WarmWorker, now: int)
    requires pool.Valid() && call in pool.leases && pool.leases[call].worker == worker
    modifies worker
    ensures pool.Valid() && worker.lastUsed == now && Stamps(pool.workers) == old(Stamps(pool.workers))
  {
    hide Sound;
    ghost var stamps := Stamps(pool.workers);
    pool.Stamp(call, worker, now);
    assert stamps == Stamps(pool.workers);
  }

  method Drop(pool: WarmPoolManager, call: nat, ghost l: T.Limits, ghost p: T.Pool)
    requires Follows(pool, l, p) && call in pool.leases
    modifies pool
    ensures Follows(pool, l, p) && pool.place.Keys == old(pool.place).Keys
    ensures CallsOf(pool.leases) == CallsOf(old(pool.leases)) - {call}
  {
    hide Sound, CallsOf;
    CallsShrink(pool.leases, call);
    ghost var b := pool.View();
    LeaseKnown(pool.maxWarmPerFunc, b, call);
    pool.Drop(call);
    assert p.lists == Stamps(b.workers);
  }

  method Reap(pool: WarmPoolManager, now: int, ghost l: T.Limits, ghost p: T.Pool)
    requires Follows(pool, l, p) && p.now == p.nextTick == now
    modifies pool
    ensures Follows(pool, l, T.Step(l, p, T.Tick)) && pool.place.Keys == old(pool.place).Keys && pool.leases == old(pool.leases)
  {
    hide Sound, Stamps;
    pool.ReapIdleWorkers(now);
  }

  method Close(pool: WarmPoolManager, ghost l: T.Limits, ghost p: T.Pool)
    requires Follows(pool, l, p)
    modifies pool
    ensures Follows(pool, l, T.Step(l, p, T.Shut)) && pool.place.Keys == old(pool.place).Keys && pool.leases == old(pool.leases)
  {
    hide Sound, Stamps;
    NoStampsAtAll();
    SoundLists(pool.maxWarmPerFunc, pool.View());
    var first := pool.BeginClose();
    NoStampsAtAll();
  }

  method CloseChannel(pool: WarmPoolManager, ghost l: T.Limits, ghost p: T.Pool)
    requires Follows(pool, l, p) && pool.closing > 0
    modifies pool
    ensures Follows(pool, l, p) && pool.place == old(pool.place) && pool.leases == old(pool.leases)
  {
    hide Sound;
    ghost var workers := pool.workers;
    pool.FinishClose();
    assert p.lists == Stamps(workers);
  }

  /** The calls that have a worker and the moves of the timed pool, which the events alone determine. */
  datatype Plan = Plan(calls: map<nat, string>, ms: seq<T.Move>)

  /** One more event, in a pool that is closed or not. */
  function PlanNext(plan: Plan, closed: bool, e: TimedEvent): Plan {
    match e
    case Begins(call, fn) =>
      if call in plan.calls then plan
      else Plan(if closed then plan.calls else plan.calls[call := fn], plan.ms + [T.Take(fn)])
    case Fails(call) => plan.(calls := plan.calls - {call})
    case Returns(call) =>
      if call !in plan.calls then plan else Plan(plan.calls - {call}, plan.ms + [T.Release(plan.calls[call])])
    case Passes(duration) => plan.(ms := plan.ms + [T.Wait(duration)])
    case Ticks => plan.(ms := plan.ms + [T.Tick])
    case Closes => plan.(ms := plan.ms + [T.Shut])
    case ClosesChannel => plan
  }

  function PlanOf(l: T.Limits, start: int, calls: map<nat, string>, events: seq<TimedEvent>): Plan {
    if events == [] then Plan(calls, [])
    else
      var before := PlanOf(l, start, calls, events[..|events| - 1]);
      PlanNext(before, T.After(l, start, before.ms).closed, events[|events| - 1])
  }

  /** The functions of the calls that have a worker. */
  function CallsOf(leases: map<nat, Lease>): map<nat, string> {
    map c | c in leases :: leases[c].fn
  }

  lemma CallsGrow(leases: map<nat, Lease>, call: nat, lease: Lease)
    ensures CallsOf(leases[call := lease]) == CallsOf(leases)[call := lease.fn]
  {
  }

  lemma CallsShrink(leases: map<nat, Lease>, call: nat)
    ensures CallsOf(leases - {call}) == CallsOf(leases) - {call}
  {
  }

  /** The manager and the clock are where the plan says. */
  ghost predicate OnPlan(pool: WarmPoolManager, l: T.Limits, start: int, plan: Plan, now: int, nextTick: int)
    reads pool, Members(pool.workers)
  {
    var p := T.After(l, start, plan.ms);
    Follows(pool, l, p) && p.now == now && p.nextTick == nextTick && CallsOf(pool.leases) == plan.calls
  }

  /** One event, or nothing when it is not possible now. */
  method Happen(pool: WarmPoolManager, e: TimedEvent, now0: int, nextTick0: int,
                ghost l: T.Limits, ghost start: int, ghost plan: Plan)
    returns (now: int, nextTick: int)
    requires OnPlan(pool, l, start, plan, now0, nextTick0)
    modifies pool, set w | w in pool.place
    ensures OnPlan(pool, l, start, PlanNext(plan, old(pool.closed), e), now, nextTick)
    ensures old(pool.place).Keys <= pool.place.Keys && forall w | w in pool.place && w !in old(pool.place) :: fresh(w)
  {
    hide Follows, Sound, Stamps, T.Steps, T.After;
    now, nextTick := now0, nextTick0;
    ghost var p := T.After(l, start, plan.ms);
    FollowsFacts(pool, l, p);
    assert pool.leases.Keys == plan.calls.Keys;
    match e {
      case Begins(call, fn) =>
        T.OneMoreStep(l, start, plan.ms, T.Take(fn));
        if call !in pool.leases {
          Begin(pool, call, fn, l, p);
        }
      case Fails(call) =>
        if call in pool.leases { Drop(pool, call, l, p); }
      case Returns(call) =>
        if call in pool.leases {
          T.OneMoreStep(l, start, plan.ms, T.Release(pool.leases[call].fn));
          Return(pool, call, now, l, p);
        }
      case Passes(duration) =>
        T.OneMoreStep(l, start, plan.ms, T.Wait(duration));
        if now + duration <= nextTick {
          now := now + duration;
          FollowsAnyTime(pool, l, p, now, nextTick);
        }
      case Ticks =>
        T.OneMoreStep(l, start, plan.ms, T.Tick);
        if now == nextTick {
          Reap(pool, now, l, p);
          nextTick := now + pool.idleTimeout / 2;
        }
      case Closes =>
        T.OneMoreStep(l, start, plan.ms, T.Shut);
        Close(pool, l, p);
      case ClosesChannel =>
        if pool.closing > 0 { CloseChannel(pool, l, p); }
    }
  }

  /**
   The idle bound of the manager itself: run a new pool through any events. The lists are those of the run of the timed
   pool that the events call for. At any time, every idle worker was last used less than idle + idle / 2 ago, and each
   list is within its bound and sorted by last use.
   */
  method Run(pool: WarmPoolManager, start: int, events: seq<TimedEvent>)
    returns (now: int, ghost l: T.Limits, ghost plan: Plan)
    requires pool.Valid() && !pool.closed && pool.workers == map[] && pool.idleTimeout >= 2
    modifies pool, set w | w in pool.place
    ensures l == T.Limits(pool.idleTimeout, pool.maxWarmPerFunc)
    ensures plan == PlanOf(l, start, CallsOf(old(pool.leases)), events)
    ensures pool.Valid() && Stamps(pool.workers) == T.After(l, start, plan.ms).lists
    ensures pool.closed == T.After(l, start, plan.ms).closed && CallsOf(pool.leases) == plan.calls
    ensures T.After(l, start, plan.ms).now == now
    ensures forall fn | fn in pool.workers ::
              var list := pool.workers[fn];
              && |list| <= pool.maxWarmPerFunc
              && (forall i | 0 <= i < |list| ::
                    list[i].lastUsed <= now < list[i].lastUsed + pool.idleTimeout + pool.idleTimeout / 2)
              && (forall i, j | 0 <= i < j < |list| :: list[i].lastUsed <= list[j].lastUsed)
    ensures old(pool.place).Keys <= pool.place.Keys && forall w | w in pool.place && w !in old(pool.place) :: fresh(w)
  {
    hide Sound, PlanNext;
    l := T.Limits(pool.idleTimeout, pool.maxWarmPerFunc);
    now, plan := start, Plan(CallsOf(pool.leases), []);
    ghost var calls := plan.calls;
    var nextTick := start + pool.idleTimeout / 2;
    NoStampsAtAll();
    T.OneStep(l, T.Start(l, start), T.Tick);
    for i := 0 to |events|
      invariant OnPlan(pool, l, start, plan, now, nextTick)
      invariant plan == PlanOf(l, start, calls, events[..i])
      invariant old(pool.place).Keys <= pool.place.Keys
      invariant forall w | w in pool.place && w !in old(pool.place) :: fresh(w)
    {
      assert events[..i + 1][..i] == events[..i];
      ghost var next := PlanNext(plan, pool.closed, events[i]);
      now, nextTick := Happen(pool, events[i], now, nextTick, l, start, plan);
      plan := next;
    }
    assert events[..|events|] == events;
    SoundLimit(pool.maxWarmPerFunc, pool.View());
    T.IdleBound(l, start, plan.ms, []);
    BoundOnStamps(pool, l, T.After(l, start, plan.ms));
  }

  /** After any run, a warm start takes the worker of its function that was used last. */
  method TakesFreshest(pool: WarmPoolManager, start: int, events: seq<TimedEvent>, call: nat, fn: string)
    returns (isWarm: bool, ghost idle: seq<WarmWorker>)
    requires pool.Valid() && !pool.closed && pool.workers == map[] && pool.idleTimeout >= 2
    modifies pool, set w | w in pool.place
    ensures isWarm ==>
              && call in pool.leases && pool.leases[call].worker in idle
              && (forall w <- idle :: w.lastUsed <= pool.leases[call].worker.lastUsed)
              && ListOf(pool.workers, fn) == idle[..|idle| - 1]
  {
    hide Sound, PlanOf, Stamps;
    isWarm, idle := false, [];
    var now, l, plan := Run(pool, start, events);
    if call !in pool.leases {
      idle := ListOf(pool.workers, fn);
      var ok;
      ok, isWarm := pool.Begin(call, fn);
    }
  }

  lemma SoundLimit(max: nat, b: Books)
    requires Sound(max, b)
    ensures max >= 1
  {
  }

  lemma FollowsFacts(pool: WarmPoolManager, l: T.Limits, p: T.Pool)
    requires Follows(pool, l, p)
    ensures l.idle == pool.idleTimeout
    ensures forall c | c in pool.leases :: pool.leases[c].worker in pool.place
  {
  }

  lemma FollowsAnyTime(pool: WarmPoolManager, l: T.Limits, p: T.Pool, now: int, nextTick: int)
    requires Follows(pool, l, p)
    ensures Follows(pool, l, p.(now := now, nextTick := nextTick))
  {
  }

  /** What the timed pool says of stamps is said of the workers. */
  lemma BoundOnStamps(pool: WarmPoolManager, l: T.Limits, p: T.Pool)
    requires Follows(pool, l, p)
    ensures forall fn | fn in pool.workers ::
              && fn in p.lists && |p.lists[fn]| == |pool.workers[fn]|
              && forall i | 0 <= i < |p.lists[fn]| :: pool.workers[fn][i].lastUsed == p.lists[fn][i]
  {
  }
}
