/**
 Termination and shutdown: every goroutine's work is bounded, something can always move until all are done, and what
 Close promises when it returns.
 */
module EngineDrain {
  import opened Domain
  import opened Engine
  import opened EngineCounting
  import opened EngineBase
  import opened EngineFaith
  import opened EngineTending
  import opened EngineOrder

  // A measure of the work left

  /** Steps a worker still has to take; four for each retry it may still be granted. */
  function StageWork(cfg: Config, at: Stage): nat {
    var r := Retries(cfg);
    match at
    case Queued => 9 + 4 * r
    case Holding => 8 + 4 * r
    case StartRead(_) => 7 + 4 * r
    case Calling(a) => 6 + 4 * Left(r, a)
    case Stumbled(a, _) => 9 + 4 * Left(r, a + 1)
    case RetryRead(a, _, _) => 8 + 4 * Left(r, a + 1)
    case Sleeping(a) => 7 + 4 * Left(r, a + 1)
    case Ending(_, _) => 5
    case EndRead(_, _, _, _) => 4
    case Metered(_, _, _, _) => 3
    case Releasing => 2
    case Leaving => 1
  }

  function Left(r: nat, a: nat): nat {
    if a >= r then 0 else r - a
  }

  /** Past the closed check and not finished: a call under way or a worker. */
  predicate Working(x: Proc) {
    !x.Arrived? && !x.CloseWaiting? && !x.Gone?
  }

  /** A call past the closed check that has not replied yet. */
  predicate InFlight(x: Proc) {
    Working(x) && !x.Worker?
  }

  /** The work a goroutine has left, including that of a worker it may spawn. */
  function Work(cfg: Config, x: Proc): nat {
    match x
    case Arrived(_) => 0
    case Admitted(_) => 14 + 4 * Retries(cfg)
    case SyncReady(_, _) => 4
    case SyncRunning(_, _) => 3
    case SyncRan(_) => 2
    case SyncCounted(_) => 1
    case AsyncReady(_, _) => 12 + 4 * Retries(cfg)
    case ReplayRead(_) => 13 + 4 * Retries(cfg)
    case ReplayReady(_, _) => 12 + 4 * Retries(cfg)
    case Spawning(_, _, counted) => (if counted then 10 else 11) + 4 * Retries(cfg)
    case Worker(_, at) => StageWork(cfg, at)
    case CloseWaiting => 0
    case Gone(_) => 0
  }

  /** The same, counting also what a call that has only arrived may turn into, and a waiting Close. */
  function Steps(cfg: Config, x: Proc): nat {
    if x.Arrived? then 15 + 4 * Retries(cfg) else if x.CloseWaiting? then 1 else Work(cfg, x)
  }

  function TotalWork(cfg: Config, procs: seq<Proc>): nat {
    if procs == [] then 0
    else TotalWork(cfg, procs[..|procs| - 1]) + Work(cfg, procs[|procs| - 1])
  }

  function TotalSteps(cfg: Config, procs: seq<Proc>): nat {
    if procs == [] then 0
    else TotalSteps(cfg, procs[..|procs| - 1]) + Steps(cfg, procs[|procs| - 1])
  }

  lemma TotalsAppend(cfg: Config, procs: seq<Proc>, x: Proc)
    ensures TotalWork(cfg, procs + [x]) == TotalWork(cfg, procs) + Work(cfg, x)
    ensures TotalSteps(cfg, procs + [x]) == TotalSteps(cfg, procs) + Steps(cfg, x)
  {
    assert (procs + [x])[..|procs|] == procs;
  }

  lemma {:induction false} TotalsUpdate(cfg: Config, procs: seq<Proc>, p: nat, x: Proc)
    requires p < |procs|
    ensures TotalWork(cfg, procs[p := x]) + Work(cfg, procs[p]) == TotalWork(cfg, procs) + Work(cfg, x)
    ensures TotalSteps(cfg, procs[p := x]) + Steps(cfg, procs[p]) == TotalSteps(cfg, procs) + Steps(cfg, x)
  {
    var n := |procs| - 1;
    if p == n {
      assert procs[p := x][..n] == procs[..n];
    } else {
      TotalsUpdate(cfg, procs[..n], p, x);
      assert procs[p := x][..n] == procs[..n][p := x];
    }
  }

  predicate MovesDown(cfg: Config, x: Proc, y: Proc) {
    Steps(cfg, x) > Steps(cfg, y) + (if Spawns(x) then 9 + 4 * Retries(cfg) else 0)
  }

  lemma WorkerMovesDown(cfg: Config, s: State, p: nat, job: Job, at: Stage, c: Choice, t: State)
    requires p < |s.procs| <= |t.procs| && s.procs[p] == Worker(job, at)
    requires WorkerNext(cfg, s, p, job, at, c) == Some(t)
    ensures MovesDown(cfg, s.procs[p], t.procs[p]) && !t.procs[p].Arrived? && !t.procs[p].CloseWaiting?
    ensures t.closed == s.closed
  {
    if at.Ending? || at.EndRead? || at.Metered? || at.Releasing? || at.Leaving? {
      EndMovesDown(cfg, s, p, job, at, c, t);
      hide WorkerNext;
    }
  }

  lemma EndMovesDown(cfg: Config, s: State, p: nat, job: Job, at: Stage, c: Choice, t: State)
    requires p < |s.procs| <= |t.procs| && WorkerNext(cfg, s, p, job, at, c) == Some(t)
    requires at.Ending? || at.EndRead? || at.Metered? || at.Releasing? || at.Leaving?
    ensures MovesDown(cfg, Worker(job, at), t.procs[p]) && !t.procs[p].Arrived? && !t.procs[p].CloseWaiting?
    ensures t.closed == s.closed
  {
  }

  lemma CallMovesDown(cfg: Config, s: State, p: nat, c: Choice, t: State)
    requires p < |s.procs| <= |t.procs| && CallNext(cfg, s, p, c) == Some(t)
    ensures MovesDown(cfg, s.procs[p], t.procs[p]) && !t.procs[p].Arrived?
    ensures t.procs[p].CloseWaiting? ==> s.procs[p].Arrived?
    ensures s.closed ==> t.closed
    ensures s.closed && s.procs[p].Arrived? ==> t.procs[p].CloseWaiting? || t.procs[p] == Gone(Unavailable)
  {
    if OfSyncCall(s.procs[p]) {
      SyncMovesDown(cfg, s, p, c, t);
      hide CallNext;
    }
  }

  lemma SyncMovesDown(cfg: Config, s: State, p: nat, c: Choice, t: State)
    requires p < |s.procs| <= |t.procs| && CallNext(cfg, s, p, c) == Some(t) && OfSyncCall(s.procs[p])
    ensures MovesDown(cfg, s.procs[p], t.procs[p]) && (t.procs[p].Gone? || OfSyncCall(t.procs[p])) && t.closed == s.closed
  {
  }

  lemma StepMovesDown(cfg: Config, s: State, p: nat, c: Choice, t: State)
    requires Next(cfg, s, Act(p, c)) == Some(t) && p < |s.procs| <= |t.procs|
    ensures MovesDown(cfg, s.procs[p], t.procs[p]) && !t.procs[p].Arrived?
    ensures t.procs[p].CloseWaiting? ==> s.procs[p].Arrived?
    ensures s.closed ==> t.closed
    ensures s.closed && s.procs[p].Arrived? ==> t.procs[p].CloseWaiting? || t.procs[p] == Gone(Unavailable)
  {
    hide WorkerNext, CallNext;
    match s.procs[p]
    case Worker(job, at) => WorkerMovesDown(cfg, s, p, job, at, c, t); WorkerShape(cfg, s, p, job, at, c, t);
    case Admitted(_) =>
    case _ => CallMovesDown(cfg, s, p, c, t);
  }

  /**
   Every step of a goroutine uses up some of the total, which only arrivals raise. Once the service is closed the
   work under way goes down with every step that is not a mere arrival being turned away, and nothing raises it.
   */
  lemma StepUsesUp(cfg: Config, s: State, a: Action, t: State)
    requires Next(cfg, s, a) == Some(t)
    ensures a.Arrive? ==> TotalSteps(cfg, t.procs) == TotalSteps(cfg, s.procs) + 15 + 4 * Retries(cfg)
    ensures a.Act? ==> TotalSteps(cfg, t.procs) < TotalSteps(cfg, s.procs)
    ensures s.closed ==> t.closed && TotalWork(cfg, t.procs) <= TotalWork(cfg, s.procs)
    ensures s.closed && a.Act? && a.p < |s.procs| && Working(s.procs[a.p]) ==>
              TotalWork(cfg, t.procs) < TotalWork(cfg, s.procs)
  {
    match a
    case Arrive(req) => TotalsAppend(cfg, s.procs, Arrived(req));
    case Act(p, c) => ActUsesUp(cfg, s, p, c, t);
  }

  lemma ActUsesUp(cfg: Config, s: State, p: nat, c: Choice, t: State)
    requires Next(cfg, s, Act(p, c)) == Some(t)
    ensures p < |s.procs| && TotalSteps(cfg, t.procs) < TotalSteps(cfg, s.procs)
    ensures s.closed ==> t.closed && TotalWork(cfg, t.procs) <= TotalWork(cfg, s.procs) - One(Working(s.procs[p]))
  {
    hide Next, TotalWork, TotalSteps;
    NextShape(cfg, s, Act(p, c), t);
    StepMovesDown(cfg, s, p, c, t);
    var x, y := s.procs[p], t.procs[p];
    TotalsUpdate(cfg, s.procs, p, y);
    if Spawns(x) {
      TotalsAppend(cfg, s.procs[p := y], Worker(x.job, Queued));
    }
    WorkAndSteps(cfg, x);
    WorkAndSteps(cfg, y);
  }

  lemma WorkAndSteps(cfg: Config, x: Proc)
    ensures Working(x) ==> Work(cfg, x) == Steps(cfg, x) > 0
    ensures !Working(x) ==> Work(cfg, x) == 0
  {
  }

  function Arrivals(acts: seq<Action>): nat {
    if acts == [] then 0 else (if acts[0].Arrive? then 1 else 0) + Arrivals(acts[1..])
  }

  /** No run goes on for ever: each call arriving pays for at most 15 + 4 * MaxRetries steps. */
  lemma {:induction false} RunsAreBounded(cfg: Config, s: State, acts: seq<Action>, t: State)
    requires Exec(cfg, s, acts) == Some(t)
    ensures |acts| + TotalSteps(cfg, t.procs) <=
            TotalSteps(cfg, s.procs) + (16 + 4 * Retries(cfg)) * Arrivals(acts)
    decreases |acts|
  {
    if acts != [] {
      var u := Next(cfg, s, acts[0]).value;
      StepUsesUp(cfg, s, acts[0], u);
      RunsAreBounded(cfg, u, acts[1..], t);
      OneMore(16 + 4 * Retries(cfg), Arrivals(acts[1..]));
    }
  }

  lemma OneMore(k: nat, n: nat)
    ensures k * (n + 1) == k * n + k
  {
  }

  /** The steps of a run that belong to calls under way and to workers. */
  function WorkingSteps(cfg: Config, s: State, acts: seq<Action>): nat
    decreases |acts|
  {
    if acts == [] then 0
    else match Next(cfg, s, acts[0])
      case None => 0
      case Some(t) =>
        One(acts[0].Act? && acts[0].p < |s.procs| && Working(s.procs[acts[0].p])) + WorkingSteps(cfg, t, acts[1..])
  }

  /** Drain: once closed, however many calls still arrive, the work under way is all the work there will be. */
  lemma {:induction false} ClosedServiceDrains(cfg: Config, s: State, acts: seq<Action>, t: State)
    requires s.closed && Exec(cfg, s, acts) == Some(t)
    ensures t.closed && WorkingSteps(cfg, s, acts) + TotalWork(cfg, t.procs) <= TotalWork(cfg, s.procs)
    decreases |acts|
  {
    if acts != [] {
      var u := Next(cfg, s, acts[0]).value;
      StepUsesUp(cfg, s, acts[0], u);
      ClosedServiceDrains(cfg, u, acts[1..], t);
    }
  }

  // Progress

  ghost predicate CanMove(cfg: Config, s: State, p: nat) {
    exists c :: Next(cfg, s, Act(p, c)).Some?
  }

  lemma MoveWith(cfg: Config, s: State, p: nat, c: Choice)
    requires Next(cfg, s, Act(p, c)).Some?
    ensures CanMove(cfg, s, p)
  {
  }

  lemma WorkerCanMove(cfg: Config, s: State, p: nat, job: Job, at: Stage)
    requires p < |s.procs| && s.procs[p] == Worker(job, at)
    requires at.Queued? ==> s.sem < cfg.capacity
    requires at.Releasing? ==> s.sem > 0
    requires at.Leaving? ==> s.wg > 0
    ensures CanMove(cfg, s, p)
  {
    var c := if at.Calling? then Ran(Err("")) else if at.Ending? then At(0) else Go;
    assert WorkerNext(cfg, s, p, job, at, c).Some?;
    MoveWith(cfg, s, p, c);
  }

  lemma CallCanMove(cfg: Config, s: State, p: nat)
    requires p < |s.procs| && !s.procs[p].Worker? && !s.procs[p].Gone?
    requires s.procs[p].CloseWaiting? ==> s.wg == 0
    requires s.procs[p].SyncCounted? ==> s.sem > 0
    requires Tagged(s.procs[p], s.store)
    ensures CanMove(cfg, s, p)
  {
    var x := s.procs[p];
    var c := match x
      case Admitted(req) => if req.ReplayCall? then Go else Missing
      case ReplayRead(_) => Missing
      case SyncReady(_, _) => if s.sem < cfg.capacity then Go else Full
      case SyncRunning(_, _) => Ran(Err(""))
      case AsyncReady(_, _) => At(0)
      case _ => Go;
    if x.Admitted? {
      assert LookUpNext(cfg, s, p, x.req, c).Some?;
    } else {
      assert CallNext(cfg, s, p, c).Some?;
    }
    MoveWith(cfg, s, p, c);
  }

  /** A goroutine holding a token is never blocked. */
  lemma HolderCanMove(cfg: Config, s: State, p: nat)
    requires Base(cfg, s) && p < |s.procs| && Plays(s.procs[p], SlotHolder)
    ensures CanMove(cfg, s, p)
  {
    AtLeastOne(s.procs, SlotHolder, p);
    assert Tagged(s.procs[p], s.store);
    if s.procs[p].Worker? {
      WorkerCanMove(cfg, s, p, s.procs[p].job, s.procs[p].at);
    } else {
      CallCanMove(cfg, s, p);
    }
  }

  lemma WaitedLeadsOn(cfg: Config, s: State, p: nat) returns (q: nat)
    requires Base(cfg, s) && cfg.capacity >= 1 && p < |s.procs| && Plays(s.procs[p], Waited)
    ensures CanMove(cfg, s, q)
  {
    AtLeastOne(s.procs, Waited, p);
    assert Tagged(s.procs[p], s.store);
    q := p;
    if s.procs[p].Worker? {
      var at := s.procs[p].at;
      if at.Queued? && s.sem >= cfg.capacity {
        q :| q in Cast(s.procs, SlotHolder);
        HolderCanMove(cfg, s, q);
      } else if Plays(s.procs[p], SlotHolder) {
        HolderCanMove(cfg, s, p);
      } else {
        WorkerCanMove(cfg, s, p, s.procs[p].job, at);
      }
    } else {
      CallCanMove(cfg, s, p);
    }
  }

  /** No deadlock: with a capacity of at least one, some goroutine can move until all of them are done. */
  lemma SomeoneCanMove(cfg: Config, s: State, p: nat) returns (q: nat)
    requires Base(cfg, s) && cfg.capacity >= 1 && p < |s.procs| && !s.procs[p].Gone?
    ensures CanMove(cfg, s, q)
  {
    q := p;
    assert Tagged(s.procs[p], s.store);
    if s.procs[p].Worker? {
      q := WaitedLeadsOn(cfg, s, p);
    } else if s.procs[p].CloseWaiting? && s.wg > 0 {
      var w :| w in Cast(s.procs, Waited);
      q := WaitedLeadsOn(cfg, s, w);
    } else if s.procs[p].SyncCounted? {
      HolderCanMove(cfg, s, p);
    } else {
      CallCanMove(cfg, s, p);
    }
  }

  predicate Quiescent(s: State) {
    forall p | 0 <= p < |s.procs| :: s.procs[p].Gone?
  }

  /** From every reachable state the engine can come to rest, every Close included. */
  lemma {:induction false} CanComeToRest(cfg: Config, s: State) returns (acts: seq<Action>, t: State)
    requires Base(cfg, s) && cfg.capacity >= 1
    ensures Exec(cfg, s, acts) == Some(t) && Quiescent(t)
    ensures |acts| <= TotalSteps(cfg, s.procs) && Arrivals(acts) == 0
    decreases TotalSteps(cfg, s.procs)
  {
    if Quiescent(s) {
      acts, t := [], s;
    } else {
      var p :| 0 <= p < |s.procs| && !s.procs[p].Gone?;
      var q := SomeoneCanMove(cfg, s, p);
      var c :| Next(cfg, s, Act(q, c)).Some?;
      var u := Next(cfg, s, Act(q, c)).value;
      StepUsesUp(cfg, s, Act(q, c), u);
      StepKeepsBase(cfg, s, Act(q, c), u);
      var rest;
      rest, t := CanComeToRest(cfg, u);
      acts := [Act(q, c)] + rest;
      assert acts[1..] == rest;
    }
  }

  // Close

  /** A spawning call's job names that call as its origin. */
  ghost predicate OwnOrigins(procs: seq<Proc>) {
    forall p | 0 <= p < |procs| :: procs[p].Spawning? ==> procs[p].job.origin == p
  }

  lemma CallKeepsOrigin(cfg: Config, s: State, p: nat, c: Choice, t: State)
    requires p < |s.procs| <= |t.procs| && CallNext(cfg, s, p, c) == Some(t)
    requires s.procs[p].Spawning? ==> s.procs[p].job.origin == p
    ensures t.procs[p].Spawning? ==> t.procs[p].job.origin == p
  {
    match s.procs[p]
    case AsyncReady(_, _) =>
    case ReplayRead(_) =>
    case ReplayReady(_, _) =>
    case Spawning(_, _, _) =>
    case _ =>
      NoJobYet(cfg, s, p, c, t);
      hide CallNext;
  }

  lemma CallAdmitsNobodyLate(cfg: Config, s: State, p: nat, c: Choice, t: State)
    requires p < |s.procs| <= |t.procs| && CallNext(cfg, s, p, c) == Some(t) && !s.procs[p].Worker?
    ensures InFlight(t.procs[p]) ==> InFlight(s.procs[p]) || (!s.closed && s.procs[p].Arrived?)
    ensures !t.procs[p].Worker?
  {
    CallMakesNoWorker(cfg, s, p, c, t);
    match s.procs[p]
    case Arrived(_) =>
    case CloseWaiting =>
    case Gone(_) =>
    case _ =>
  }

  lemma StepKeepsOrigin(cfg: Config, s: State, p: nat, c: Choice, t: State)
    requires p < |s.procs| <= |t.procs| && Next(cfg, s, Act(p, c)) == Some(t)
    requires s.procs[p].Spawning? ==> s.procs[p].job.origin == p
    ensures t.procs[p].Spawning? ==> t.procs[p].job.origin == p
    ensures InFlight(t.procs[p]) ==> InFlight(s.procs[p]) || (!s.closed && s.procs[p].Arrived?)
    ensures t.procs[p].Worker? ==> s.procs[p].Worker? && t.procs[p].job == s.procs[p].job
  {
    match s.procs[p]
    case Worker(job, at) => WorkerStores(cfg, s, p, job, at, c, t);
    case Admitted(_) =>
    case _ =>
      CallKeepsOrigin(cfg, s, p, c, t);
      CallAdmitsNobodyLate(cfg, s, p, c, t);
  }

  lemma StepKeepsOrigins(cfg: Config, s: State, a: Action, t: State)
    requires OwnOrigins(s.procs) && Next(cfg, s, a) == Some(t)
    ensures OwnOrigins(t.procs)
  {
    NextShape(cfg, s, a, t);
    if a.Act? { StepKeepsOrigin(cfg, s, a.p, a.choice, t); }
  }

  /** The calls that were under way, or the workers that were there, when the closed flag was seen set in `s`. */
  ghost predicate Descends(s: State, t: State, q: nat)
    requires q < |t.procs|
  {
    var y := t.procs[q];
    && (InFlight(y) ==> q < |s.procs| && InFlight(s.procs[q]))
    && (y.Worker? ==>
          || (q < |s.procs| && s.procs[q].Worker? && s.procs[q].job == y.job)
          || (y.job.origin < |s.procs| && InFlight(s.procs[y.job.origin])))
  }

  /**
   Once closed, no call is newly admitted, and every worker was there already or comes from a call that had passed
   the closed check before.
   */
  lemma {:induction false} LateWorkersWereAdmitted(cfg: Config, s: State, acts: seq<Action>, t: State)
    requires s.closed && OwnOrigins(s.procs) && Exec(cfg, s, acts) == Some(t)
    ensures t.closed && |s.procs| <= |t.procs|
    ensures forall q | 0 <= q < |t.procs| :: Descends(s, t, q)
    decreases |acts|
  {
    if acts != [] {
      var u := Next(cfg, s, acts[0]).value;
      StepUsesUp(cfg, s, acts[0], u);
      StepKeepsOrigins(cfg, s, acts[0], u);
      LateWorkersWereAdmitted(cfg, u, acts[1..], t);
      StepDescends(cfg, s, acts[0], u);
      forall q | 0 <= q < |t.procs| ensures Descends(s, t, q) {
        DescentChains(s, u, t, q);
      }
    }
  }

  lemma StepDescends(cfg: Config, s: State, a: Action, u: State)
    requires s.closed && OwnOrigins(s.procs) && Next(cfg, s, a) == Some(u)
    ensures |s.procs| <= |u.procs| && forall q | 0 <= q < |u.procs| :: Descends(s, u, q)
  {
    NextShape(cfg, s, a, u);
    if a.Act? { StepKeepsOrigin(cfg, s, a.p, a.choice, u); }
  }

  lemma DescentChains(s: State, u: State, t: State, q: nat)
    requires |s.procs| <= |u.procs| <= |t.procs| && q < |t.procs|
    requires forall i | 0 <= i < |u.procs| :: Descends(s, u, i)
    requires Descends(u, t, q)
    ensures Descends(s, t, q)
  {
    if q < |u.procs| { assert Descends(s, u, q); }
    if t.procs[q].Worker? && t.procs[q].job.origin < |u.procs| { assert Descends(s, u, t.procs[q].job.origin); }
    if q < |u.procs| && u.procs[q].Worker? && t.procs[q].Worker? { assert Descends(s, u, q); }
  }

  /** When Wait succeeds, no worker is live and none has been announced. */
  lemma WaitMeansNoWorker(cfg: Config, s: State, p: nat, c: Choice, t: State)
    requires Base(cfg, s) && p < |s.procs| && s.procs[p].CloseWaiting? && Next(cfg, s, Act(p, c)) == Some(t)
    ensures t == Goto(s, p, Gone(ClosedDown))
    ensures forall q | 0 <= q < |t.procs| :: !t.procs[q].Worker? && !(t.procs[q].Spawning? && t.procs[q].counted)
  {
    assert s.wg == 0;
    assert Cast(s.procs, Waited) == {};
    forall q | 0 <= q < |t.procs| ensures !t.procs[q].Worker? && !(t.procs[q].Spawning? && t.procs[q].counted) {
      if q != p && Plays(s.procs[q], Waited) { AtLeastOne(s.procs, Waited, q); }
    }
  }

  /** At rest for good: nothing runs, nothing waits in the semaphore, every record is finished. */
  ghost predicate AtRest(s: State) {
    && (forall q | 0 <= q < |s.procs| :: !Working(s.procs[q]))
    && s.sem == 0 && s.wg == 0
    && (forall id | id in s.store :: Terminal(s.store[id].status))
  }

  lemma NoWorkMeansRest(cfg: Config, s: State)
    requires Base(cfg, s) && Tended(s)
    requires forall q | 0 <= q < |s.procs| :: !Working(s.procs[q])
    ensures AtRest(s)
  {
    assert Cast(s.procs, Waited) == {} && s.wg == 0;
    assert Cast(s.procs, SlotHolder) == {} by {
      assert AllTagged(s.procs, s.store);
    }
    forall id | id in s.store ensures Terminal(s.store[id].status) {
      assert TendedAt(s, id);
    }
  }

  /** The flag is set and no call is past the closed check: a Close after the listeners have stopped. */
  ghost predicate QuietlyClosed(s: State) {
    s.closed && forall q | 0 <= q < |s.procs| :: !InFlight(s.procs[q])
  }

  lemma StepStaysQuiet(cfg: Config, s: State, a: Action, t: State)
    requires QuietlyClosed(s) && OwnOrigins(s.procs) && Next(cfg, s, a) == Some(t)
    ensures QuietlyClosed(t) && OwnOrigins(t.procs) && Disciplined(s, a)
  {
    StepUsesUp(cfg, s, a, t);
    StepKeepsOrigins(cfg, s, a, t);
    StepDescends(cfg, s, a, t);
    hide Next;
    forall q | 0 <= q < |t.procs| ensures !InFlight(t.procs[q]) {
      assert Descends(s, t, q);
    }
    if a.Act? && a.p < |s.procs| { assert !InFlight(s.procs[a.p]); }
  }

  /** Whoever still calls, a quietly closed service needs no discipline of its callers. */
  lemma {:induction false} QuietRunsAreDisciplined(cfg: Config, s: State, acts: seq<Action>, t: State)
    requires QuietlyClosed(s) && OwnOrigins(s.procs) && Exec(cfg, s, acts) == Some(t)
    ensures DisciplinedRun(cfg, s, acts) && QuietlyClosed(t) && OwnOrigins(t.procs)
    decreases |acts|
  {
    if acts != [] {
      var u := Next(cfg, s, acts[0]).value;
      StepStaysQuiet(cfg, s, acts[0], u);
      QuietRunsAreDisciplined(cfg, u, acts[1..], t);
    }
  }

  lemma QuietWaitMeansRest(cfg: Config, s: State)
    requires Base(cfg, s) && Tended(s) && QuietlyClosed(s) && s.wg == 0
    ensures AtRest(s)
  {
    forall q | 0 <= q < |s.procs| ensures !Working(s.procs[q]) {
      if s.procs[q].Worker? { AtLeastOne(s.procs, Waited, q); }
    }
    NoWorkMeansRest(cfg, s);
  }

  /**
   Close after the listeners have stopped: if no call is in flight when the flag is set, then at the moment the wait
   group is empty every record is finished, the semaphore is empty and nothing runs, and so it stays whatever comes.
   */
  lemma QuietCloseLeavesNothingBehind(cfg: Config, s: State, toWait: seq<Action>, u: State, after: seq<Action>, t: State)
    requires Base(cfg, s) && Tended(s) && OwnOrigins(s.procs) && QuietlyClosed(s)
    requires Exec(cfg, s, toWait) == Some(u) && u.wg == 0 && Exec(cfg, u, after) == Some(t)
    ensures AtRest(u) && AtRest(t) && t.store == u.store
  {
    QuietRunsAreDisciplined(cfg, s, toWait, u);
    RunStaysTended(cfg, s, toWait, u);
    QuietWaitMeansRest(cfg, u);
    RestIsForEver(cfg, u, after, t);
  }

  lemma RestStep(cfg: Config, s: State, a: Action, t: State)
    requires s.closed && AtRest(s) && Next(cfg, s, a) == Some(t)
    ensures t.closed && AtRest(t) && t.store == s.store
  {
    NextShape(cfg, s, a, t);
    match a
    case Arrive(_) =>
    case Act(p, c) =>
      assert !Working(s.procs[p]);
      IdleStep(cfg, s, p, c, t);
  }

  lemma IdleStep(cfg: Config, s: State, p: nat, c: Choice, t: State)
    requires p < |s.procs| && s.closed && !Working(s.procs[p]) && Next(cfg, s, Act(p, c)) == Some(t)
    ensures t == s.(procs := t.procs) && |t.procs| == |s.procs| && !Working(t.procs[p])
  {
  }

  lemma {:induction false} RestIsForEver(cfg: Config, s: State, acts: seq<Action>, t: State)
    requires s.closed && AtRest(s) && Exec(cfg, s, acts) == Some(t)
    ensures AtRest(t) && t.store == s.store
    decreases |acts|
  {
    if acts != [] {
      var u := Next(cfg, s, acts[0]).value;
      RestStep(cfg, s, acts[0], u);
      RestIsForEver(cfg, u, acts[1..], t);
    }
  }

  lemma {:induction false} ReturnedMeansRest(cfg: Config, s: State, p: nat, acts: seq<Action>, t: State)
    requires Base(cfg, s) && Tended(s) && OwnOrigins(s.procs) && QuietlyClosed(s)
    requires p < |s.procs| && s.procs[p].CloseWaiting?
    requires Exec(cfg, s, acts) == Some(t) && p < |t.procs| && t.procs[p].Gone?
    ensures AtRest(t)
    decreases |acts|
  {
    var a := acts[0];
    var u := Next(cfg, s, a).value;
    if a.Act? && a.p == p {
      QuietWaitMeansRest(cfg, s);
      RestIsForEver(cfg, s, acts, t);
    } else {
      NextShape(cfg, s, a, u);
      StepStaysQuiet(cfg, s, a, u);
      StepStaysTended(cfg, s, a, u);
      ReturnedMeansRest(cfg, u, p, acts[1..], t);
    }
  }

  /**
   The guarantee of Close, over all runs of any callers, whatever replays raced or ids were reused before: if no call is
   in flight when a Close sets the flag, then once that Close has returned every record is finished, the semaphore is
   empty and nothing runs.
   */
  lemma CloseGuarantee(cfg: Config, before: seq<Action>, r: State, p: nat, s: State, after: seq<Action>, t: State)
    requires Exec(cfg, INIT, before) == Some(r)
    requires forall q | 0 <= q < |r.procs| ::
               r.procs[q].Arrived? || r.procs[q].Worker? || r.procs[q].CloseWaiting? || r.procs[q].Gone?
    requires p < |r.procs| && r.procs[p] == Arrived(CloseCall) && Next(cfg, r, Act(p, Go)) == Some(s)
    requires Exec(cfg, s, after) == Some(t) && p < |t.procs| && t.procs[p].Gone?
    ensures forall q | 0 <= q < |t.procs| :: t.procs[q].Arrived? || t.procs[q].CloseWaiting? || t.procs[q].Gone?
    ensures t.closed && t.sem == 0 && t.wg == 0
    ensures forall id | id in t.store :: t.store[id].status == Completed || t.store[id].status == DeadLetter
  {
    InitBase(cfg);
    InitTended();
    RunStaysTended(cfg, INIT, before, r);
    RunKeepsOrigins(cfg, INIT, before, r);
    StepStaysTended(cfg, r, Act(p, Go), s);
    StepKeepsOrigins(cfg, r, Act(p, Go), s);
    ReturnedMeansRest(cfg, s, p, after, t);
    ClosedServiceDrains(cfg, s, after, t);
  }

  /**
   And such a Close must return, however the steps are scheduled: no run of the service is longer than the steps left
   and what each further call may add, and where nothing can move any more all goroutines, every Close among them, are
   done and the service is at rest.
   */
  lemma QuietCloseMustReturn(cfg: Config, s: State, acts: seq<Action>, t: State)
    requires Base(cfg, s) && Tended(s) && OwnOrigins(s.procs) && QuietlyClosed(s) && cfg.capacity >= 1
    requires Exec(cfg, s, acts) == Some(t)
    ensures |acts| <= TotalSteps(cfg, s.procs) + (16 + 4 * Retries(cfg)) * Arrivals(acts)
    ensures (forall q: nat :: !CanMove(cfg, t, q)) ==> Quiescent(t) && AtRest(t)
  {
    RunsAreBounded(cfg, s, acts, t);
    RunStaysTended(cfg, s, acts, t);
    if forall q: nat :: !CanMove(cfg, t, q) {
      forall p | 0 <= p < |t.procs| ensures t.procs[p].Gone? {
        if !t.procs[p].Gone? {
          var q := SomeoneCanMove(cfg, t, p);
          assert false;
        }
      }
      NoWorkMeansRest(cfg, t);
    }
  }

  /** And it can: some schedule of at most the steps left takes the service to rest. */
  lemma QuietCloseCanReturn(cfg: Config, s: State) returns (acts: seq<Action>, t: State)
    requires Base(cfg, s) && Tended(s) && OwnOrigins(s.procs) && QuietlyClosed(s) && cfg.capacity >= 1
    ensures Exec(cfg, s, acts) == Some(t) && |acts| <= TotalSteps(cfg, s.procs)
    ensures AtRest(t) && Quiescent(t)
  {
    acts, t := CanComeToRest(cfg, s);
    RunStaysTended(cfg, s, acts, t);
    NoWorkMeansRest(cfg, t);
  }

  lemma {:induction false} RunKeepsOrigins(cfg: Config, s: State, acts: seq<Action>, t: State)
    requires OwnOrigins(s.procs) && Exec(cfg, s, acts) == Some(t)
    ensures OwnOrigins(t.procs)
    decreases |acts|
  {
    if acts != [] {
      var u := Next(cfg, s, acts[0]).value;
      StepKeepsOrigins(cfg, s, acts[0], u);
      RunKeepsOrigins(cfg, u, acts[1..], t);
    }
  }
}
