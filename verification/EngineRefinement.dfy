/**
 The engine refines a machine in which every read-modify-write of a record is one atomic step: a worker's start, its
 note of a failure, its conclusion together with the metric, and a replay's test and requeueing. No goroutine of that
 machine ever holds a snapshot.
 */
module EngineRefinement {
  import opened Domain
  import opened Engine
  import opened EngineCounting
  import opened EngineBase
  import opened EngineFaith
  import opened EngineOrder
  import opened EngineAccounts

  function AtomStage(at: Stage): Stage {
    match at
    case StartRead(_) => Holding
    case RetryRead(a, m, _) => Stumbled(a, m)
    case EndRead(a, out, _, _) => Ending(a, out)
    case Metered(a, out, _, _) => Ending(a, out)
    case _ => at
  }

  /** A goroutine with its snapshot, and with it the steps since the snapshot was taken, forgotten. */
  function AtomProc(x: Proc): Proc {
    match x
    case ReplayRead(snap) => Admitted(ReplayCall(snap.id))
    case ReplayReady(snap, _) => Admitted(ReplayCall(snap.id))
    case Worker(job, at) => Worker(job, AtomStage(at))
    case _ => x
  }

  function AtomProcs(procs: seq<Proc>): (r: seq<Proc>)
    ensures |r| == |procs|
  {
    seq(|procs|, i requires 0 <= i < |procs| => AtomProc(procs[i]))
  }

  function Minus(a: nat, b: nat): nat {
    if a < b then 0 else a - b
  }

  /** The atomic state: metrics already recorded for conclusions not yet written are taken back. */
  function Atom(s: State): State {
    s.(procs := AtomProcs(s.procs),
       metrics := s.metrics.(deadLetter := Minus(s.metrics.deadLetter, |Cast(s.procs, MeteredDead)|),
                             completed := Minus(s.metrics.completed, |Cast(s.procs, MeteredDone)|)))
  }

  /** The atomic machine: reads and writes the current record in one step. */
  function AtomicNext(cfg: Config, s: State, a: Action): Option<State> {
    if a.Arrive? || a.p >= |s.procs| then Next(cfg, s, a)
    else match s.procs[a.p]
      case Admitted(ReplayCall(id)) => AtomicReplay(cfg, s, a.p, id, a.choice)
      case Worker(job, at) =>
        if job.id in s.store && (at.Holding? || at.Stumbled? || at.Ending?)
        then AtomicWorker(s, a.p, job, at, s.store[job.id], a.choice)
        else Next(cfg, s, a)
      case _ => Next(cfg, s, a)
  }

  function AtomicReplay(cfg: Config, s: State, p: nat, id: string, c: Choice): Option<State>
    requires p < |s.procs|
  {
    if id !in s.store then if c.Go? then Some(Goto(s, p, Gone(NotFound))) else None
    else
      var r := s.store[id];
      if !Replayable(r.status) then if c.Go? then Some(Goto(s, p, Gone(InvalidInput))) else None
      else if c.Missing? then Some(Goto(s, p, Gone(LookupFailed)))
      else if c.Found? then
        Some(Goto(s.(store := s.store[id := Requeued(r)]), p, Spawning(ReplayJob(cfg, r, c.fn, p), Requeued(r), false)))
      else None
  }

  function AtomicWorker(s: State, p: nat, job: Job, at: Stage, r: Record, c: Choice): Option<State>
    requires p < |s.procs|
  {
    match at
    case Holding =>
      if c.Go? then Some(Goto(s.(store := s.store[job.id := Started(r)]), p, Worker(job, Calling(0)))) else None
    case Stumbled(a, m) =>
      if c.Go? then Some(Goto(s.(store := s.store[job.id := Retried(r, a, m)]), p, Worker(job, Sleeping(a)))) else None
    case Ending(a, out) =>
      if c.At? then
        Some(Goto(s.(store := s.store[job.id := Finalised(r, a, out, c.now)],
                     metrics := CountOutcome(s.metrics, out),
                     lastRun := s.lastRun[job.id := p]), p, Worker(job, Releasing)))
      else None
    case _ => None
  }

  /** The steps that only prepare an atomic one. */
  predicate Hidden(s: State, a: Action) {
    a.Act? && a.p < |s.procs| &&
    match s.procs[a.p]
    case Admitted(ReplayCall(id)) => id in s.store && Replayable(s.store[id].status)
    case ReplayRead(_) => a.choice.Found?
    case Worker(job, at) => job.id in s.store && (at.Holding? || at.Stumbled? || at.Ending? || at.EndRead?)
    case _ => false
  }

  /** The atomic step a visible step stands for. */
  function AtomAct(s: State, a: Action): Action {
    if a.Arrive? || a.p >= |s.procs| then a
    else match s.procs[a.p]
      case ReplayReady(_, fn) => Act(a.p, Found(fn))
      case Worker(_, Metered(_, _, now, _)) => Act(a.p, At(now))
      case _ => a
  }

  lemma AtomProcsUpdate(procs: seq<Proc>, p: nat, x: Proc)
    requires p < |procs|
    ensures AtomProcs(procs[p := x]) == AtomProcs(procs)[p := AtomProc(x)]
  {
  }

  lemma AtomProcsAppend(procs: seq<Proc>, x: Proc)
    ensures AtomProcs(procs + [x]) == AtomProcs(procs) + [AtomProc(x)]
  {
  }

  lemma AtomProcsSame(procs: seq<Proc>, p: nat)
    requires p < |procs|
    ensures AtomProcs(procs)[p := AtomProc(procs[p])] == AtomProcs(procs)
  {
  }

  /** Taking metrics back commutes with a step: only the two steps of a conclusion see a difference. */
  lemma MetricsUncounted(cfg: Config, s: State, a: Action, t: State)
    requires Accounted(s) && Accounted(t) && Next(cfg, s, a) == Some(t) && a.Act? && a.p < |s.procs| <= |t.procs|
    ensures Atom(t).metrics.deadLetter + One(Plays(t.procs[a.p], MeteredDead)) + s.metrics.deadLetter ==
            Atom(s).metrics.deadLetter + One(Plays(s.procs[a.p], MeteredDead)) + t.metrics.deadLetter
    ensures Atom(t).metrics.completed + One(Plays(t.procs[a.p], MeteredDone)) + s.metrics.completed ==
            Atom(s).metrics.completed + One(Plays(s.procs[a.p], MeteredDone)) + t.metrics.completed
    ensures Atom(t).metrics.failed == t.metrics.failed && Atom(s).metrics.failed == s.metrics.failed
  {
    RoleDelta(cfg, s, a, t, MeteredDead);
    RoleDelta(cfg, s, a, t, MeteredDone);
  }

  /** What a hidden step of goroutine `p` leaves alone. */
  ghost predicate LeftAlone(s: State, p: nat, t: State)
    requires p < |s.procs| && p < |t.procs|
  {
    && t == s.(procs := t.procs, metrics := t.metrics)
    && AtomProc(t.procs[p]) == AtomProc(s.procs[p])
    && !Spawns(s.procs[p])
    && t.metrics.failed == s.metrics.failed
    && t.metrics.deadLetter + One(Plays(s.procs[p], MeteredDead)) ==
       s.metrics.deadLetter + One(Plays(t.procs[p], MeteredDead))
    && t.metrics.completed + One(Plays(s.procs[p], MeteredDone)) ==
       s.metrics.completed + One(Plays(t.procs[p], MeteredDone))
  }

  lemma HiddenLeaves(cfg: Config, s: State, p: nat, c: Choice, t: State)
    requires Next(cfg, s, Act(p, c)) == Some(t) && Hidden(s, Act(p, c))
    requires p < |s.procs| <= |t.procs| && Keyed(s.store)
    requires Tagged(s.procs[p], s.store)
    ensures LeftAlone(s, p, t)
  {
    hide WorkerNext, LookUpNext, CallNext, LeftAlone;
    match s.procs[p]
    case Worker(job, at) => HiddenWorkerLeaves(cfg, s, p, job, at, c, t);
    case Admitted(req) => HiddenLookUpLeaves(cfg, s, p, req, c, t);
    case ReplayRead(_) => HiddenReplayLeaves(cfg, s, p, c, t);
  }

  lemma HiddenWorkerLeaves(cfg: Config, s: State, p: nat, job: Job, at: Stage, c: Choice, t: State)
    requires p < |s.procs| <= |t.procs| && s.procs[p] == Worker(job, at) && WorkerNext(cfg, s, p, job, at, c) == Some(t)
    requires job.id in s.store && (at.Holding? || at.Stumbled? || at.Ending? || at.EndRead?)
    ensures LeftAlone(s, p, t)
  {
  }

  lemma HiddenLookUpLeaves(cfg: Config, s: State, p: nat, req: Request, c: Choice, t: State)
    requires p < |s.procs| <= |t.procs| && s.procs[p] == Admitted(req) && LookUpNext(cfg, s, p, req, c) == Some(t)
    requires req.ReplayCall? && req.id in s.store && Replayable(s.store[req.id].status) && Keyed(s.store)
    ensures LeftAlone(s, p, t)
  {
  }

  lemma HiddenReplayLeaves(cfg: Config, s: State, p: nat, c: Choice, t: State)
    requires p < |s.procs| <= |t.procs| && s.procs[p].ReplayRead? && c.Found? && CallNext(cfg, s, p, c) == Some(t)
    ensures LeftAlone(s, p, t)
  {
  }

  lemma HiddenStutters(cfg: Config, s: State, p: nat, c: Choice, t: State)
    requires Orderly(cfg, s) && Accounted(s) && Accounted(t)
    requires Next(cfg, s, Act(p, c)) == Some(t) && Hidden(s, Act(p, c))
    ensures Atom(t) == Atom(s)
  {
    assert Tagged(s.procs[p], s.store);
    NextShape(cfg, s, Act(p, c), t);
    HiddenLeaves(cfg, s, p, c, t);
    MetricsUncounted(cfg, s, Act(p, c), t);
    AtomProcsUpdate(s.procs, p, t.procs[p]);
    AtomProcsSame(s.procs, p);
  }

  /** `u` and `v` stand to each other as the atomic images of `s` and `t` do when goroutine `p` moves. */
  ghost predicate Mirrors(s: State, t: State, u: State, v: State, p: nat)
    requires p < |s.procs| && p < |t.procs|
  {
    && |u.procs| == |s.procs|
    && u == s.(procs := u.procs, metrics := u.metrics)
    && u.procs[p] == AtomProc(s.procs[p])
    && v == t.(procs := v.procs, metrics := v.metrics)
    && (if Spawns(s.procs[p])
        then v.procs == u.procs[p := AtomProc(t.procs[p])] + [Worker(s.procs[p].job, Queued)]
        else v.procs == u.procs[p := AtomProc(t.procs[p])])
    && v.metrics.failed + s.metrics.failed == u.metrics.failed + t.metrics.failed
    && v.metrics.deadLetter + One(Plays(t.procs[p], MeteredDead)) + s.metrics.deadLetter ==
       u.metrics.deadLetter + One(Plays(s.procs[p], MeteredDead)) + t.metrics.deadLetter
    && v.metrics.completed + One(Plays(t.procs[p], MeteredDone)) + s.metrics.completed ==
       u.metrics.completed + One(Plays(s.procs[p], MeteredDone)) + t.metrics.completed
  }

  lemma AtomsMirror(cfg: Config, s: State, p: nat, c: Choice, t: State)
    requires Accounted(s) && Accounted(t) && Next(cfg, s, Act(p, c)) == Some(t) && p < |s.procs|
    ensures p < |t.procs| && Mirrors(s, t, Atom(s), Atom(t), p)
  {
    NextShape(cfg, s, Act(p, c), t);
    MetricsUncounted(cfg, s, Act(p, c), t);
    AtomProcsUpdate(s.procs, p, t.procs[p]);
    if Spawns(s.procs[p]) {
      AtomProcsAppend(s.procs[p := t.procs[p]], Worker(s.procs[p].job, Queued));
    }
  }

  /** The writes, seen atomically: what the goroutine writes from its snapshot is what it would write from the store. */
  lemma WriteRefines(cfg: Config, s: State, p: nat, job: Job, at: Stage, c: Choice, t: State, u: State, v: State)
    requires p < |s.procs| && p < |t.procs| && Mirrors(s, t, u, v, p) && s.procs[p] == Worker(job, at) && Writes(at)
    requires WorkerNext(cfg, s, p, job, at, c) == Some(t)
    requires job.id in s.store && s.store[job.id] == at.snap && at.snap.id == job.id
    ensures AtomicWorker(u, p, job, AtomStage(at), u.store[job.id], if at.Metered? then At(at.now) else c) == Some(v)
  {
  }

  lemma RequeueRefines(cfg: Config, s: State, p: nat, c: Choice, t: State, u: State, v: State)
    requires p < |s.procs| && p < |t.procs| && Mirrors(s, t, u, v, p) && s.procs[p].ReplayReady?
    requires CallNext(cfg, s, p, c) == Some(t)
    requires var x := s.procs[p];
             x.snap.id in s.store && s.store[x.snap.id] == x.snap && x.snap.status == DeadLetter
    ensures AtomicReplay(cfg, u, p, s.procs[p].snap.id, Found(s.procs[p].fn)) == Some(v)
  {
  }

  lemma ReplayMissRefines(cfg: Config, s: State, p: nat, t: State, u: State, v: State)
    requires p < |s.procs| && p < |t.procs| && Mirrors(s, t, u, v, p) && s.procs[p].ReplayRead?
    requires CallNext(cfg, s, p, Missing) == Some(t)
    requires var x := s.procs[p]; x.snap.id in s.store && s.store[x.snap.id] == x.snap && x.snap.status == DeadLetter
    ensures AtomicReplay(cfg, u, p, s.procs[p].snap.id, Missing) == Some(v)
  {
  }

  /** The other steps of a worker are the same in both machines. */
  lemma PlainWorkerRefines(cfg: Config, s: State, p: nat, job: Job, at: Stage, c: Choice, t: State, u: State, v: State)
    requires p < |s.procs| && p < |t.procs| && Mirrors(s, t, u, v, p) && s.procs[p] == Worker(job, at)
    requires at.Queued? || at.Calling? || at.Sleeping? || at.Releasing? || at.Leaving?
    requires WorkerNext(cfg, s, p, job, at, c) == Some(t)
    ensures WorkerNext(cfg, u, p, job, at, c) == Some(v)
  {
  }

  lemma LookUpRefines(cfg: Config, s: State, p: nat, req: Request, c: Choice, t: State, u: State, v: State)
    requires p < |s.procs| && p < |t.procs| && Mirrors(s, t, u, v, p) && s.procs[p] == Admitted(req)
    requires LookUpNext(cfg, s, p, req, c) == Some(t)
    ensures !req.ReplayCall? ==> LookUpNext(cfg, u, p, req, c) == Some(v)
    ensures req.ReplayCall? && !(req.id in s.store && Replayable(s.store[req.id].status)) ==>
              AtomicReplay(cfg, u, p, req.id, c) == Some(v)
  {
  }

  lemma SyncRefines(cfg: Config, s: State, p: nat, c: Choice, t: State, u: State, v: State)
    requires p < |s.procs| && p < |t.procs| && Mirrors(s, t, u, v, p)
    requires OfSyncCall(s.procs[p])
    requires CallNext(cfg, s, p, c) == Some(t)
    ensures CallNext(cfg, u, p, c) == Some(v)
  {
  }

  lemma PlainCallRefines(cfg: Config, s: State, p: nat, c: Choice, t: State, u: State, v: State)
    requires p < |s.procs| && p < |t.procs| && Mirrors(s, t, u, v, p)
    requires s.procs[p].Arrived? || s.procs[p].AsyncReady? || s.procs[p].Spawning? || s.procs[p].CloseWaiting?
    requires CallNext(cfg, s, p, c) == Some(t)
    ensures CallNext(cfg, u, p, c) == Some(v)
  {
    hide CallNext, Mirrors;
    if s.procs[p].Arrived? || s.procs[p].CloseWaiting? {
      FlagRefines(cfg, s, p, c, t, u, v);
    } else {
      SpawnRefines(cfg, s, p, c, t, u, v);
    }
  }

  lemma FlagRefines(cfg: Config, s: State, p: nat, c: Choice, t: State, u: State, v: State)
    requires p < |s.procs| && p < |t.procs| && Mirrors(s, t, u, v, p)
    requires (s.procs[p].Arrived? || s.procs[p].CloseWaiting?) && CallNext(cfg, s, p, c) == Some(t)
    ensures CallNext(cfg, u, p, c) == Some(v)
  {
  }

  lemma SpawnRefines(cfg: Config, s: State, p: nat, c: Choice, t: State, u: State, v: State)
    requires p < |s.procs| && p < |t.procs| && Mirrors(s, t, u, v, p)
    requires (s.procs[p].AsyncReady? || s.procs[p].Spawning?) && CallNext(cfg, s, p, c) == Some(t)
    ensures CallNext(cfg, u, p, c) == Some(v)
  {
  }

  lemma VisibleWorkerRefines(cfg: Config, s: State, p: nat, c: Choice, t: State, u: State, v: State)
    requires p < |s.procs| && p < |t.procs| && Mirrors(s, t, u, v, p) && s.procs[p].Worker?
    requires Next(cfg, s, Act(p, c)) == Some(t) && !Hidden(s, Act(p, c)) && Tagged(s.procs[p], s.store)
    requires CarriesSnap(s.procs[p].at) ==> s.store[s.procs[p].job.id] == s.procs[p].at.snap
    ensures AtomicNext(cfg, u, AtomAct(s, Act(p, c))) == Some(v)
  {
    var Worker(job, at) := s.procs[p];
    if Writes(at) {
      WriteRefines(cfg, s, p, job, at, c, t, u, v);
    } else {
      PlainWorkerRefines(cfg, s, p, job, at, c, t, u, v);
    }
  }

  lemma VisibleReplayRefines(cfg: Config, s: State, p: nat, c: Choice, t: State, u: State, v: State)
    requires p < |s.procs| && p < |t.procs| && Mirrors(s, t, u, v, p)
    requires s.procs[p].ReplayRead? || s.procs[p].ReplayReady?
    requires Next(cfg, s, Act(p, c)) == Some(t) && !Hidden(s, Act(p, c)) && Tagged(s.procs[p], s.store)
    requires s.store[s.procs[p].snap.id] == s.procs[p].snap && s.procs[p].snap.status == DeadLetter
    ensures AtomicNext(cfg, u, AtomAct(s, Act(p, c))) == Some(v)
  {
    if s.procs[p].ReplayRead? {
      assert c == Missing;
      ReplayMissRefines(cfg, s, p, t, u, v);
    } else {
      RequeueRefines(cfg, s, p, c, t, u, v);
    }
  }

  lemma VisibleLookUpRefines(cfg: Config, s: State, p: nat, c: Choice, t: State, u: State, v: State)
    requires p < |s.procs| && p < |t.procs| && Mirrors(s, t, u, v, p) && s.procs[p].Admitted?
    requires Next(cfg, s, Act(p, c)) == Some(t) && !Hidden(s, Act(p, c)) && Tagged(s.procs[p], s.store)
    ensures AtomicNext(cfg, u, AtomAct(s, Act(p, c))) == Some(v)
  {
    LookUpRefines(cfg, s, p, s.procs[p].req, c, t, u, v);
  }

  lemma VisibleCallRefines(cfg: Config, s: State, p: nat, c: Choice, t: State, u: State, v: State)
    requires p < |s.procs| && p < |t.procs| && Mirrors(s, t, u, v, p)
    requires !s.procs[p].Worker? && !s.procs[p].Admitted? && !s.procs[p].ReplayRead? && !s.procs[p].ReplayReady?
    requires Next(cfg, s, Act(p, c)) == Some(t)
    ensures AtomicNext(cfg, u, AtomAct(s, Act(p, c))) == Some(v)
  {
    if OfSyncCall(s.procs[p]) {
      SyncRefines(cfg, s, p, c, t, u, v);
    } else if !s.procs[p].Gone? {
      PlainCallRefines(cfg, s, p, c, t, u, v);
    }
  }

  lemma VisibleRefines(cfg: Config, s: State, p: nat, c: Choice, t: State)
    requires Orderly(cfg, s) && Accounted(s) && Accounted(t) && p < |s.procs|
    requires Next(cfg, s, Act(p, c)) == Some(t) && !Hidden(s, Act(p, c))
    ensures AtomicNext(cfg, Atom(s), AtomAct(s, Act(p, c))) == Some(Atom(t))
  {
    var x, u, v := s.procs[p], Atom(s), Atom(t);
    assert Tagged(x, s.store) && LocalOk(cfg, x, s.store, TrailOf(s.log, p));
    AtomsMirror(cfg, s, p, c, t);
    SnapshotIsCurrent(cfg, s, p);
    if x.Worker? {
      VisibleWorkerRefines(cfg, s, p, c, t, u, v);
    } else if x.Admitted? {
      VisibleLookUpRefines(cfg, s, p, c, t, u, v);
    } else if x.ReplayRead? || x.ReplayReady? {
      VisibleReplayRefines(cfg, s, p, c, t, u, v);
    } else {
      VisibleCallRefines(cfg, s, p, c, t, u, v);
    }
  }

  lemma ArrivalRefines(cfg: Config, s: State, req: Request, t: State)
    requires Next(cfg, s, Arrive(req)) == Some(t)
    ensures AtomicNext(cfg, Atom(s), Arrive(req)) == Some(Atom(t))
  {
    AtomProcsAppend(s.procs, Arrived(req));
    CastAppend(s.procs, Arrived(req), MeteredDead);
    CastAppend(s.procs, Arrived(req), MeteredDone);
  }

  /** Every disciplined step is invisible to the atomic machine or is one step of it. */
  lemma StepRefines(cfg: Config, s: State, a: Action, t: State)
    requires Orderly(cfg, s) && Accounted(s) && Disciplined(s, a) && Next(cfg, s, a) == Some(t)
    ensures if Hidden(s, a) then Atom(t) == Atom(s)
            else AtomicNext(cfg, Atom(s), AtomAct(s, a)) == Some(Atom(t))
  {
    StepStaysAccounted(cfg, s, a, t);
    match a
    case Arrive(req) => ArrivalRefines(cfg, s, req, t);
    case Act(p, c) =>
      if Hidden(s, a) { HiddenStutters(cfg, s, p, c, t); } else { VisibleRefines(cfg, s, p, c, t); }
  }

  function AtomicExec(cfg: Config, s: State, acts: seq<Action>): Option<State>
    decreases |acts|
  {
    if acts == [] then Some(s)
    else match AtomicNext(cfg, s, acts[0])
      case None => None
      case Some(t) => AtomicExec(cfg, t, acts[1..])
  }

  /** The atomic schedule of a run: hidden steps dropped, the others translated. */
  function AtomicSchedule(cfg: Config, s: State, acts: seq<Action>): seq<Action>
    decreases |acts|
  {
    if acts == [] then []
    else match Next(cfg, s, acts[0])
      case None => []
      case Some(t) =>
        (if Hidden(s, acts[0]) then [] else [AtomAct(s, acts[0])]) + AtomicSchedule(cfg, t, acts[1..])
  }

  /** Refinement over whole runs: the same final state, reached in steps that read and write at once. */
  lemma {:induction false} RunRefines(cfg: Config, s: State, acts: seq<Action>, t: State)
    requires Orderly(cfg, s) && Accounted(s) && DisciplinedRun(cfg, s, acts) && Exec(cfg, s, acts) == Some(t)
    ensures AtomicExec(cfg, Atom(s), AtomicSchedule(cfg, s, acts)) == Some(Atom(t))
    decreases |acts|
  {
    if acts != [] {
      var u := Next(cfg, s, acts[0]).value;
      StepRefines(cfg, s, acts[0], u);
      StepStaysOrderly(cfg, s, acts[0], u);
      StepStaysAccounted(cfg, s, acts[0], u);
      RunRefines(cfg, u, acts[1..], t);
      var rest := AtomicSchedule(cfg, u, acts[1..]);
      if !Hidden(s, acts[0]) {
        assert ([AtomAct(s, acts[0])] + rest)[1..] == rest;
      } else {
        assert [] + rest == rest;
      }
    }
  }

  /** Every disciplined run from the start is, with its read and write steps merged, a run of the atomic machine. */
  lemma EngineRefinesAtomicMachine(cfg: Config, acts: seq<Action>, t: State)
    requires DisciplinedRun(cfg, INIT, acts) && Exec(cfg, INIT, acts) == Some(t)
    ensures AtomicExec(cfg, INIT, AtomicSchedule(cfg, INIT, acts)) == Some(Atom(t))
    ensures Atom(t).store == t.store
  {
    InitOrderly(cfg);
    InitAccounted();
    RunRefines(cfg, INIT, acts, t);
    assert Cast([], MeteredDead) == {} && Cast([], MeteredDone) == {};
    assert AtomProcs([]) == [];
    assert Atom(INIT) == INIT;
  }
}
