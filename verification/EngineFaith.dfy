/**
 Faithfulness: with fresh ids, and however replays race, the fixed part of a record never changes and every runner
 call made for it, first run or replay, gets the original payload, trace id and caller, and the function it names.
 */
module EngineFaith {
  import opened Domain
  import opened Backoff
  import opened Engine
  import opened EngineCounting
  import opened EngineBase

  /**
   A worker's arguments agree with the record it works for. Only a replay loses the content type, and its function is
   what the repository has filed under the record's function id.
   */
  predicate JobFaithful(cfg: Config, filed: Filing, store: map<string, Record>, job: Job) {
    && job.id in store
    && var r := store[job.id];
    && job.payload == r.payload
    && job.traceID == r.traceID
    && job.caller == r.caller
    && (if job.replayed then filed(r.functionID, job.fn) else job.fn.id == r.functionID)
    && (job.replayed <==> job.contentType == "")
    && 0 < job.timeout <= cfg.maxTimeout
  }

  predicate SnapFaithful(store: map<string, Record>, snap: Record) {
    snap.id in store && CoreOf(snap) == CoreOf(store[snap.id])
  }

  predicate Faithful(cfg: Config, filed: Filing, x: Proc, store: map<string, Record>) {
    match x
    case ReplayRead(snap) => SnapFaithful(store, snap)
    case ReplayReady(snap, fn) => SnapFaithful(store, snap) && filed(snap.functionID, fn)
    case Spawning(job, inv, _) => JobFaithful(cfg, filed, store, job) && SnapFaithful(store, inv) && inv.id == job.id
    case Worker(job, at) => JobFaithful(cfg, filed, store, job) && (CarriesSnap(at) ==> SnapFaithful(store, at.snap))
    case _ => true
  }

  /** Every record of the first store is still there with its fixed part unchanged. */
  ghost predicate CoresKept(store: map<string, Record>, store': map<string, Record>) {
    forall id | id in store :: id in store' && CoreOf(store'[id]) == CoreOf(store[id])
  }

  ghost predicate Faith(cfg: Config, filed: Filing, s: State) {
    && Base(cfg, s)
    && (forall p | 0 <= p < |s.procs| :: Faithful(cfg, filed, s.procs[p], s.store))
    && (forall e <- s.log :: e.Called? ==> JobFaithful(cfg, filed, s.store, e.job))
  }

  lemma TimeoutsClamped(cfg: Config, requested: int)
    requires Normalised(cfg)
    ensures 0 < ResolveTimeout(cfg, requested) <= cfg.maxTimeout
    ensures 0 < requested <= cfg.maxTimeout ==> ResolveTimeout(cfg, requested) == requested
  {
  }

  /** The timeout of a direct call's job: the caller's, else the function's, else the default, capped by the maximum. */
  lemma NewJobTimeout(cfg: Config, req: Request, fn: Function, p: nat)
    requires req.AsyncCall?
    ensures var t := NewJob(cfg, req, fn, p).timeout;
            && (req.timeout > 0 ==> t == Least(req.timeout, cfg.maxTimeout))
            && (req.timeout <= 0 && fn.timeoutSec <= 0 ==> t == cfg.defaultTimeout)
            && (req.timeout <= 0 && 0 < fn.timeoutSec <= 9_223_372_036 ==>
                  t == Least(fn.timeoutSec * 1_000_000_000, cfg.maxTimeout))
  {
    if 0 < fn.timeoutSec <= 9_223_372_036 { FunctionTimeoutFits(fn); }
  }

  /** The timeout of a replay's job: the function's, capped by the maximum, else the default. */
  lemma ReplayJobTimeout(cfg: Config, r: Record, fn: Function, p: nat)
    ensures var t := ReplayJob(cfg, r, fn, p).timeout;
            && (0 < fn.timeoutSec <= 9_223_372_036 ==> t == Least(fn.timeoutSec * 1_000_000_000, cfg.maxTimeout))
            && (-9_223_372_036 <= fn.timeoutSec <= 0 ==> t == cfg.defaultTimeout)
  {
    if -9_223_372_036 <= fn.timeoutSec <= 9_223_372_036 { FunctionTimeoutFits(fn); }
  }

  /**
   A replay's job runs under what the job of a call without a timeout of its own would, unless a negative setting of
   the function wraps around to a positive one.
   */
  lemma ReplayTimeoutAgrees(cfg: Config, r: Record, p: nat, req: Request, q: nat, fn: Function)
    requires Normalised(cfg) && req.AsyncCall? && req.timeout <= 0
    ensures ReplayJob(cfg, r, fn, p).timeout == NewJob(cfg, req, fn, q).timeout <==>
            || fn.timeoutSec > 0
            || FunctionTimeout(fn) <= 0
            || Least(FunctionTimeout(fn), cfg.maxTimeout) == cfg.defaultTimeout
    ensures fn.timeoutSec >= -9_223_372_036 ==> ReplayJob(cfg, r, fn, p).timeout == NewJob(cfg, req, fn, q).timeout
  {
    if -9_223_372_036 <= fn.timeoutSec <= 0 { FunctionTimeoutFits(fn); }
  }

  /**
   With the default settings of 120 and 900 seconds: one second more than fits runs under the default instead of the
   maximum; far more than fits is right by luck; and a negative setting makes a replay run under the maximum.
   */
  lemma OversizedTimeouts(cfg: Config, r: Record, p: nat, req: Request, q: nat, fn: Function)
    requires cfg.defaultTimeout == 120_000_000_000 && cfg.maxTimeout == 900_000_000_000
    requires req.AsyncCall? && req.timeout <= 0
    ensures fn.timeoutSec == 9_223_372_037 ==> NewJob(cfg, req, fn, q).timeout == 120_000_000_000
    ensures fn.timeoutSec == 20_000_000_000 ==> NewJob(cfg, req, fn, q).timeout == 900_000_000_000
    ensures fn.timeoutSec == -9_223_372_037 ==>
              ReplayJob(cfg, r, fn, p).timeout == 900_000_000_000 && NewJob(cfg, req, fn, q).timeout == 120_000_000_000
  {
  }

  lemma WritesKeepCores(store: map<string, Record>, r: Record)
    requires Keyed(store) && SnapFaithful(store, r)
    ensures CoresKept(store, Put(store, r)) && SnapFaithful(Put(store, r), r)
  {
  }

  lemma FaithfulGrows(cfg: Config, filed: Filing, x: Proc, store: map<string, Record>, store': map<string, Record>)
    requires Faithful(cfg, filed, x, store) && CoresKept(store, store')
    ensures Faithful(cfg, filed, x, store')
  {
    match x
    case Spawning(job, inv, _) => JobFaithfulGrows(cfg, filed, job, store, store');
    case Worker(job, _) => JobFaithfulGrows(cfg, filed, job, store, store');
    case _ =>
  }

  lemma JobFaithfulGrows(cfg: Config, filed: Filing, job: Job, store: map<string, Record>, store': map<string, Record>)
    requires JobFaithful(cfg, filed, store, job) && CoresKept(store, store')
    ensures JobFaithful(cfg, filed, store', job)
  {
    assert CoreOf(store'[job.id]) == CoreOf(store[job.id]);
  }

  /** What one step does to the fixed parts. */
  ghost predicate FaithMoves(cfg: Config, filed: Filing, s: State, p: nat, t: State)
    requires p < |s.procs| <= |t.procs|
  {
    && CoresKept(s.store, t.store)
    && Faithful(cfg, filed, t.procs[p], t.store)
  }

  lemma StepMovesFaith(cfg: Config, filed: Filing, s: State, p: nat, c: Choice, t: State)
    requires Normalised(cfg) && p < |s.procs| <= |t.procs| && Next(cfg, s, Act(p, c)) == Some(t)
    requires FreshID(s, Act(p, c)) && AnsweredBy(filed, s, Act(p, c)) && Keyed(s.store)
    requires Tagged(s.procs[p], s.store) && Faithful(cfg, filed, s.procs[p], s.store)
    ensures FaithMoves(cfg, filed, s, p, t)
  {
    match s.procs[p]
    case Worker(job, at) => WorkerMovesFaith(cfg, filed, s, p, job, at, c, t);
    case Admitted(req) => LookUpMovesFaith(cfg, filed, s, p, req, c, t);
    case AsyncReady(req, fn) => CreateMovesFaith(cfg, filed, s, p, c, t);
    case ReplayReady(snap, fn) => RequeueMovesFaith(cfg, filed, s, p, c, t);
    case _ => CallMovesFaith(cfg, filed, s, p, c, t);
  }

  lemma LookUpMovesFaith(cfg: Config, filed: Filing, s: State, p: nat, req: Request, c: Choice, t: State)
    requires p < |s.procs| <= |t.procs| && LookUpNext(cfg, s, p, req, c) == Some(t) && Keyed(s.store)
    ensures FaithMoves(cfg, filed, s, p, t)
  {
    hide JobFaithful, CoreOf, CallTimeout;
  }

  lemma CallMovesFaith(cfg: Config, filed: Filing, s: State, p: nat, c: Choice, t: State)
    requires p < |s.procs| <= |t.procs| && CallNext(cfg, s, p, c) == Some(t)
    requires !s.procs[p].AsyncReady? && !s.procs[p].ReplayReady?
    requires Faithful(cfg, filed, s.procs[p], s.store) && AnsweredBy(filed, s, Act(p, c))
    ensures FaithMoves(cfg, filed, s, p, t)
  {
    hide JobFaithful, SnapFaithful, CoreOf;
    match s.procs[p]
    case ReplayRead(_) =>
    case Spawning(_, _, _) =>
    case _ => NoJobYet(cfg, s, p, c, t);
  }

  lemma NoJobYet(cfg: Config, s: State, p: nat, c: Choice, t: State)
    requires p < |s.procs| <= |t.procs| && CallNext(cfg, s, p, c) == Some(t)
    requires !s.procs[p].AsyncReady? && !s.procs[p].ReplayReady? && !s.procs[p].Spawning? && !s.procs[p].ReplayRead?
    ensures t.store == s.store && !t.procs[p].Spawning? && !t.procs[p].Worker?
    ensures !t.procs[p].ReplayRead? && !t.procs[p].ReplayReady?
  {
  }

  lemma CallLeavesStore(cfg: Config, s: State, p: nat, c: Choice, t: State)
    requires p < |s.procs| <= |t.procs| && CallNext(cfg, s, p, c) == Some(t)
    requires !s.procs[p].AsyncReady? && !s.procs[p].ReplayReady?
    ensures t.store == s.store
  {
  }

  lemma CallMakesNoWorker(cfg: Config, s: State, p: nat, c: Choice, t: State)
    requires p < |s.procs| <= |t.procs| && CallNext(cfg, s, p, c) == Some(t)
    ensures !t.procs[p].Worker?
  {
  }

  lemma CreateMovesFaith(cfg: Config, filed: Filing, s: State, p: nat, c: Choice, t: State)
    requires Normalised(cfg) && p < |s.procs| <= |t.procs| && CallNext(cfg, s, p, c) == Some(t)
    requires s.procs[p].AsyncReady? && s.procs[p].req.AsyncCall? && s.procs[p].req.id !in s.store
    ensures FaithMoves(cfg, filed, s, p, t)
  {
    var x := s.procs[p];
    TimeoutsClamped(cfg, x.req.timeout);
    TimeoutsClamped(cfg, FunctionTimeout(x.fn));
  }

  lemma RequeueMovesFaith(cfg: Config, filed: Filing, s: State, p: nat, c: Choice, t: State)
    requires Normalised(cfg) && p < |s.procs| <= |t.procs| && CallNext(cfg, s, p, c) == Some(t)
    requires s.procs[p].ReplayReady? && Keyed(s.store)
    requires Tagged(s.procs[p], s.store) && Faithful(cfg, filed, s.procs[p], s.store)
    ensures FaithMoves(cfg, filed, s, p, t)
  {
    var x := s.procs[p];
    TimeoutsClamped(cfg, FunctionTimeout(x.fn));
    WritesKeepCores(s.store, Requeued(x.snap));
  }

  lemma WorkerMovesFaith(cfg: Config, filed: Filing, s: State, p: nat, job: Job, at: Stage, c: Choice, t: State)
    requires p < |s.procs| <= |t.procs| && WorkerNext(cfg, s, p, job, at, c) == Some(t)
    requires s.procs[p] == Worker(job, at) && Keyed(s.store)
    requires Tagged(s.procs[p], s.store) && Faithful(cfg, filed, s.procs[p], s.store)
    ensures FaithMoves(cfg, filed, s, p, t)
  {
    WorkerStores(cfg, s, p, job, at, c, t);
    if Writes(at) {
      WritesKeepCores(s.store, Written(at));
    }
  }

  predicate Writes(at: Stage) {
    at.StartRead? || at.RetryRead? || at.Metered?
  }

  /** The record a worker writes from its snapshot. */
  function Written(at: Stage): Record
    requires Writes(at)
  {
    match at
    case StartRead(snap) => Started(snap)
    case RetryRead(attempt, message, snap) => Retried(snap, attempt, message)
    case Metered(attempt, out, now, snap) => Finalised(snap, attempt, out, now)
  }

  /** A worker's step either writes its snapshot back, changed, or leaves the store alone. */
  lemma WorkerStores(cfg: Config, s: State, p: nat, job: Job, at: Stage, c: Choice, t: State)
    requires p < |s.procs| && WorkerNext(cfg, s, p, job, at, c) == Some(t)
    ensures t.store == if Writes(at) then Put(s.store, Written(at)) else s.store
    ensures |t.procs| == |s.procs|
    ensures t.procs[p] == Gone(WorkerExited) ||
            (t.procs[p].Worker? && t.procs[p].job == job &&
             (CarriesSnap(t.procs[p].at) ==>
                (at.EndRead? && t.procs[p].at.snap == at.snap) ||
                (job.id in s.store && t.procs[p].at.snap == s.store[job.id])))
    ensures Writes(at) ==> t.procs[p].Worker? && !CarriesSnap(t.procs[p].at)
  {
  }

  /** A worker gives its record up only by finishing it. */
  lemma WorkerGivesUpFinished(cfg: Config, s: State, p: nat, job: Job, at: Stage, c: Choice, t: State)
    requires p < |s.procs| && WorkerNext(cfg, s, p, job, at, c) == Some(t) && job.id in s.store
    ensures |t.procs| == |s.procs|
    ensures Owning(Worker(job, at)) && !Owning(t.procs[p]) ==> at.Metered?
    ensures !Owning(Worker(job, at)) ==> !Writes(at)
    ensures Owning(t.procs[p]) ==> t.procs[p].job == job
    ensures t.procs[p].Worker? && t.procs[p].at.RetryRead? ==> Owning(Worker(job, at)) && !at.EndRead?
    ensures !Owning(Worker(job, at)) ==> !Owning(t.procs[p])
    ensures Owning(Worker(job, at)) && at.Metered? ==> !Owning(t.procs[p])
  {
  }

  lemma StepLogsFaithfully(cfg: Config, s: State, p: nat, c: Choice, t: State, e: Event)
    requires Next(cfg, s, Act(p, c)) == Some(t) && t.log == s.log + [e] && e.Called?
    ensures s.procs[p].Worker? && e.job == s.procs[p].job && t.store == s.store
  {
    StepLogs(cfg, s, p, c, t);
    assert |t.log| != |s.log|;
    match s.procs[p]
    case Worker(job, at) => WorkerLogsItsJob(cfg, s, p, job, at, c, t, e);
    case Admitted(_) =>
    case _ => CallLogs(cfg, s, p, c, t);
  }

  lemma WorkerLogsItsJob(cfg: Config, s: State, p: nat, job: Job, at: Stage, c: Choice, t: State, e: Event)
    requires p < |s.procs| && WorkerNext(cfg, s, p, job, at, c) == Some(t) && t.log == s.log + [e] && e.Called?
    ensures e.job == job && t.store == s.store
  {
    assert t.log[|s.log|] == e;
    assert |t.log| == |s.log| + 1;
  }

  lemma ProcsStayFaithful(cfg: Config, filed: Filing, s: State, p: nat, c: Choice, t: State)
    requires Normalised(cfg) && Faith(cfg, filed, s) && FreshID(s, Act(p, c)) && AnsweredBy(filed, s, Act(p, c)) && Next(cfg, s, Act(p, c)) == Some(t)
    ensures CoresKept(s.store, t.store)
    ensures forall q | 0 <= q < |t.procs| :: Faithful(cfg, filed, t.procs[q], t.store)
  {
    NextShape(cfg, s, Act(p, c), t);
    StepMovesFaith(cfg, filed, s, p, c, t);
    hide Next, JobFaithful, SnapFaithful, CoresKept, Base;
    forall q | 0 <= q < |t.procs| ensures Faithful(cfg, filed, t.procs[q], t.store) {
      if q < |s.procs| && q != p {
        FaithfulGrows(cfg, filed, s.procs[q], s.store, t.store);
      } else if q >= |s.procs| {
        assert Faithful(cfg, filed, s.procs[p], s.store);
        JobFaithfulGrows(cfg, filed, s.procs[p].job, s.store, t.store);
      }
    }
  }

  lemma LogStaysFaithful(cfg: Config, filed: Filing, s: State, p: nat, c: Choice, t: State)
    requires Faith(cfg, filed, s) && p < |s.procs| && Next(cfg, s, Act(p, c)) == Some(t) && CoresKept(s.store, t.store)
    ensures forall e <- t.log | e.Called? :: JobFaithful(cfg, filed, t.store, e.job)
  {
    StepLogs(cfg, s, p, c, t);
    hide Next, JobFaithful, CoresKept, Base;
    assert Faithful(cfg, filed, s.procs[p], s.store);
    forall e <- t.log | e.Called? ensures JobFaithful(cfg, filed, t.store, e.job) {
      if e in s.log {
        JobFaithfulGrows(cfg, filed, e.job, s.store, t.store);
      } else {
        StepLogsFaithfully(cfg, s, p, c, t, e);
      }
    }
  }

  lemma StepKeepsFaith(cfg: Config, filed: Filing, s: State, a: Action, t: State)
    requires Normalised(cfg) && Faith(cfg, filed, s) && FreshID(s, a) && AnsweredBy(filed, s, a) && Next(cfg, s, a) == Some(t)
    ensures Faith(cfg, filed, t) && CoresKept(s.store, t.store)
  {
    StepKeepsBase(cfg, s, a, t);
    NextShape(cfg, s, a, t);
    match a
    case Arrive(_) =>
    case Act(p, c) =>
      ProcsStayFaithful(cfg, filed, s, p, c, t);
      LogStaysFaithful(cfg, filed, s, p, c, t);
      hide Next, Base, JobFaithful, CoresKept;
  }

  lemma InitFaith(cfg: Config, filed: Filing)
    ensures Faith(cfg, filed, INIT)
  {
    InitBase(cfg);
  }

  /** Over a whole run with fresh ids no record loses or changes its fixed part. */
  lemma {:induction false} RunKeepsCores(cfg: Config, filed: Filing, s: State, acts: seq<Action>, t: State)
    requires Normalised(cfg) && Faith(cfg, filed, s) && FreshRun(cfg, filed, s, acts) && Exec(cfg, s, acts) == Some(t)
    ensures Faith(cfg, filed, t) && CoresKept(s.store, t.store)
    decreases |acts|
  {
    if acts != [] {
      var u := Next(cfg, s, acts[0]).value;
      StepKeepsFaith(cfg, filed, s, acts[0], u);
      RunKeepsCores(cfg, filed, u, acts[1..], t);
    }
  }

  /**
   Replay faithfulness under every interleaving with fresh ids, racing replays included: whatever the runner was
   called with for an id is what that id's record has held since it was created. A replay's function is one the function
   repository has `filed` under the record's function id.
   */
  lemma RunnerGetsOriginal(cfg: Config, filed: Filing, before: seq<Action>, after: seq<Action>, s: State, t: State)
    requires Normalised(cfg) && FreshRun(cfg, filed, INIT, before) && Exec(cfg, INIT, before) == Some(s)
    requires FreshRun(cfg, filed, s, after) && Exec(cfg, s, after) == Some(t)
    ensures forall id | id in s.store :: id in t.store && CoreOf(t.store[id]) == CoreOf(s.store[id])
    ensures forall e <- t.log | e.Called? && e.job.id in s.store ::
              && e.job.payload == s.store[e.job.id].payload
              && e.job.traceID == s.store[e.job.id].traceID
              && e.job.caller == s.store[e.job.id].caller
              && (if e.job.replayed then filed(s.store[e.job.id].functionID, e.job.fn)
                  else e.job.fn.id == s.store[e.job.id].functionID)
              && (e.job.replayed <==> e.job.contentType == "")
              && 0 < e.job.timeout <= cfg.maxTimeout
  {
    InitFaith(cfg, filed);
    RunKeepsCores(cfg, filed, INIT, before, s);
    RunKeepsCores(cfg, filed, s, after, t);
    forall e <- t.log | e.Called? && e.job.id in s.store
      ensures JobFaithful(cfg, filed, t.store, e.job) && CoreOf(t.store[e.job.id]) == CoreOf(s.store[e.job.id])
    {
    }
  }
}
