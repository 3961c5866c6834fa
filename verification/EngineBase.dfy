/**
 What holds in every reachable state, whatever the callers do: the semaphore and the wait group count exactly the
 goroutines that hold them, and every goroutine's record exists.
 */
module EngineBase {
  import opened Domain
  import opened Engine
  import opened EngineCounting

  predicate CarriesSnap(at: Stage) {
    at.StartRead? || at.RetryRead? || at.EndRead? || at.Metered?
  }

  predicate Tagged(x: Proc, store: map<string, Record>) {
    match x
    case Admitted(req) => !req.CloseCall?
    case AsyncReady(req, _) => req.AsyncCall?
    case SyncCounted(reply) => reply.Returned? || reply.RunnerFailed?
    case ReplayRead(snap) => snap.id in store
    case ReplayReady(snap, _) => snap.id in store
    case Spawning(job, _, _) => job.id in store
    case Worker(job, at) => job.id in store && (CarriesSnap(at) ==> at.snap.id == job.id)
    case _ => true
  }

  ghost predicate AllTagged(procs: seq<Proc>, store: map<string, Record>) {
    forall p | 0 <= p < |procs| :: Tagged(procs[p], store)
  }

  ghost predicate Keyed(store: map<string, Record>) {
    forall id | id in store :: store[id].id == id
  }

  ghost predicate LogInRange(log: seq<Event>, n: nat) {
    forall e <- log :: e.p < n
  }

  /** The tokens in the semaphore and the wait-group counter are exactly the goroutines between taking and giving back. */
  ghost predicate Counted(cfg: Config, s: State) {
    && s.sem == |Cast(s.procs, SlotHolder)| <= cfg.capacity
    && s.wg == |Cast(s.procs, Waited)|
    && s.metrics.failed == |Cast(s.procs, SyncFailure)|
  }

  ghost predicate Base(cfg: Config, s: State) {
    && Counted(cfg, s)
    && AllTagged(s.procs, s.store)
    && Keyed(s.store)
    && LogInRange(s.log, |s.procs|)
  }

  lemma InitBase(cfg: Config)
    ensures Base(cfg, INIT)
  {
    assert Cast([], SlotHolder) == {} && Cast([], Waited) == {} && Cast([], SyncFailure) == {};
  }

  /** The counters move with the goroutine that moves. */
  ghost predicate TokensMove(cfg: Config, s: State, p: nat, t: State)
    requires p < |s.procs| <= |t.procs|
  {
    var x, y := s.procs[p], t.procs[p];
    && t.sem + One(Plays(x, SlotHolder)) == s.sem + One(Plays(y, SlotHolder))
    && t.wg + One(Plays(x, Waited)) == s.wg + One(Plays(y, Waited)) + One(Spawns(x))
    && t.metrics.failed + One(Plays(x, SyncFailure)) == s.metrics.failed + One(Plays(y, SyncFailure))
    && (t.sem > s.sem ==> t.sem <= cfg.capacity)
  }

  lemma StepMovesTokens(cfg: Config, s: State, p: nat, c: Choice, t: State)
    requires p < |s.procs| <= |t.procs| && Next(cfg, s, Act(p, c)) == Some(t)
    requires Tagged(s.procs[p], s.store)
    ensures TokensMove(cfg, s, p, t)
  {
    match s.procs[p]
    case Worker(job, at) => WorkerMovesTokens(cfg, s, p, job, at, c, t);
    case Admitted(_) =>
    case _ => CallMovesTokens(cfg, s, p, c, t);
  }

  lemma CallMovesTokens(cfg: Config, s: State, p: nat, c: Choice, t: State)
    requires p < |s.procs| <= |t.procs| && CallNext(cfg, s, p, c) == Some(t)
    requires Tagged(s.procs[p], s.store)
    ensures TokensMove(cfg, s, p, t)
  {
    if OfSyncCall(s.procs[p]) {
      SyncMovesTokens(cfg, s, p, c, t);
    } else {
      OtherMovesTokens(cfg, s, p, c, t);
    }
    hide CallNext, TokensMove;
  }

  predicate OfSyncCall(x: Proc) {
    x.SyncReady? || x.SyncRunning? || x.SyncRan? || x.SyncCounted?
  }

  lemma SyncMovesTokens(cfg: Config, s: State, p: nat, c: Choice, t: State)
    requires p < |s.procs| <= |t.procs| && CallNext(cfg, s, p, c) == Some(t)
    requires OfSyncCall(s.procs[p]) && Tagged(s.procs[p], s.store)
    ensures TokensMove(cfg, s, p, t)
  {
  }

  lemma OtherMovesTokens(cfg: Config, s: State, p: nat, c: Choice, t: State)
    requires p < |s.procs| <= |t.procs| && CallNext(cfg, s, p, c) == Some(t)
    requires !OfSyncCall(s.procs[p]) && Tagged(s.procs[p], s.store)
    ensures TokensMove(cfg, s, p, t)
  {
  }

  lemma WorkerMovesTokens(cfg: Config, s: State, p: nat, job: Job, at: Stage, c: Choice, t: State)
    requires p < |s.procs| <= |t.procs| && s.procs[p] == Worker(job, at)
    requires WorkerNext(cfg, s, p, job, at, c) == Some(t)
    ensures TokensMove(cfg, s, p, t)
  {
  }

  /** Records are never removed and keep their key; a step leaves the goroutine it moves with a record. */
  ghost predicate TagsMove(s: State, p: nat, t: State)
    requires p < |s.procs| <= |t.procs|
  {
    && s.store.Keys <= t.store.Keys
    && Keyed(t.store)
    && Tagged(t.procs[p], t.store)
  }

  lemma StepMovesTags(cfg: Config, s: State, p: nat, c: Choice, t: State)
    requires p < |s.procs| <= |t.procs| && Next(cfg, s, Act(p, c)) == Some(t)
    requires Tagged(s.procs[p], s.store) && Keyed(s.store)
    ensures TagsMove(s, p, t)
  {
    hide WorkerNext, CallNext;
    match s.procs[p]
    case Worker(job, at) => WorkerMovesTags(cfg, s, p, job, at, c, t);
    case Admitted(_) =>
    case _ => CallMovesTags(cfg, s, p, c, t);
  }

  lemma CallMovesTags(cfg: Config, s: State, p: nat, c: Choice, t: State)
    requires p < |s.procs| <= |t.procs| && CallNext(cfg, s, p, c) == Some(t)
    requires Tagged(s.procs[p], s.store) && Keyed(s.store)
    ensures TagsMove(s, p, t)
  {
    match s.procs[p]
    case AsyncReady(_, _) =>
    case ReplayReady(_, _) =>
    case Spawning(_, _, _) =>
    case _ =>
      CallLooksTags(cfg, s, p, c, t);
      hide CallNext;
  }

  lemma CallLooksTags(cfg: Config, s: State, p: nat, c: Choice, t: State)
    requires p < |s.procs| <= |t.procs| && CallNext(cfg, s, p, c) == Some(t)
    requires !s.procs[p].AsyncReady? && !s.procs[p].ReplayReady? && !s.procs[p].Spawning?
    requires Tagged(s.procs[p], s.store)
    ensures t.store == s.store && Tagged(t.procs[p], t.store)
  {
  }

  lemma WorkerMovesTags(cfg: Config, s: State, p: nat, job: Job, at: Stage, c: Choice, t: State)
    requires p < |s.procs| <= |t.procs| && s.procs[p] == Worker(job, at)
    requires WorkerNext(cfg, s, p, job, at, c) == Some(t)
    requires Tagged(s.procs[p], s.store) && Keyed(s.store)
    ensures TagsMove(s, p, t)
  {
    if CarriesSnap(at) && !at.EndRead? {
      WorkerWritesTags(cfg, s, p, job, at, c, t);
    } else {
      WorkerLooksTags(cfg, s, p, job, at, c, t);
    }
  }

  lemma WorkerWritesTags(cfg: Config, s: State, p: nat, job: Job, at: Stage, c: Choice, t: State)
    requires p < |s.procs| <= |t.procs| && WorkerNext(cfg, s, p, job, at, c) == Some(t)
    requires Tagged(Worker(job, at), s.store) && Keyed(s.store) && CarriesSnap(at) && !at.EndRead?
    ensures TagsMove(s, p, t)
  {
  }

  lemma WorkerLooksTags(cfg: Config, s: State, p: nat, job: Job, at: Stage, c: Choice, t: State)
    requires p < |s.procs| <= |t.procs| && WorkerNext(cfg, s, p, job, at, c) == Some(t)
    requires Tagged(Worker(job, at), s.store) && Keyed(s.store) && (!CarriesSnap(at) || at.EndRead?)
    ensures TagsMove(s, p, t)
  {
    assert t.store == s.store;
    hide Keyed;
  }

  /** Only the moving goroutine writes to the log, one entry at a time. */
  lemma StepLogs(cfg: Config, s: State, p: nat, c: Choice, t: State)
    requires Next(cfg, s, Act(p, c)) == Some(t)
    ensures t.log == s.log || (|t.log| == |s.log| + 1 && t.log == s.log + [t.log[|s.log|]] && t.log[|s.log|].p == p)
  {
    match s.procs[p]
    case Worker(job, at) => WorkerLogs(cfg, s, p, job, at, c, t);
    case Admitted(_) =>
    case _ => CallLogs(cfg, s, p, c, t);
  }

  lemma CallLogs(cfg: Config, s: State, p: nat, c: Choice, t: State)
    requires p < |s.procs| && CallNext(cfg, s, p, c) == Some(t)
    ensures t.log == s.log
  {
  }

  lemma WorkerLogs(cfg: Config, s: State, p: nat, job: Job, at: Stage, c: Choice, t: State)
    requires p < |s.procs| && WorkerNext(cfg, s, p, job, at, c) == Some(t)
    ensures t.log == s.log || (|t.log| == |s.log| + 1 && t.log == s.log + [t.log[|s.log|]] && t.log[|s.log|].p == p)
  {
  }

  lemma TagsGrow(x: Proc, store: map<string, Record>, store': map<string, Record>)
    requires Tagged(x, store) && store.Keys <= store'.Keys
    ensures Tagged(x, store')
  {
    assert forall id :: id in store.Keys ==> id in store'.Keys;
  }

  lemma StepKeepsTags(cfg: Config, s: State, a: Action, t: State)
    requires Base(cfg, s) && Next(cfg, s, a) == Some(t)
    ensures AllTagged(t.procs, t.store) && Keyed(t.store) && LogInRange(t.log, |t.procs|)
    ensures s.store.Keys <= t.store.Keys
  {
    NextShape(cfg, s, a, t);
    match a
    case Arrive(_) =>
    case Act(p, c) =>
      StepMovesTags(cfg, s, p, c, t);
      StepLogs(cfg, s, p, c, t);
      forall q | 0 <= q < |t.procs| ensures Tagged(t.procs[q], t.store) {
        if q < |s.procs| && q != p {
          TagsGrow(s.procs[q], s.store, t.store);
        }
      }
  }

  /** Every step, disciplined or not, keeps the accounts. */
  lemma StepKeepsBase(cfg: Config, s: State, a: Action, t: State)
    requires Base(cfg, s) && Next(cfg, s, a) == Some(t)
    ensures Base(cfg, t)
  {
    StepKeepsTags(cfg, s, a, t);
    RoleDelta(cfg, s, a, t, SlotHolder);
    RoleDelta(cfg, s, a, t, Waited);
    RoleDelta(cfg, s, a, t, SyncFailure);
    match a
    case Arrive(_) =>
    case Act(p, c) =>
      StepMovesTokens(cfg, s, p, c, t);
  }

  /** The accounts are right after any run of any callers. */
  lemma {:induction false} RunKeepsBase(cfg: Config, s: State, acts: seq<Action>, t: State)
    requires Base(cfg, s) && Exec(cfg, s, acts) == Some(t)
    ensures Base(cfg, t)
    decreases |acts|
  {
    if acts != [] {
      var u := Next(cfg, s, acts[0]).value;
      StepKeepsBase(cfg, s, acts[0], u);
      RunKeepsBase(cfg, u, acts[1..], t);
    }
  }

  /** Turned away for lack of capacity: the step finds every token taken. */
  lemma RefusedOnlyWhenFull(cfg: Config, s: State, p: nat, c: Choice, t: State)
    requires Base(cfg, s) && Next(cfg, s, Act(p, c)) == Some(t)
    ensures p < |s.procs| <= |t.procs|
    ensures t.procs[p] == Gone(CapacityExceeded) ==> |Cast(s.procs, SlotHolder)| == cfg.capacity
  {
    NextShape(cfg, s, Act(p, c), t);
    assert Tagged(s.procs[p], s.store);
    hide WorkerNext, CallNext, LookUpNext, AllTagged, Keyed, LogInRange;
    match s.procs[p]
    case Worker(job, at) => WorkerRefusesNobody(cfg, s, p, job, at, c, t);
    case Admitted(req) => LookUpRefusesNobody(cfg, s, p, req, c, t);
    case _ => CallRefusesWhenFull(cfg, s, p, c, t);
  }

  lemma LookUpRefusesNobody(cfg: Config, s: State, p: nat, req: Request, c: Choice, t: State)
    requires p < |s.procs| && LookUpNext(cfg, s, p, req, c) == Some(t)
    ensures |t.procs| == |s.procs| && t.procs[p] != Gone(CapacityExceeded)
  {
  }

  lemma CallRefusesWhenFull(cfg: Config, s: State, p: nat, c: Choice, t: State)
    requires p < |s.procs| <= |t.procs| && CallNext(cfg, s, p, c) == Some(t)
    requires Tagged(s.procs[p], s.store)
    ensures t.procs[p] == Gone(CapacityExceeded) ==> s.sem >= cfg.capacity
  {
  }

  lemma WorkerRefusesNobody(cfg: Config, s: State, p: nat, job: Job, at: Stage, c: Choice, t: State)
    requires p < |s.procs| && WorkerNext(cfg, s, p, job, at, c) == Some(t)
    ensures |t.procs| == |s.procs| && t.procs[p] != Gone(CapacityExceeded)
  {
  }

  /**
   The concurrency bound. In every reachable state the semaphore holds one token per goroutine in its running section
   and never more than the capacity, and the wait group counts the live workers and the spawns under way.
   */
  lemma ConcurrencyBound(cfg: Config, acts: seq<Action>, s: State)
    requires Exec(cfg, INIT, acts) == Some(s)
    ensures var holders := set p: nat | p < |s.procs| &&
              (s.procs[p].SyncRunning? || s.procs[p].SyncRan? || s.procs[p].SyncCounted? ||
               (s.procs[p].Worker? && !s.procs[p].at.Queued? && !s.procs[p].at.Leaving?));
            s.sem == |holders| <= cfg.capacity
    ensures var waited := set p: nat | p < |s.procs| &&
              (s.procs[p].Worker? || (s.procs[p].Spawning? && s.procs[p].counted));
            s.wg == |waited|
  {
    InitBase(cfg);
    RunKeepsBase(cfg, INIT, acts, s);
    var holders := set p: nat | p < |s.procs| &&
      (s.procs[p].SyncRunning? || s.procs[p].SyncRan? || s.procs[p].SyncCounted? ||
       (s.procs[p].Worker? && !s.procs[p].at.Queued? && !s.procs[p].at.Leaving?));
    var waited := set p: nat | p < |s.procs| && (s.procs[p].Worker? || (s.procs[p].Spawning? && s.procs[p].counted));
    assert holders == Cast(s.procs, SlotHolder) && waited == Cast(s.procs, Waited);
  }
}
