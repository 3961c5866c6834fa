/** The engine's guarantees over every disciplined run, each read off the invariants. */
module EngineTheorems {
  import opened Domain
  import opened Backoff
  import opened Engine
  import opened EngineCounting
  import opened EngineBase
  import opened EngineFaith
  import opened EngineOwnership
  import opened EngineOrder
  import opened EngineAccounts

  lemma Reachable(cfg: Config, acts: seq<Action>, s: State)
    requires DisciplinedRun(cfg, INIT, acts) && Exec(cfg, INIT, acts) == Some(s)
    ensures Orderly(cfg, s) && Accounted(s)
  {
    InitOrderly(cfg);
    InitAccounted();
    RunStaysOrderly(cfg, INIT, acts, s);
    RunStaysAccounted(cfg, INIT, acts, s);
  }

  /** Interference freedom: every snapshot in flight still equals the stored record. */
  lemma InterferenceFreedom(cfg: Config, acts: seq<Action>, s: State, p: nat)
    requires DisciplinedRun(cfg, INIT, acts) && Exec(cfg, INIT, acts) == Some(s) && p < |s.procs|
    ensures match s.procs[p]
            case ReplayRead(snap) => snap.id in s.store && s.store[snap.id] == snap
            case ReplayReady(snap, _) => snap.id in s.store && s.store[snap.id] == snap
            case Worker(job, at) => job.id in s.store && (CarriesSnap(at) ==> s.store[job.id] == at.snap)
            case _ => true
  {
    Reachable(cfg, acts, s);
    assert Tagged(s.procs[p], s.store);
    SnapshotIsCurrent(cfg, s, p);
  }

  /** Exactly one owner for a pending or running record, none for a finished one: nothing is lost or run twice at once. */
  lemma UniqueOwner(cfg: Config, acts: seq<Action>, s: State, id: string)
    requires DisciplinedRun(cfg, INIT, acts) && Exec(cfg, INIT, acts) == Some(s) && id in s.store
    ensures var owners := set p: nat | p < |s.procs| &&
              ((s.procs[p].Spawning? && s.procs[p].job.id == id) ||
               (s.procs[p].Worker? && !s.procs[p].at.Releasing? && !s.procs[p].at.Leaving? && s.procs[p].job.id == id));
            match s.store[id].status
            case Pending => exists p :: owners == {p}
            case Running => exists p :: owners == {p}
            case Completed => owners == {}
            case DeadLetter => owners == {}
            case Failed => false
  {
    Reachable(cfg, acts, s);
    OwnerRole(s, id);
    OwnersCounted(cfg, s, id);
    hide Orderly, Accounted, Cast;
    var owners := Cast(s.procs, OwnerOf(id));
    if Active(s.store[id].status) {
      var p :| p in owners;
      assert |owners - {p}| == 0;
      assert owners == {p};
    }
  }

  lemma OwnersCounted(cfg: Config, s: State, id: string)
    requires Orderly(cfg, s) && id in s.store
    ensures |Cast(s.procs, OwnerOf(id))| == One(Active(s.store[id].status)) && s.store[id].status != Failed
  {
    assert RecordOk(cfg, s, id);
    assert |Cast(s.procs, OwnerOf(id))| == One(ActiveAt(s.store, id));
  }

  lemma OwnerRole(s: State, id: string)
    ensures Cast(s.procs, OwnerOf(id)) ==
            set p: nat | p < |s.procs| &&
              ((s.procs[p].Spawning? && s.procs[p].job.id == id) ||
               (s.procs[p].Worker? && !s.procs[p].at.Releasing? && !s.procs[p].at.Leaving? && s.procs[p].job.id == id))
  {
  }

  /**
   The shape of every record by its status, and what a finished record says about its last run: the retry count is
   the number of failed runner calls, the calls number one more on success and MaxRetries + 1 in the dead-letter
   queue, the error is that of the last failure, and the run slept for the backoff of each granted retry.
   */
  lemma RecordsTellTheirRuns(cfg: Config, acts: seq<Action>, s: State, id: string)
    requires DisciplinedRun(cfg, INIT, acts) && Exec(cfg, INIT, acts) == Some(s) && id in s.store
    ensures Shape(cfg, s.store[id])
    ensures Terminal(s.store[id].status) ==>
              && id in s.lastRun
              && var r, run := s.store[id], TrailOf(s.log, s.lastRun[id]);
              && r.retryCount == run.fails
              && (r.status == DeadLetter ==> r.retryCount == (if cfg.maxRetries < 0 then 0 else cfg.maxRetries) + 1)
              && (r.status == Completed ==> r.retryCount <= if cfg.maxRetries < 0 then 0 else cfg.maxRetries)
              && run.calls == run.fails + One(r.status == Completed)
              && r.error == run.lastErr
              && run.slept == TotalSleep(if r.status == Completed then run.fails else Retries(cfg))
  {
    Reachable(cfg, acts, s);
    assert RecordOk(cfg, s, id);
  }

  /** How long a dead-lettered run was asleep: the intended total exactly when at most 38 retries are granted. */
  lemma DeadLetterSleep(cfg: Config, acts: seq<Action>, s: State, id: string)
    requires DisciplinedRun(cfg, INIT, acts) && Exec(cfg, INIT, acts) == Some(s) && id in s.store
    requires s.store[id].status == DeadLetter
    ensures id in s.lastRun
    ensures TrailOf(s.log, s.lastRun[id]).slept == ClosedForm(Retries(cfg)) <==> Retries(cfg) <= 38
  {
    RecordsTellTheirRuns(cfg, acts, s, id);
    TotalSleepClosedForm(Retries(cfg));
  }

  /** Conservation of the metrics, see Accounted. */
  lemma MetricsBalance(cfg: Config, acts: seq<Action>, s: State)
    requires DisciplinedRun(cfg, INIT, acts) && Exec(cfg, INIT, acts) == Some(s)
    ensures var deadLetters := set id | id in s.store && s.store[id].status == DeadLetter;
            var replays := set p: nat | p < |s.procs| &&
              ((s.procs[p].Spawning? && s.procs[p].job.replayed) ||
               (s.procs[p].Gone? && s.procs[p].reply.Accepted? && s.procs[p].reply.replayed));
            var writing := set p: nat | p < |s.procs| &&
              s.procs[p].Worker? && s.procs[p].at.Metered? && s.procs[p].at.out.Err?;
            s.metrics.deadLetter == |deadLetters| + |replays| + |writing|
    ensures var completed := set id | id in s.store && s.store[id].status == Completed;
            var answered := set p: nat | p < |s.procs| &&
              (s.procs[p].SyncCounted? || s.procs[p].Gone?) && s.procs[p].reply.Returned?;
            var writing := set p: nat | p < |s.procs| &&
              s.procs[p].Worker? && s.procs[p].at.Metered? && s.procs[p].at.out.Ok?;
            s.metrics.completed == |completed| + |answered| + |writing|
    ensures var failed := set p: nat | p < |s.procs| &&
              (s.procs[p].SyncCounted? || s.procs[p].Gone?) && s.procs[p].reply.RunnerFailed?;
            s.metrics.failed == |failed|
  {
    Reachable(cfg, acts, s);
    hide Orderly, RecordOk;
    DeadLetterRoles(s);
    CompletionRoles(s);
  }

  lemma DeadLetterRoles(s: State)
    ensures WithStatus(s.store, DeadLetter) == set id | id in s.store && s.store[id].status == DeadLetter
    ensures Cast(s.procs, ReplayAccepted) ==
            set p: nat | p < |s.procs| &&
              ((s.procs[p].Spawning? && s.procs[p].job.replayed) ||
               (s.procs[p].Gone? && s.procs[p].reply.Accepted? && s.procs[p].reply.replayed))
    ensures Cast(s.procs, MeteredDead) ==
            set p: nat | p < |s.procs| && s.procs[p].Worker? && s.procs[p].at.Metered? && s.procs[p].at.out.Err?
  {
  }

  lemma CompletionRoles(s: State)
    ensures WithStatus(s.store, Completed) == set id | id in s.store && s.store[id].status == Completed
    ensures Cast(s.procs, SyncSuccess) ==
            set p: nat | p < |s.procs| && (s.procs[p].SyncCounted? || s.procs[p].Gone?) && s.procs[p].reply.Returned?
    ensures Cast(s.procs, MeteredDone) ==
            set p: nat | p < |s.procs| && s.procs[p].Worker? && s.procs[p].at.Metered? && s.procs[p].at.out.Ok?
    ensures Cast(s.procs, SyncFailure) ==
            set p: nat | p < |s.procs| && (s.procs[p].SyncCounted? || s.procs[p].Gone?) && s.procs[p].reply.RunnerFailed?
  {
  }

  /** The moves a record can make: start, one more failure, success, one failure too many, and back into the queue. */
  predicate LifecycleStep(cfg: Config, before: Record, after: Record) {
    || after == before
    || (before.status == Pending && after == before.(status := Running))
    || (before.status == Running && before.retryCount < Retries(cfg) &&
        after == before.(retryCount := before.retryCount + 1, error := after.error))
    || (before.status == Running && after.result.Some? && after.completedAt.Some? &&
        after == before.(status := Completed, result := after.result, completedAt := after.completedAt))
    || (before.status == Running && before.retryCount == Retries(cfg) && after.completedAt.Some? &&
        after == before.(status := DeadLetter, retryCount := before.retryCount + 1,
                         error := after.error, completedAt := after.completedAt))
    || (before.status == DeadLetter &&
        after == before.(status := Pending, retryCount := 0, error := "", completedAt := None))
  }

  /** A step changes a record only along its lifecycle, and starting from its current value: no write is lost. */
  lemma RecordsMoveAlongLifecycle(cfg: Config, s: State, a: Action, t: State, id: string)
    requires Orderly(cfg, s) && Disciplined(s, a) && Next(cfg, s, a) == Some(t) && id in s.store
    ensures id in t.store && LifecycleStep(cfg, s.store[id], t.store[id])
  {
    match a
    case Arrive(_) => NextShape(cfg, s, a, t);
    case Act(p, c) =>
      hide WorkerNext, CallNext, RecordOk, OneOwnerEach, LoneReplays, StageOk, CarriesSnap;
      var x := s.procs[p];
      assert LocalOk(cfg, x, s.store, TrailOf(s.log, p)) && Tagged(x, s.store);
      if !WritesTo(x, id) {
        StepWritesOneRecord(cfg, s, p, c, t, id);
      } else if x.Worker? {
        WorkerStores(cfg, s, p, x.job, x.at, c, t);
        WrittenMoves(cfg, s.store, x, id, TrailOf(s.log, p));
      } else {
        PendingMoves(cfg, s, p, c, t, id, TrailOf(s.log, p));
      }
  }

  lemma WrittenMoves(cfg: Config, store: map<string, Record>, x: Proc, id: string, tr: Trail)
    requires x.Worker? && Writes(x.at) && x.job.id == id && Tagged(x, store) && LocalOk(cfg, x, store, tr)
    ensures id in Put(store, Written(x.at)) && LifecycleStep(cfg, store[id], Put(store, Written(x.at))[id])
  {
  }

  lemma PendingMoves(cfg: Config, s: State, p: nat, c: Choice, t: State, id: string, tr: Trail)
    requires p < |s.procs| && CallNext(cfg, s, p, c) == Some(t) && AboutToPend(s.procs[p], id) && id in s.store
    requires s.procs[p].ReplayReady? && LocalOk(cfg, s.procs[p], s.store, tr)
    ensures id in t.store && LifecycleStep(cfg, s.store[id], t.store[id])
  {
  }
}
