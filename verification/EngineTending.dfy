/**
 No record is forgotten, whatever the callers do: in every run, racing replays and reused ids included, a record with
 work to come has an owner, and none is ever marked failed.
 */
module EngineTending {
  import opened Domain
  import opened Engine
  import opened EngineCounting
  import opened EngineBase
  import opened EngineFaith

  /** Someone owns the record under `id`, if it is pending or running. */
  ghost predicate TendedAt(s: State, id: string) {
    id in s.store && Active(s.store[id].status) ==>
      exists p | 0 <= p < |s.procs| :: Plays(s.procs[p], OwnerOf(id))
  }

  /** A worker's snapshot, whose status it may write back as it was read. */
  predicate SnapNotFailed(x: Proc) {
    x.Worker? && CarriesSnap(x.at) ==> x.at.snap.status != Failed
  }

  ghost predicate NoneFailed(s: State) {
    && (forall id | id in s.store :: s.store[id].status != Failed)
    && (forall p | 0 <= p < |s.procs| :: SnapNotFailed(s.procs[p]))
  }

  ghost predicate Tended(s: State) {
    NoneFailed(s) && forall id :: TendedAt(s, id)
  }

  lemma InitTended()
    ensures Tended(INIT)
  {
  }

  // Owners

  /** A record that is active after a step is owned by the goroutine that moved, or was active and tended by others. */
  ghost predicate Owned(s: State, p: nat, t: State, id: string)
    requires p < |s.procs| && p < |t.procs|
  {
    id in t.store && Active(t.store[id].status) ==>
      || Plays(t.procs[p], OwnerOf(id))
      || (Spawns(s.procs[p]) && s.procs[p].job.id == id)
      || (id in s.store && Active(s.store[id].status) && !Plays(s.procs[p], OwnerOf(id)))
  }

  lemma WorkerOwns(cfg: Config, s: State, p: nat, job: Job, at: Stage, c: Choice, t: State, id: string)
    requires p < |s.procs| && s.procs[p] == Worker(job, at) && WorkerNext(cfg, s, p, job, at, c) == Some(t)
    requires Tagged(s.procs[p], s.store) && Keyed(s.store)
    ensures p < |t.procs| && Owned(s, p, t, id)
  {
    hide WorkerNext;
    WorkerStores(cfg, s, p, job, at, c, t);
    WorkerGivesUpFinished(cfg, s, p, job, at, c, t);
  }

  lemma PendingOwns(cfg: Config, s: State, p: nat, c: Choice, t: State, id: string)
    requires p < |s.procs| && CallNext(cfg, s, p, c) == Some(t) && Keyed(s.store)
    requires s.procs[p].AsyncReady? || s.procs[p].ReplayReady? || s.procs[p].Spawning?
    ensures p < |t.procs| && Owned(s, p, t, id)
  {
  }

  lemma CallOwns(cfg: Config, s: State, p: nat, c: Choice, t: State, id: string)
    requires p < |s.procs| <= |t.procs| && CallNext(cfg, s, p, c) == Some(t) && Keyed(s.store)
    requires !s.procs[p].Worker?
    ensures Owned(s, p, t, id)
  {
    hide CallNext;
    if s.procs[p].AsyncReady? || s.procs[p].ReplayReady? || s.procs[p].Spawning? {
      PendingOwns(cfg, s, p, c, t, id);
    } else {
      CallLeavesStore(cfg, s, p, c, t);
    }
  }

  lemma StepOwns(cfg: Config, s: State, p: nat, c: Choice, t: State, id: string)
    requires Base(cfg, s) && p < |s.procs| <= |t.procs| && Next(cfg, s, Act(p, c)) == Some(t)
    ensures Owned(s, p, t, id)
  {
    hide WorkerNext, CallNext, Counted, LogInRange, Owned;
    assert Tagged(s.procs[p], s.store);
    match s.procs[p]
    case Worker(job, at) => WorkerOwns(cfg, s, p, job, at, c, t, id);
    case Admitted(req) => LookUpOwns(cfg, s, p, req, c, t, id);
    case _ => CallOwns(cfg, s, p, c, t, id);
  }

  lemma LookUpOwns(cfg: Config, s: State, p: nat, req: Request, c: Choice, t: State, id: string)
    requires p < |s.procs| <= |t.procs| && s.procs[p] == Admitted(req) && LookUpNext(cfg, s, p, req, c) == Some(t)
    ensures Owned(s, p, t, id)
  {
  }

  /** An owner that does not move stays one. */
  lemma StaysTended(cfg: Config, s: State, a: Action, t: State, id: string)
    requires Base(cfg, s) && TendedAt(s, id) && Next(cfg, s, a) == Some(t)
    ensures TendedAt(t, id)
  {
    NextShape(cfg, s, a, t);
    hide Next, Base, Plays;
    match a
    case Arrive(_) =>
      if q :| 0 <= q < |s.procs| && Plays(s.procs[q], OwnerOf(id)) { assert Plays(t.procs[q], OwnerOf(id)); }
    case Act(p, c) =>
      StepOwns(cfg, s, p, c, t, id);
      if id in t.store && Active(t.store[id].status) && !Plays(t.procs[p], OwnerOf(id)) {
        if Spawns(s.procs[p]) && s.procs[p].job.id == id {
          NewWorkerOwns(s.procs[p].job);
          assert Plays(t.procs[|s.procs|], OwnerOf(id));
        } else {
          var q :| 0 <= q < |s.procs| && Plays(s.procs[q], OwnerOf(id));
          assert Plays(t.procs[q], OwnerOf(id));
        }
      }
  }

  lemma NewWorkerOwns(job: Job)
    ensures Plays(Worker(job, Queued), OwnerOf(job.id))
  {
  }

  // No failures

  lemma WorkerFailsNone(cfg: Config, s: State, p: nat, job: Job, at: Stage, c: Choice, t: State)
    requires p < |s.procs| && s.procs[p] == Worker(job, at) && WorkerNext(cfg, s, p, job, at, c) == Some(t)
    requires NoneFailed(s)
    ensures p < |t.procs| && SnapNotFailed(t.procs[p])
    ensures forall id | id in t.store :: t.store[id].status != Failed
  {
    hide WorkerNext;
    assert SnapNotFailed(s.procs[p]);
    WorkerStores(cfg, s, p, job, at, c, t);
  }

  lemma CallFailsNone(cfg: Config, s: State, p: nat, c: Choice, t: State)
    requires p < |s.procs| <= |t.procs| && CallNext(cfg, s, p, c) == Some(t) && !s.procs[p].Worker? && NoneFailed(s)
    ensures SnapNotFailed(t.procs[p])
    ensures forall id | id in t.store :: t.store[id].status != Failed
  {
    CallMakesNoWorker(cfg, s, p, c, t);
    if !s.procs[p].AsyncReady? && !s.procs[p].ReplayReady? {
      CallLeavesStore(cfg, s, p, c, t);
      hide CallNext;
    }
  }

  lemma StepFailsNone(cfg: Config, s: State, a: Action, t: State)
    requires NoneFailed(s) && Next(cfg, s, a) == Some(t)
    ensures NoneFailed(t)
  {
    NextShape(cfg, s, a, t);
    match a
    case Arrive(_) =>
    case Act(p, c) =>
      MoverFailsNone(cfg, s, p, c, t);
      hide Next;
  }

  lemma MoverFailsNone(cfg: Config, s: State, p: nat, c: Choice, t: State)
    requires NoneFailed(s) && p < |s.procs| <= |t.procs| && Next(cfg, s, Act(p, c)) == Some(t)
    ensures SnapNotFailed(t.procs[p])
    ensures forall id | id in t.store :: t.store[id].status != Failed
  {
    hide WorkerNext, CallNext;
    match s.procs[p]
    case Worker(job, at) => WorkerFailsNone(cfg, s, p, job, at, c, t);
    case Admitted(_) =>
    case _ => CallFailsNone(cfg, s, p, c, t);
  }

  // Steps and runs

  /** Every step of any caller keeps it. */
  lemma StepStaysTended(cfg: Config, s: State, a: Action, t: State)
    requires Base(cfg, s) && Tended(s) && Next(cfg, s, a) == Some(t)
    ensures Base(cfg, t) && Tended(t)
  {
    StepKeepsBase(cfg, s, a, t);
    StepFailsNone(cfg, s, a, t);
    hide Next, Base, TendedAt, NoneFailed;
    forall id ensures TendedAt(t, id) {
      StaysTended(cfg, s, a, t, id);
    }
  }

  lemma {:induction false} RunStaysTended(cfg: Config, s: State, acts: seq<Action>, t: State)
    requires Base(cfg, s) && Tended(s) && Exec(cfg, s, acts) == Some(t)
    ensures Base(cfg, t) && Tended(t)
    decreases |acts|
  {
    if acts != [] {
      var u := Next(cfg, s, acts[0]).value;
      StepStaysTended(cfg, s, acts[0], u);
      RunStaysTended(cfg, u, acts[1..], t);
    }
  }

  /**
   Nothing is lost, in any run of any callers: a record with work to come has at least one owner, and every record is
   pending, running, completed or in the dead-letter queue.
   */
  lemma NothingIsLost(cfg: Config, acts: seq<Action>, s: State, id: string)
    requires Exec(cfg, INIT, acts) == Some(s) && id in s.store
    ensures s.store[id].status == Pending || s.store[id].status == Running ==>
              exists p | 0 <= p < |s.procs| ::
                || (s.procs[p].Spawning? && s.procs[p].job.id == id)
                || (s.procs[p].Worker? && !s.procs[p].at.Releasing? && !s.procs[p].at.Leaving? && s.procs[p].job.id == id)
    ensures s.store[id].status != Failed
  {
    InitBase(cfg);
    InitTended();
    RunStaysTended(cfg, INIT, acts, s);
    assert TendedAt(s, id);
  }
}
