/** The metrics are conserved: what was counted is what the records, the replies and the replays can account for. */
module EngineAccounts {
  import opened Domain
  import opened Engine
  import opened EngineCounting
  import opened EngineBase
  import opened EngineFaith
  import opened EngineOrder

  /**
   Dead letters counted = records in the queue, replays taken out of it, and workers between counting and writing.
   Completions counted = synchronous successes, completed records, and workers between counting and writing.
   */
  ghost predicate Accounted(s: State) {
    && s.metrics.deadLetter ==
       |WithStatus(s.store, DeadLetter)| + |Cast(s.procs, ReplayAccepted)| + |Cast(s.procs, MeteredDead)|
    && s.metrics.completed ==
       |WithStatus(s.store, Completed)| + |Cast(s.procs, SyncSuccess)| + |Cast(s.procs, MeteredDone)|
  }

  /** One step's effect on one account, in the terms of the goroutine that moves. */
  ghost predicate AccountMoves(s: State, p: nat, t: State)
    requires p < |s.procs| <= |t.procs|
  {
    var x, y := s.procs[p], t.procs[p];
    && t.metrics.deadLetter + One(Plays(x, ReplayAccepted)) + One(Plays(x, MeteredDead)) + |WithStatus(s.store, DeadLetter)|
       == s.metrics.deadLetter + One(Plays(y, ReplayAccepted)) + One(Plays(y, MeteredDead)) + |WithStatus(t.store, DeadLetter)|
    && t.metrics.completed + One(Plays(x, SyncSuccess)) + One(Plays(x, MeteredDone)) + |WithStatus(s.store, Completed)|
       == s.metrics.completed + One(Plays(y, SyncSuccess)) + One(Plays(y, MeteredDone)) + |WithStatus(t.store, Completed)|
  }

  lemma WorkerMovesAccounts(cfg: Config, s: State, p: nat, job: Job, at: Stage, c: Choice, t: State, tr: Trail)
    requires p < |s.procs| <= |t.procs| && WorkerNext(cfg, s, p, job, at, c) == Some(t)
    requires s.procs[p] == Worker(job, at) && Tagged(s.procs[p], s.store) && Keyed(s.store)
    requires LocalOk(cfg, s.procs[p], s.store, tr)
    ensures AccountMoves(s, p, t)
  {
    hide WorkerNext, WithStatus;
    WorkerStores(cfg, s, p, job, at, c, t);
    if Writes(at) {
      WorkerWritesKeepMetrics(cfg, s, p, job, at, c, t);
      WriteMovesStatus(cfg, s.store, job, at, tr);
    } else {
      WorkerCountsOutcomes(cfg, s, p, job, at, c, t);
    }
  }

  /** What a worker's write adds to the dead letters or the completed records is itself about to leave `Metered`. */
  lemma WriteMovesStatus(cfg: Config, store: map<string, Record>, job: Job, at: Stage, tr: Trail)
    requires Writes(at) && Tagged(Worker(job, at), store) && Keyed(store) && LocalOk(cfg, Worker(job, at), store, tr)
    ensures var after := Put(store, Written(at));
            && |WithStatus(after, DeadLetter)| == |WithStatus(store, DeadLetter)| + One(at.Metered? && at.out.Err?)
            && |WithStatus(after, Completed)| == |WithStatus(store, Completed)| + One(at.Metered? && at.out.Ok?)
  {
    hide WithStatus;
    StatusUpdate(store, job.id, Written(at), DeadLetter);
    StatusUpdate(store, job.id, Written(at), Completed);
  }

  lemma WorkerWritesKeepMetrics(cfg: Config, s: State, p: nat, job: Job, at: Stage, c: Choice, t: State)
    requires p < |s.procs| <= |t.procs| && WorkerNext(cfg, s, p, job, at, c) == Some(t) && Writes(at)
    ensures t.metrics == s.metrics && t.procs[p].Worker? && !t.procs[p].at.Metered?
  {
  }

  lemma WorkerCountsOutcomes(cfg: Config, s: State, p: nat, job: Job, at: Stage, c: Choice, t: State)
    requires p < |s.procs| <= |t.procs| && WorkerNext(cfg, s, p, job, at, c) == Some(t) && !Writes(at)
    requires s.procs[p] == Worker(job, at)
    ensures t.metrics.deadLetter == s.metrics.deadLetter + One(Plays(t.procs[p], MeteredDead))
    ensures t.metrics.completed == s.metrics.completed + One(Plays(t.procs[p], MeteredDone))
    ensures !Plays(t.procs[p], ReplayAccepted) && !Plays(t.procs[p], SyncSuccess)
  {
  }

  lemma CallMovesAccounts(cfg: Config, s: State, p: nat, c: Choice, t: State, tr: Trail)
    requires p < |s.procs| <= |t.procs| && CallNext(cfg, s, p, c) == Some(t)
    requires !s.procs[p].Worker? && !s.procs[p].AsyncReady? && !s.procs[p].ReplayReady?
    requires Tagged(s.procs[p], s.store)
    ensures AccountMoves(s, p, t)
  {
    hide WithStatus;
    CallLeavesStore(cfg, s, p, c, t);
  }

  lemma CreateMovesAccounts(cfg: Config, s: State, p: nat, c: Choice, t: State)
    requires p < |s.procs| <= |t.procs| && CallNext(cfg, s, p, c) == Some(t)
    requires s.procs[p].AsyncReady? && s.procs[p].req.AsyncCall? && s.procs[p].req.id !in s.store
    ensures AccountMoves(s, p, t)
  {
    var x := s.procs[p];
    var inv := NewRecord(cfg, x.req, x.fn, c.now);
    StatusUpdate(s.store, inv.id, inv, DeadLetter);
    StatusUpdate(s.store, inv.id, inv, Completed);
  }

  lemma RequeueMovesAccounts(cfg: Config, s: State, p: nat, c: Choice, t: State, tr: Trail)
    requires p < |s.procs| <= |t.procs| && CallNext(cfg, s, p, c) == Some(t) && s.procs[p].ReplayReady?
    requires LocalOk(cfg, s.procs[p], s.store, tr)
    ensures AccountMoves(s, p, t)
  {
    var snap := s.procs[p].snap;
    StatusUpdate(s.store, snap.id, Requeued(snap), DeadLetter);
    StatusUpdate(s.store, snap.id, Requeued(snap), Completed);
  }

  lemma LookUpMovesAccounts(cfg: Config, s: State, p: nat, req: Request, c: Choice, t: State)
    requires p < |s.procs| <= |t.procs| && LookUpNext(cfg, s, p, req, c) == Some(t) && s.procs[p] == Admitted(req)
    ensures AccountMoves(s, p, t)
  {
  }

  lemma StepMovesAccounts(cfg: Config, s: State, p: nat, c: Choice, t: State)
    requires Orderly(cfg, s) && FreshID(s, Act(p, c)) && Next(cfg, s, Act(p, c)) == Some(t)
    requires p < |s.procs| <= |t.procs|
    ensures AccountMoves(s, p, t)
  {
    var tr := TrailOf(s.log, p);
    assert LocalOk(cfg, s.procs[p], s.store, tr) && Tagged(s.procs[p], s.store);
    match s.procs[p]
    case Worker(job, at) => WorkerMovesAccounts(cfg, s, p, job, at, c, t, tr);
    case Admitted(req) => LookUpMovesAccounts(cfg, s, p, req, c, t);
    case AsyncReady(_, _) => CreateMovesAccounts(cfg, s, p, c, t);
    case ReplayReady(_, _) => RequeueMovesAccounts(cfg, s, p, c, t, tr);
    case _ => CallMovesAccounts(cfg, s, p, c, t, tr);
  }

  lemma StepStaysAccounted(cfg: Config, s: State, a: Action, t: State)
    requires Orderly(cfg, s) && Accounted(s) && Disciplined(s, a) && Next(cfg, s, a) == Some(t)
    ensures Accounted(t)
  {
    hide Orderly, Next, WithStatus, Cast;
    RoleDelta(cfg, s, a, t, ReplayAccepted);
    RoleDelta(cfg, s, a, t, MeteredDead);
    RoleDelta(cfg, s, a, t, SyncSuccess);
    RoleDelta(cfg, s, a, t, MeteredDone);
    match a
    case Arrive(_) => NextShape(cfg, s, a, t);
    case Act(p, c) => StepMovesAccounts(cfg, s, p, c, t);
  }

  lemma {:induction false} RunStaysAccounted(cfg: Config, s: State, acts: seq<Action>, t: State)
    requires Orderly(cfg, s) && Accounted(s) && DisciplinedRun(cfg, s, acts) && Exec(cfg, s, acts) == Some(t)
    ensures Accounted(t)
    decreases |acts|
  {
    if acts != [] {
      var u := Next(cfg, s, acts[0]).value;
      StepStaysAccounted(cfg, s, acts[0], u);
      StepStaysOrderly(cfg, s, acts[0], u);
      RunStaysAccounted(cfg, u, acts[1..], t);
    }
  }

  lemma InitAccounted()
    ensures Accounted(INIT)
  {
    assert WithStatus(map[], DeadLetter) == {} && WithStatus(map[], Completed) == {};
    assert Cast([], ReplayAccepted) == {} && Cast([], MeteredDead) == {};
    assert Cast([], SyncSuccess) == {} && Cast([], MeteredDone) == {};
  }
}
