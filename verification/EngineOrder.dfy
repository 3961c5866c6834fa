/**
 Disciplined runs: fresh ids, and at most one replay of a record between its read and its write. In every state such
 runs reach, each snapshot still equals the stored record, each record has the shape of its status, and a finished
 record tells exactly what its last run did.
 */
module EngineOrder {
  import opened Domain
  import opened Backoff
  import opened Engine
  import opened EngineCounting
  import opened EngineBase
  import opened EngineFaith
  import opened EngineOwnership
  import opened EngineLoop

  /** The shape of a record by status. */
  predicate Shape(cfg: Config, r: Record) {
    && r.maxRetries == cfg.maxRetries
    && r.status != Failed
    && (r.result.Some? <==> r.status == Completed)
    && (r.completedAt.Some? <==> Terminal(r.status))
    && (r.status == Pending ==> r.retryCount == 0 && r.error == "")
    && (r.status == Running || r.status == Completed ==> 0 <= r.retryCount <= Retries(cfg))
    && (r.status == DeadLetter ==> r.retryCount == Retries(cfg) + 1)
  }

  predicate InRun(r: Record, retries: nat) {
    r.status == Running && r.retryCount == retries
  }

  /** What the record says while its worker is at each of its stages. */
  predicate RecordAt(cfg: Config, r: Record, at: Stage, t: Trail) {
    match at
    case Queued => r.status == Pending
    case Holding => r.status == Pending
    case StartRead(snap) => r.status == Pending && snap == r
    case Calling(a) => InRun(r, a) && r.error == t.lastErr
    case Stumbled(a, _) => InRun(r, a)
    case RetryRead(a, _, snap) => InRun(r, a) && snap == r
    case Sleeping(a) => InRun(r, a + 1) && r.error == t.lastErr
    case Ending(a, out) => Concluded(cfg, r, a, out, t)
    case EndRead(a, out, now, snap) => Concluded(cfg, r, a, out, t) && snap == r
    case Metered(a, out, now, snap) => Concluded(cfg, r, a, out, t) && snap == r
    case Releasing => true
    case Leaving => true
  }

  /** The loop is over and the record not yet finished: a dead letter still carries its last retry. */
  predicate Concluded(cfg: Config, r: Record, attempt: nat, out: Outcome, t: Trail) {
    match out
    case Ok(_) => InRun(r, attempt) && r.error == t.lastErr
    case Err(_) => InRun(r, Retries(cfg))
  }

  predicate StageOk(cfg: Config, r: Record, at: Stage, t: Trail) {
    LoopAt(cfg, at, t) && RecordAt(cfg, r, at, t)
  }

  predicate LocalOk(cfg: Config, x: Proc, store: map<string, Record>, t: Trail) {
    match x
    case ReplayRead(snap) => snap.id in store && store[snap.id] == snap && snap.status == DeadLetter
    case ReplayReady(snap, _) => snap.id in store && store[snap.id] == snap && snap.status == DeadLetter
    case Spawning(job, inv, _) => job.id in store && store[job.id] == inv && inv.status == Pending
    case Worker(job, at) => job.id in store && StageOk(cfg, store[job.id], at, t)
    case _ => true
  }

  predicate Past(x: Proc) {
    x.Gone? || (x.Worker? && (x.at.Releasing? || x.at.Leaving?))
  }

  /** What a finished record says about the run that finished it. */
  predicate Lasting(cfg: Config, r: Record, t: Trail) {
    && r.error == t.lastErr
    && (r.status == Completed ==>
          r.retryCount == t.fails && t.calls == t.fails + 1 && t.slept == TotalSleep(t.fails))
    && (r.status == DeadLetter ==>
          r.retryCount == t.fails == t.calls == Retries(cfg) + 1 && t.slept == TotalSleep(Retries(cfg)))
  }

  ghost predicate RecordOk(cfg: Config, s: State, id: string)
    requires id in s.store
  {
    && Shape(cfg, s.store[id])
    && (Terminal(s.store[id].status) ==>
          && id in s.lastRun
          && s.lastRun[id] < |s.procs|
          && Past(s.procs[s.lastRun[id]])
          && Lasting(cfg, s.store[id], TrailOf(s.log, s.lastRun[id])))
  }

  ghost predicate LoneReplays(procs: seq<Proc>) {
    forall id :: |Cast(procs, ReplayerOf(id))| <= 1
  }

  ghost predicate Orderly(cfg: Config, s: State) {
    && Base(cfg, s)
    && Balanced(s)
    && LoneReplays(s.procs)
    && (forall p | 0 <= p < |s.procs| :: LocalOk(cfg, s.procs[p], s.store, TrailOf(s.log, p)))
    && (forall id | id in s.store :: RecordOk(cfg, s, id))
  }

  predicate Disciplined(s: State, a: Action) {
    FreshID(s, a) && LoneReplay(s, a)
  }

  // Nobody else is at work on a record its goroutine is at work on

  predicate Touches(x: Proc, id: string) {
    Plays(x, OwnerOf(id)) || Plays(x, ReplayerOf(id))
  }

  lemma OnlyOneTouches(cfg: Config, s: State, p: nat, q: nat, id: string)
    requires Orderly(cfg, s) && p < |s.procs| && q < |s.procs|
    requires Touches(s.procs[p], id) && Touches(s.procs[q], id)
    ensures p == q
  {
    assert LocalOk(cfg, s.procs[p], s.store, TrailOf(s.log, p));
    assert LocalOk(cfg, s.procs[q], s.store, TrailOf(s.log, q));
    hide Base, RecordOk, StageOk, TrailOf;
    if Owning(s.procs[p]) { OwnerMeansActive(s, p); }
    if Owning(s.procs[q]) { OwnerMeansActive(s, q); }
    if Plays(s.procs[p], OwnerOf(id)) {
      assert |Cast(s.procs, OwnerOf(id))| == One(ActiveAt(s.store, id));
      AtMostOne(s.procs, OwnerOf(id), p, q);
    } else {
      assert |Cast(s.procs, ReplayerOf(id))| <= 1;
      AtMostOne(s.procs, ReplayerOf(id), p, q);
    }
  }

  /** Interference freedom: between a read of a record and the write that follows it, the stored record is the one read. */
  lemma SnapshotIsCurrent(cfg: Config, s: State, p: nat)
    requires Orderly(cfg, s) && p < |s.procs|
    ensures s.procs[p].ReplayRead? || s.procs[p].ReplayReady? ==>
              s.procs[p].snap.id in s.store && s.store[s.procs[p].snap.id] == s.procs[p].snap
    ensures s.procs[p].Worker? && CarriesSnap(s.procs[p].at) ==>
              s.procs[p].job.id in s.store && s.store[s.procs[p].job.id] == s.procs[p].at.snap
  {
    assert LocalOk(cfg, s.procs[p], s.store, TrailOf(s.log, p));
  }

  // Frames

  lemma LocalOkFrame(cfg: Config, x: Proc, store: map<string, Record>, store': map<string, Record>, t: Trail)
    requires LocalOk(cfg, x, store, t) && Tagged(x, store) && store.Keys <= store'.Keys
    requires forall id | Touches(x, id) && id in store :: id in store' && store'[id] == store[id]
    ensures LocalOk(cfg, x, store', t)
  {
    match x
    case ReplayRead(snap) => assert Touches(x, snap.id);
    case ReplayReady(snap, _) => assert Touches(x, snap.id);
    case Spawning(job, _, _) => assert Touches(x, job.id);
    case Worker(job, at) =>
      assert job.id in store';
      if Owning(x) { assert Touches(x, job.id); }
    case _ =>
  }

  /** The one id whose record a goroutine's next step may write. */
  predicate WritesTo(x: Proc, id: string) {
    AboutToPend(x, id) || (x.Worker? && Writes(x.at) && x.job.id == id)
  }

  lemma CallWritesOneRecord(cfg: Config, s: State, p: nat, c: Choice, t: State, id: string)
    requires p < |s.procs| && CallNext(cfg, s, p, c) == Some(t)
    requires !WritesTo(s.procs[p], id) && id in s.store && Keyed(s.store)
    ensures id in t.store && t.store[id] == s.store[id]
    ensures t.lastRun == s.lastRun
  {
  }

  lemma WorkerWritesOneRecord(cfg: Config, s: State, p: nat, job: Job, at: Stage, c: Choice, t: State, id: string)
    requires p < |s.procs| && WorkerNext(cfg, s, p, job, at, c) == Some(t) && s.procs[p] == Worker(job, at)
    requires Tagged(s.procs[p], s.store) && Keyed(s.store)
    requires !WritesTo(s.procs[p], id) && id in s.store
    ensures id in t.store && t.store[id] == s.store[id]
    ensures id in s.lastRun ==> id in t.lastRun && t.lastRun[id] == s.lastRun[id]
  {
    WorkerStores(cfg, s, p, job, at, c, t);
  }

  lemma StepWritesOneRecord(cfg: Config, s: State, p: nat, c: Choice, t: State, id: string)
    requires Base(cfg, s) && Next(cfg, s, Act(p, c)) == Some(t) && p < |s.procs|
    requires !WritesTo(s.procs[p], id) && id in s.store
    ensures id in t.store && t.store[id] == s.store[id]
    ensures id in s.lastRun ==> id in t.lastRun && t.lastRun[id] == s.lastRun[id]
  {
    assert Tagged(s.procs[p], s.store);
    match s.procs[p]
    case Worker(job, at) => WorkerWritesOneRecord(cfg, s, p, job, at, c, t, id);
    case Admitted(_) =>
    case _ => CallWritesOneRecord(cfg, s, p, c, t, id);
  }

  /** Whatever another goroutine relies on survives the step. */
  lemma OthersUndisturbed(cfg: Config, s: State, p: nat, c: Choice, t: State, q: nat)
    requires Orderly(cfg, s) && FreshID(s, Act(p, c)) && Next(cfg, s, Act(p, c)) == Some(t)
    requires p < |s.procs| && q < |s.procs| && p != q
    ensures LocalOk(cfg, s.procs[q], t.store, TrailOf(t.log, q))
  {
    var x := s.procs[q];
    assert LocalOk(cfg, x, s.store, TrailOf(s.log, q));
    assert Tagged(x, s.store);
    StepKeepsTags(cfg, s, Act(p, c), t);
    forall id | Touches(x, id) && id in s.store ensures id in t.store && t.store[id] == s.store[id] {
      if WritesTo(s.procs[p], id) {
        if Touches(s.procs[p], id) { OnlyOneTouches(cfg, s, p, q, id); }
      } else {
        StepWritesOneRecord(cfg, s, p, c, t, id);
      }
    }
    LocalOkFrame(cfg, x, s.store, t.store, TrailOf(s.log, q));
    StepLogs(cfg, s, p, c, t);
    if t.log != s.log { TrailAppend(s.log, t.log[|s.log|], q); }
  }

  // The moving goroutine

  lemma CallStaysOk(cfg: Config, s: State, p: nat, c: Choice, t: State, tr: Trail, tr': Trail)
    requires p < |s.procs| <= |t.procs| && CallNext(cfg, s, p, c) == Some(t) && !s.procs[p].Worker?
    requires LocalOk(cfg, s.procs[p], s.store, tr) && Tagged(s.procs[p], s.store) && Keyed(s.store)
    ensures LocalOk(cfg, t.procs[p], t.store, tr')
  {
    match s.procs[p]
    case AsyncReady(_, _) => CreateStaysOk(cfg, s, p, c, t, tr'); hide CallNext;
    case ReplayRead(_) => ReplayStaysOk(cfg, s, p, c, t, tr, tr'); hide CallNext;
    case ReplayReady(_, _) => ReplayStaysOk(cfg, s, p, c, t, tr, tr'); hide CallNext;
    case Spawning(_, _, _) => SpawnStaysOk(cfg, s, p, c, t, tr, tr'); hide CallNext;
    case _ => NoJobYet(cfg, s, p, c, t); hide CallNext;
  }

  lemma CreateStaysOk(cfg: Config, s: State, p: nat, c: Choice, t: State, tr': Trail)
    requires p < |s.procs| <= |t.procs| && CallNext(cfg, s, p, c) == Some(t) && s.procs[p].AsyncReady?
    ensures LocalOk(cfg, t.procs[p], t.store, tr')
  {
  }

  lemma ReplayStaysOk(cfg: Config, s: State, p: nat, c: Choice, t: State, tr: Trail, tr': Trail)
    requires p < |s.procs| <= |t.procs| && CallNext(cfg, s, p, c) == Some(t)
    requires s.procs[p].ReplayRead? || s.procs[p].ReplayReady?
    requires LocalOk(cfg, s.procs[p], s.store, tr)
    ensures LocalOk(cfg, t.procs[p], t.store, tr')
  {
  }

  lemma SpawnStaysOk(cfg: Config, s: State, p: nat, c: Choice, t: State, tr: Trail, tr': Trail)
    requires p < |s.procs| <= |t.procs| && CallNext(cfg, s, p, c) == Some(t) && s.procs[p].Spawning?
    requires LocalOk(cfg, s.procs[p], s.store, tr)
    ensures LocalOk(cfg, t.procs[p], t.store, tr')
  {
  }

  lemma LookUpStaysOk(cfg: Config, s: State, p: nat, req: Request, c: Choice, t: State, tr': Trail)
    requires p < |s.procs| <= |t.procs| && LookUpNext(cfg, s, p, req, c) == Some(t) && Keyed(s.store)
    requires forall id | id in s.store :: s.store[id].status != Failed
    ensures LocalOk(cfg, t.procs[p], t.store, tr')
  {
  }

  predicate Starts(at: Stage) { at.Queued? || at.Holding? || at.StartRead? }
  predicate Loops(at: Stage) { at.Calling? || at.Stumbled? || at.RetryRead? || at.Sleeping? }

  lemma StartStaysOk(cfg: Config, s: State, p: nat, job: Job, at: Stage, c: Choice, t: State, tr: Trail)
    requires p < |s.procs| <= |t.procs| && WorkerNext(cfg, s, p, job, at, c) == Some(t) && Starts(at)
    requires s.procs[p] == Worker(job, at) && Keyed(s.store)
    requires LocalOk(cfg, s.procs[p], s.store, tr) && Shape(cfg, s.store[job.id])
    ensures LocalOk(cfg, t.procs[p], t.store, tr)
  {
    assert TotalSleep(0) == 0;
  }

  lemma LoopStaysOk(cfg: Config, s: State, p: nat, job: Job, at: Stage, c: Choice, t: State, tr: Trail)
    requires p < |s.procs| <= |t.procs| && WorkerNext(cfg, s, p, job, at, c) == Some(t) && Loops(at)
    requires s.procs[p] == Worker(job, at) && Keyed(s.store)
    requires LocalOk(cfg, s.procs[p], s.store, tr) && Shape(cfg, s.store[job.id])
    ensures LocalOk(cfg, t.procs[p], t.store, TrailNext(at, c, p, job, tr))
  {
    if at.Sleeping? {
      assert TotalSleep(at.attempt + 1) == TotalSleep(at.attempt) + Nap(at.attempt);
    }
  }

  lemma EndStaysOk(cfg: Config, s: State, p: nat, job: Job, at: Stage, c: Choice, t: State, tr: Trail)
    requires p < |s.procs| <= |t.procs| && WorkerNext(cfg, s, p, job, at, c) == Some(t) && !Starts(at) && !Loops(at)
    requires s.procs[p] == Worker(job, at) && Keyed(s.store)
    requires LocalOk(cfg, s.procs[p], s.store, tr)
    ensures LocalOk(cfg, t.procs[p], t.store, tr)
  {
    hide WorkerNext, TotalSleep;
    if at.Ending? || at.EndRead? {
      ConclusionStaysOk(cfg, s, p, job, at, c, t, tr);
    } else {
      LeavingStaysOk(cfg, s, p, job, at, c, t, tr);
    }
  }

  lemma ConclusionStaysOk(cfg: Config, s: State, p: nat, job: Job, at: Stage, c: Choice, t: State, tr: Trail)
    requires p < |s.procs| <= |t.procs| && WorkerNext(cfg, s, p, job, at, c) == Some(t) && (at.Ending? || at.EndRead?)
    requires LocalOk(cfg, Worker(job, at), s.store, tr)
    ensures LocalOk(cfg, t.procs[p], t.store, tr)
  {
    hide TotalSleep;
  }

  lemma LeavingStaysOk(cfg: Config, s: State, p: nat, job: Job, at: Stage, c: Choice, t: State, tr: Trail)
    requires p < |s.procs| <= |t.procs| && WorkerNext(cfg, s, p, job, at, c) == Some(t)
    requires at.Metered? || at.Releasing? || at.Leaving?
    requires Keyed(s.store) && LocalOk(cfg, Worker(job, at), s.store, tr)
    ensures LocalOk(cfg, t.procs[p], t.store, tr)
  {
    hide TotalSleep;
  }

  lemma MoverStaysOk(cfg: Config, s: State, p: nat, c: Choice, t: State)
    requires Orderly(cfg, s) && Next(cfg, s, Act(p, c)) == Some(t) && p < |s.procs| <= |t.procs|
    ensures LocalOk(cfg, t.procs[p], t.store, TrailOf(t.log, p))
  {
    hide WorkerNext, CallNext, LookUpNext, StageOk, Lasting, TrailOf;
    assert LocalOk(cfg, s.procs[p], s.store, TrailOf(s.log, p));
    assert Tagged(s.procs[p], s.store);
    match s.procs[p]
    case Worker(job, at) =>
      TrailFollows(cfg, s, p, job, at, c, t);
      assert RecordOk(cfg, s, job.id);
      if Starts(at) {
        StartStaysOk(cfg, s, p, job, at, c, t, TrailOf(s.log, p));
      } else if Loops(at) {
        LoopStaysOk(cfg, s, p, job, at, c, t, TrailOf(s.log, p));
      } else {
        EndStaysOk(cfg, s, p, job, at, c, t, TrailOf(s.log, p));
      }
    case Admitted(req) =>
      forall id | id in s.store ensures s.store[id].status != Failed { assert RecordOk(cfg, s, id); }
      LookUpStaysOk(cfg, s, p, req, c, t, TrailOf(t.log, p));
    case _ => CallStaysOk(cfg, s, p, c, t, TrailOf(s.log, p), TrailOf(t.log, p));
  }

  // Records

  lemma CallWritesWellShaped(cfg: Config, s: State, p: nat, c: Choice, t: State, id: string)
    requires p < |s.procs| && CallNext(cfg, s, p, c) == Some(t) && AboutToPend(s.procs[p], id)
    requires s.procs[p].ReplayReady? ==> Shape(cfg, s.procs[p].snap) && s.procs[p].snap.status == DeadLetter
    ensures id in t.store ==> Shape(cfg, t.store[id]) && !Terminal(t.store[id].status)
  {
  }

  lemma WorkerWritesWellShaped(cfg: Config, s: State, p: nat, job: Job, at: Stage, c: Choice, t: State, tr: Trail)
    requires p < |s.procs| && WorkerNext(cfg, s, p, job, at, c) == Some(t) && Writes(at)
    requires job.id in s.store && Keyed(s.store) && StageOk(cfg, s.store[job.id], at, tr) && Shape(cfg, s.store[job.id])
    ensures job.id in t.store && Shape(cfg, t.store[job.id])
    ensures Terminal(t.store[job.id].status) ==>
              && at.Metered?
              && t == Goto(s.(store := t.store, lastRun := s.lastRun[job.id := p]), p, Worker(job, Releasing))
              && Lasting(cfg, t.store[job.id], tr)
  {
  }

  lemma PastStaysPast(cfg: Config, s: State, p: nat, c: Choice, t: State, w: nat)
    requires Next(cfg, s, Act(p, c)) == Some(t) && p < |s.procs| && w < |s.procs| && Past(s.procs[w])
    ensures w < |t.procs| && Past(t.procs[w])
    ensures TrailOf(t.log, w) == TrailOf(s.log, w)
  {
    NextShape(cfg, s, Act(p, c), t);
    if w != p {
      StepLogs(cfg, s, p, c, t);
      if t.log != s.log { TrailAppend(s.log, t.log[|s.log|], w); }
    } else {
      assert s.procs[p].Worker?;
    }
  }

  lemma RecordStaysOk(cfg: Config, s: State, p: nat, c: Choice, t: State, id: string)
    requires Orderly(cfg, s) && Next(cfg, s, Act(p, c)) == Some(t) && p < |s.procs|
    requires id in t.store
    ensures RecordOk(cfg, t, id)
  {
    NextShape(cfg, s, Act(p, c), t);
    var x := s.procs[p];
    assert LocalOk(cfg, x, s.store, TrailOf(s.log, p));
    assert Tagged(x, s.store);
    if WritesTo(x, id) {
      if x.Worker? {
        assert RecordOk(cfg, s, id);
        WorkerWritesWellShaped(cfg, s, p, x.job, x.at, c, t, TrailOf(s.log, p));
      } else {
        if x.ReplayReady? { assert RecordOk(cfg, s, id); }
        CallWritesWellShaped(cfg, s, p, c, t, id);
      }
    } else {
      NoRecordFromNowhere(cfg, s, p, c, t, id);
      StepWritesOneRecord(cfg, s, p, c, t, id);
      assert RecordOk(cfg, s, id);
      if Terminal(s.store[id].status) {
        PastStaysPast(cfg, s, p, c, t, s.lastRun[id]);
      }
    }
  }

  lemma NoRecordFromNowhere(cfg: Config, s: State, p: nat, c: Choice, t: State, id: string)
    requires Base(cfg, s) && Next(cfg, s, Act(p, c)) == Some(t) && p < |s.procs|
    requires id in t.store && !WritesTo(s.procs[p], id)
    ensures id in s.store
  {
    hide WorkerNext, CallNext, AllTagged, Counted, LogInRange;
    match s.procs[p]
    case Worker(job, at) => WorkerStores(cfg, s, p, job, at, c, t);
    case Admitted(_) =>
    case _ => CallAddsNoOther(cfg, s, p, c, t, id);
  }

  lemma CallAddsNoOther(cfg: Config, s: State, p: nat, c: Choice, t: State, id: string)
    requires p < |s.procs| && CallNext(cfg, s, p, c) == Some(t)
    requires id in t.store && !AboutToPend(s.procs[p], id)
    ensures id in s.store
  {
  }

  // Replays

  lemma ReplaysStayLone(cfg: Config, s: State, a: Action, t: State)
    requires LoneReplays(s.procs) && LoneReplay(s, a) && Keyed(s.store) && Next(cfg, s, a) == Some(t)
    ensures LoneReplays(t.procs)
  {
    forall id ensures |Cast(t.procs, ReplayerOf(id))| <= 1 {
      RoleDelta(cfg, s, a, t, ReplayerOf(id));
      assert |Cast(s.procs, ReplayerOf(id))| <= 1;
      if a.Act? { ReplayerComesFromRead(cfg, s, a.p, a.choice, t, id); }
    }
  }

  lemma ReplayerComesFromRead(cfg: Config, s: State, p: nat, c: Choice, t: State, id: string)
    requires Next(cfg, s, Act(p, c)) == Some(t) && p < |s.procs| <= |t.procs| && Keyed(s.store)
    ensures Plays(t.procs[p], ReplayerOf(id)) ==>
              Plays(s.procs[p], ReplayerOf(id)) || s.procs[p] == Admitted(ReplayCall(id))
  {
    hide WorkerNext, CallNext;
    match s.procs[p]
    case Worker(job, at) => WorkerStores(cfg, s, p, job, at, c, t);
    case Admitted(_) =>
    case _ => CallMakesNoReplayer(cfg, s, p, c, t, id);
  }

  lemma CallMakesNoReplayer(cfg: Config, s: State, p: nat, c: Choice, t: State, id: string)
    requires p < |s.procs| <= |t.procs| && CallNext(cfg, s, p, c) == Some(t)
    ensures Plays(t.procs[p], ReplayerOf(id)) ==> Plays(s.procs[p], ReplayerOf(id))
  {
    match s.procs[p]
    case AsyncReady(_, _) =>
    case ReplayRead(_) =>
    case ReplayReady(_, _) =>
    case Spawning(_, _, _) =>
    case _ =>
      NoJobYet(cfg, s, p, c, t);
      hide CallNext;
  }

  // Steps and runs

  /** Discipline implies that no step overwrites an active record. */
  lemma DisciplineIsEnough(cfg: Config, s: State, a: Action)
    requires Orderly(cfg, s) && Disciplined(s, a)
    ensures NoOverwrite(s, a)
  {
    if a.Act? && a.p < |s.procs| {
      assert LocalOk(cfg, s.procs[a.p], s.store, TrailOf(s.log, a.p));
    }
  }

  lemma NewWorkerOk(cfg: Config, s: State, p: nat, c: Choice, t: State)
    requires Orderly(cfg, s) && Next(cfg, s, Act(p, c)) == Some(t) && p < |s.procs| && Spawns(s.procs[p])
    ensures |t.procs| == |s.procs| + 1
    ensures LocalOk(cfg, t.procs[|s.procs|], t.store, TrailOf(t.log, |s.procs|))
  {
    NextShape(cfg, s, Act(p, c), t);
    assert LocalOk(cfg, s.procs[p], s.store, TrailOf(s.log, p));
    TrailOfStranger(s.log, |s.procs|);
  }

  lemma ArrivalStaysOrderly(cfg: Config, s: State, req: Request, t: State)
    requires Orderly(cfg, s) && Next(cfg, s, Arrive(req)) == Some(t)
    ensures Orderly(cfg, t)
  {
    var a := Arrive(req);
    StepKeepsBase(cfg, s, a, t);
    OwnershipKeptExactly(cfg, s, a, t);
    ReplaysStayLone(cfg, s, a, t);
    forall p | 0 <= p < |t.procs| ensures LocalOk(cfg, t.procs[p], t.store, TrailOf(t.log, p)) {
      if p < |s.procs| { assert LocalOk(cfg, s.procs[p], s.store, TrailOf(s.log, p)); }
    }
    forall id | id in t.store ensures RecordOk(cfg, t, id) {
      assert RecordOk(cfg, s, id);
    }
  }

  lemma StepStaysOrderly(cfg: Config, s: State, a: Action, t: State)
    requires Orderly(cfg, s) && Disciplined(s, a) && Next(cfg, s, a) == Some(t)
    ensures Orderly(cfg, t)
  {
    hide Next, LocalOk, RecordOk, LoneReplay, FreshID, Counted, OneOwnerEach;
    match a
    case Arrive(req) => ArrivalStaysOrderly(cfg, s, req, t);
    case Act(p, c) =>
      StepKeepsBase(cfg, s, a, t);
      DisciplineIsEnough(cfg, s, a);
      OwnershipKeptExactly(cfg, s, a, t);
      ReplaysStayLone(cfg, s, a, t);
      NextShape(cfg, s, a, t);
      forall q | 0 <= q < |t.procs| ensures LocalOk(cfg, t.procs[q], t.store, TrailOf(t.log, q)) {
        if q == p {
          MoverStaysOk(cfg, s, p, c, t);
        } else if q < |s.procs| {
          OthersUndisturbed(cfg, s, p, c, t, q);
        } else {
          NewWorkerOk(cfg, s, p, c, t);
        }
      }
      forall id | id in t.store ensures RecordOk(cfg, t, id) {
        RecordStaysOk(cfg, s, p, c, t, id);
      }
  }

  lemma InitOrderly(cfg: Config)
    ensures Orderly(cfg, INIT)
  {
    InitBase(cfg);
    InitBalanced();
    forall id ensures |Cast(INIT.procs, ReplayerOf(id))| <= 1 {
      assert Cast([], ReplayerOf(id)) == {};
    }
  }

  lemma {:induction false} RunStaysOrderly(cfg: Config, s: State, acts: seq<Action>, t: State)
    requires Orderly(cfg, s) && DisciplinedRun(cfg, s, acts) && Exec(cfg, s, acts) == Some(t)
    ensures Orderly(cfg, t)
    decreases |acts|
  {
    if acts != [] {
      var u := Next(cfg, s, acts[0]).value;
      StepStaysOrderly(cfg, s, acts[0], u);
      RunStaysOrderly(cfg, u, acts[1..], t);
    }
  }
}
