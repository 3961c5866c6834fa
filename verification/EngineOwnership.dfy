/**
 Unique ownership: a record with work to come has exactly one owner, a record without has none. Each step keeps this
 exactly when it does not overwrite a record that is still active.
 */
module EngineOwnership {
  import opened Domain
  import opened Engine
  import opened EngineCounting
  import opened EngineBase
  import opened EngineFaith

  predicate ActiveAt(store: map<string, Record>, id: string) {
    id in store && Active(store[id].status)
  }

  /** One owner for each pending or running record, none for any other id: no run is lost and none is doubled. */
  ghost predicate OneOwnerEach(s: State) {
    forall id :: |Cast(s.procs, OwnerOf(id))| == One(ActiveAt(s.store, id))
  }

  /** A worker about to write a retry back has read a record that was still active. */
  predicate RetriesActive(x: Proc) {
    x.Worker? && x.at.RetryRead? ==> Active(x.at.snap.status)
  }

  ghost predicate Balanced(s: State) {
    OneOwnerEach(s) && forall p | 0 <= p < |s.procs| :: RetriesActive(s.procs[p])
  }

  /** The two steps that make a record pending find no active record under its id. */
  predicate NoOverwrite(s: State, a: Action) {
    a.Act? && a.p < |s.procs| ==>
      match s.procs[a.p]
      case AsyncReady(req, _) => req.AsyncCall? ==> !ActiveAt(s.store, req.id)
      case ReplayReady(snap, _) => !ActiveAt(s.store, snap.id)
      case _ => true
  }

  /** The id under which a goroutine of this kind is about to make a pending record. */
  predicate AboutToPend(x: Proc, id: string) {
    (x.AsyncReady? && x.req.AsyncCall? && x.req.id == id) || (x.ReplayReady? && x.snap.id == id)
  }

  /** What one step does to one id's ownership and activity. */
  ghost predicate OwnershipMoves(s: State, p: nat, t: State, id: string)
    requires p < |s.procs| <= |t.procs|
  {
    var x, y := s.procs[p], t.procs[p];
    var was := One(Plays(x, OwnerOf(id)));
    var now := One(Plays(y, OwnerOf(id)) || (Spawns(x) && x.job.id == id));
    if AboutToPend(x, id) then was == 0 && now == 1 && ActiveAt(t.store, id)
    else if was == 1 then now == One(ActiveAt(t.store, id))
    else now == 0 && ActiveAt(t.store, id) == ActiveAt(s.store, id)
  }

  lemma CallMovesOwnership(cfg: Config, s: State, p: nat, c: Choice, t: State, id: string)
    requires p < |s.procs| <= |t.procs| && CallNext(cfg, s, p, c) == Some(t)
    requires Tagged(s.procs[p], s.store) && !s.procs[p].Worker?
    requires Plays(s.procs[p], OwnerOf(id)) ==> ActiveAt(s.store, id)
    ensures OwnershipMoves(s, p, t, id)
  {
    match s.procs[p]
    case AsyncReady(_, _) =>
    case ReplayReady(_, _) =>
    case Spawning(_, _, counted) =>
    case _ => assert t.store == s.store;
  }

  lemma WorkerMovesOwnership(cfg: Config, s: State, p: nat, job: Job, at: Stage, c: Choice, t: State, id: string)
    requires p < |s.procs| <= |t.procs| && WorkerNext(cfg, s, p, job, at, c) == Some(t)
    requires s.procs[p] == Worker(job, at) && Tagged(s.procs[p], s.store) && RetriesActive(s.procs[p])
    requires Plays(s.procs[p], OwnerOf(id)) ==> ActiveAt(s.store, id)
    ensures OwnershipMoves(s, p, t, id)
    ensures t.procs[p].Worker? && t.procs[p].at.RetryRead? ==>
              job.id in s.store && t.procs[p].at.snap == s.store[job.id] && Owning(s.procs[p])
  {
    hide WorkerNext;
    WorkerStores(cfg, s, p, job, at, c, t);
    WorkerGivesUpFinished(cfg, s, p, job, at, c, t);
  }

  lemma OwnerMeansActive(s: State, p: nat)
    requires OneOwnerEach(s) && p < |s.procs| && Owning(s.procs[p])
    ensures ActiveAt(s.store, s.procs[p].job.id)
  {
    var id := s.procs[p].job.id;
    AtLeastOne(s.procs, OwnerOf(id), p);
    assert |Cast(s.procs, OwnerOf(id))| == One(ActiveAt(s.store, id));
  }

  lemma StepMovesOwnership(cfg: Config, s: State, p: nat, c: Choice, t: State, id: string)
    requires Base(cfg, s) && Balanced(s) && Next(cfg, s, Act(p, c)) == Some(t) && p < |s.procs| <= |t.procs|
    ensures OwnershipMoves(s, p, t, id)
    ensures RetriesActive(t.procs[p])
  {
    hide WorkerNext, CallNext, Counted, Keyed, LogInRange;
    assert Tagged(s.procs[p], s.store) && RetriesActive(s.procs[p]);
    if Owning(s.procs[p]) { OwnerMeansActive(s, p); }
    match s.procs[p]
    case Worker(job, at) => WorkerMovesOwnership(cfg, s, p, job, at, c, t, id);
    case Admitted(_) =>
    case _ =>
      CallMovesOwnership(cfg, s, p, c, t, id);
      CallMakesNoWorker(cfg, s, p, c, t);
  }

  lemma ArrivalKeepsBalance(cfg: Config, s: State, req: Request, t: State)
    requires Balanced(s) && Next(cfg, s, Arrive(req)) == Some(t)
    ensures Balanced(t)
  {
    forall id ensures |Cast(t.procs, OwnerOf(id))| == One(ActiveAt(t.store, id)) {
      RoleDelta(cfg, s, Arrive(req), t, OwnerOf(id));
      assert |Cast(s.procs, OwnerOf(id))| == One(ActiveAt(s.store, id));
    }
  }

  lemma StepKeepsRetriesActive(cfg: Config, s: State, p: nat, c: Choice, t: State)
    requires Base(cfg, s) && Balanced(s) && Next(cfg, s, Act(p, c)) == Some(t)
    ensures forall q | 0 <= q < |t.procs| :: RetriesActive(t.procs[q])
  {
    NextShape(cfg, s, Act(p, c), t);
    StepMovesOwnership(cfg, s, p, c, t, "");
    forall q | 0 <= q < |t.procs| ensures RetriesActive(t.procs[q]) {
      if q < |s.procs| { assert RetriesActive(s.procs[q]); }
    }
  }

  /** After a step an id has the owners its record calls for, and one too many if the step overwrote an active record. */
  lemma OwnersAfterStep(cfg: Config, s: State, p: nat, c: Choice, t: State, id: string)
    requires Base(cfg, s) && Balanced(s) && Next(cfg, s, Act(p, c)) == Some(t) && p < |s.procs|
    ensures |Cast(t.procs, OwnerOf(id))| ==
            One(ActiveAt(t.store, id)) + One(AboutToPend(s.procs[p], id) && ActiveAt(s.store, id))
    ensures AboutToPend(s.procs[p], id) ==> ActiveAt(t.store, id)
  {
    RoleDelta(cfg, s, Act(p, c), t, OwnerOf(id));
    StepMovesOwnership(cfg, s, p, c, t, id);
    assert |Cast(s.procs, OwnerOf(id))| == One(ActiveAt(s.store, id));
    if Plays(s.procs[p], OwnerOf(id)) { AtLeastOne(s.procs, OwnerOf(id), p); }
  }

  lemma OverwriteMeans(s: State, p: nat, c: Choice)
    requires p < |s.procs|
    ensures NoOverwrite(s, Act(p, c)) <==> forall id :: !(AboutToPend(s.procs[p], id) && ActiveAt(s.store, id))
  {
  }

  /**
   Unique ownership, exactly: from a state where it holds, a step keeps it if and only if the step does not make a
   record pending over one that is still pending or running.
   */
  lemma OwnershipKeptExactly(cfg: Config, s: State, a: Action, t: State)
    requires Base(cfg, s) && Balanced(s) && Next(cfg, s, a) == Some(t)
    ensures Balanced(t) <==> NoOverwrite(s, a)
  {
    match a
    case Arrive(req) => ArrivalKeepsBalance(cfg, s, req, t);
    case Act(p, c) =>
      StepKeepsRetriesActive(cfg, s, p, c, t);
      OverwriteMeans(s, p, c);
      forall id
        ensures |Cast(t.procs, OwnerOf(id))| ==
                One(ActiveAt(t.store, id)) + One(AboutToPend(s.procs[p], id) && ActiveAt(s.store, id))
      {
        OwnersAfterStep(cfg, s, p, c, t, id);
      }
  }

  lemma InitBalanced()
    ensures Balanced(INIT)
  {
    forall id ensures |Cast(INIT.procs, OwnerOf(id))| == One(ActiveAt(INIT.store, id)) {
      assert Cast([], OwnerOf(id)) == {};
    }
  }
}
