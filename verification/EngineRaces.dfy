/**
 Why the discipline is needed: an open service with a dead letter in it gives that record two owners as soon as two
 replays of it interleave, and an id used again while its record is active does the same.
 */
module EngineRaces {
  import opened Domain
  import opened Engine
  import opened EngineCounting
  import opened EngineBase
  import opened EngineOwnership

  lemma Extend(cfg: Config, s: State, acts: seq<Action>, t: State, a: Action, u: State)
    requires Exec(cfg, s, acts) == Some(t) && Next(cfg, t, a) == Some(u)
    ensures Exec(cfg, s, acts + [a]) == Some(u)
  {
    ExecAppend(cfg, s, acts, [a]);
    assert [a][1..] == [];
    assert Exec(cfg, u, []) == Some(u);
  }

  lemma TwoOwners(procs: seq<Proc>, id: string, p: nat, q: nat)
    requires p < q < |procs| && Plays(procs[p], OwnerOf(id)) && Plays(procs[q], OwnerOf(id))
    ensures |Cast(procs, OwnerOf(id))| >= 2
  {
    SubsetSize({p, q}, Cast(procs, OwnerOf(id)));
  }

  /** Two replays, each up to the point where it has read the dead letter and looked its function up. */
  function RacingReads(n: nat, id: string, fn: Function): seq<Action> {
    [Arrive(ReplayCall(id)), Arrive(ReplayCall(id)), Act(n, Go), Act(n + 1, Go),
     Act(n, Go), Act(n + 1, Go), Act(n, Found(fn)), Act(n + 1, Found(fn))]
  }

  /** Both replays pass the status check, since neither has written yet. */
  lemma BothReplaysPass(cfg: Config, s: State, id: string, fn: Function) returns (t: State)
    requires !s.closed && id in s.store && s.store[id].status == DeadLetter
    ensures Exec(cfg, s, RacingReads(|s.procs|, id, fn)) == Some(t)
    ensures var r := ReplayReady(s.store[id], fn); t == s.(procs := s.procs + [r, r])
  {
    var n, r := |s.procs|, s.store[id];
    var x0, x1, x2, x3 := Arrived(ReplayCall(id)), Admitted(ReplayCall(id)), ReplayRead(r), ReplayReady(r, fn);
    var all := RacingReads(n, id, fn);
    var pairs := [(x0, x0), (x1, x0), (x1, x1), (x2, x1), (x2, x2), (x3, x2), (x3, x3)];
    var u := s.(procs := s.procs + [x0]);
    assert Exec(cfg, s, []) == Some(s);
    Extend(cfg, s, [], s, Arrive(ReplayCall(id)), u);
    t := With(s, x0, x0);
    assert s.procs + [x0] + [x0] == t.procs;
    assert [] + [all[0]] + [all[1]] == all[..2];
    Extend(cfg, s, [] + [all[0]], u, Arrive(ReplayCall(id)), t);
    for i := 2 to 8
      invariant t == With(s, pairs[i - 2].0, pairs[i - 2].1)
      invariant Exec(cfg, s, all[..i]) == Some(t)
    {
      var x, y := pairs[i - 2].0, pairs[i - 2].1;
      var x', y' := pairs[i - 1].0, pairs[i - 1].1;
      PairUpdate(s, x, y, x');
      PairUpdate(s, x, y, y');
      assert Next(cfg, t, all[i]) == Some(With(s, x', y'));
      Extend(cfg, s, all[..i], t, all[i], With(s, x', y'));
      assert all[..i] + [all[i]] == all[..i + 1];
      t := With(s, x', y');
    }
    assert all[..8] == all;
  }

  function With(s: State, x: Proc, y: Proc): State {
    s.(procs := s.procs + [x, y])
  }

  lemma PairUpdate(s: State, x: Proc, y: Proc, z: Proc)
    ensures Goto(With(s, x, y), |s.procs|, z) == With(s, z, y)
    ensures Goto(With(s, x, y), |s.procs| + 1, z) == With(s, x, z)
  {
    assert (s.procs + [x, y])[|s.procs| := z] == s.procs + [z, y];
    assert (s.procs + [x, y])[|s.procs| + 1 := z] == s.procs + [x, z];
  }

  /**
   Racing replays: in any open state with a dead letter, the discipline is what keeps ownership unique. Without it,
   two replays both requeue the record and two workers will run it.
   */
  lemma RacingReplaysMakeTwoOwners(cfg: Config, s: State, id: string, fn: Function) returns (acts: seq<Action>, t: State)
    requires Base(cfg, s) && !s.closed
    requires id in s.store && s.store[id].status == DeadLetter
    ensures Exec(cfg, s, acts) == Some(t) && |Cast(t.procs, OwnerOf(id))| >= 2 && !Balanced(t)
    ensures t.procs == s.procs + [Requeuing(cfg, s, id, fn, |s.procs|), Requeuing(cfg, s, id, fn, |s.procs| + 1)]
  {
    var n, r := |s.procs|, s.store[id];
    acts := RacingReads(n, id, fn);
    var u := BothReplaysPass(cfg, s, id, fn);
    var v := Next(cfg, u, Act(n, Go)).value;
    Extend(cfg, s, acts, u, Act(n, Go), v);
    acts := acts + [Act(n, Go)];
    assert r.id == id;
    assert v.procs[n + 1] == ReplayReady(r, fn) && id in v.store;
    t := Next(cfg, v, Act(n + 1, Go)).value;
    Extend(cfg, s, acts, v, Act(n + 1, Go), t);
    acts := acts + [Act(n + 1, Go)];
    TwoOwners(t.procs, id, n, n + 1);
    assert |Cast(t.procs, OwnerOf(id))| != One(ActiveAt(t.store, id));
  }

  /** A replay that has put its record back and is about to spawn a worker for it. */
  function Requeuing(cfg: Config, s: State, id: string, fn: Function, p: nat): Proc
    requires id in s.store
  {
    Spawning(ReplayJob(cfg, s.store[id], fn, p), Requeued(s.store[id]), false)
  }

  /** A spawning call announces its worker and starts it, whatever else there is. */
  lemma SpawnsNext(cfg: Config, s: State, p: nat) returns (t: State)
    requires p < |s.procs| && s.procs[p].Spawning? && !s.procs[p].counted
    ensures Exec(cfg, s, [Act(p, Go), Act(p, Go)]) == Some(t)
    ensures |t.procs| == |s.procs| + 1 && t.procs[|s.procs|] == Worker(s.procs[p].job, Queued)
    ensures forall q | 0 <= q < |s.procs| && q != p :: t.procs[q] == s.procs[q]
  {
    var u := Next(cfg, s, Act(p, Go)).value;
    t := Next(cfg, u, Act(p, Go)).value;
    assert Exec(cfg, s, []) == Some(s);
    Extend(cfg, s, [], s, Act(p, Go), u);
    Extend(cfg, s, [] + [Act(p, Go)], u, Act(p, Go), t);
    assert [] + [Act(p, Go)] + [Act(p, Go)] == [Act(p, Go), Act(p, Go)];
  }

  /** And both of them do start: two workers at work on one record. */
  lemma RacingReplaysMakeTwoWorkers(cfg: Config, s: State, id: string, fn: Function) returns (acts: seq<Action>, t: State)
    requires Base(cfg, s) && !s.closed
    requires id in s.store && s.store[id].status == DeadLetter
    ensures Exec(cfg, s, acts) == Some(t) && TwoWorkers(t, id)
  {
    var n := |s.procs|;
    var u, v;
    acts, u := RacingReplaysMakeTwoOwners(cfg, s, id, fn);
    v := SpawnsNext(cfg, u, n);
    ExecAppend(cfg, s, acts, [Act(n, Go), Act(n, Go)]);
    acts := acts + [Act(n, Go), Act(n, Go)];
    t := SpawnsNext(cfg, v, n + 1);
    ExecAppend(cfg, s, acts, [Act(n + 1, Go), Act(n + 1, Go)]);
    acts := acts + [Act(n + 1, Go), Act(n + 1, Go)];
    assert s.store[id].id == id;
    assert t.procs[n + 2] == v.procs[n + 2];
    assert IsWorkerFor(t.procs[n + 2], id) && IsWorkerFor(t.procs[n + 3], id);
  }

  predicate IsWorkerFor(x: Proc, id: string) {
    x.Worker? && x.job.id == id && Owning(x)
  }

  /** Two different workers are at work on one record. */
  predicate TwoWorkers(s: State, id: string) {
    exists p, q | 0 <= p < q < |s.procs| :: IsWorkerFor(s.procs[p], id) && IsWorkerFor(s.procs[q], id)
  }

  /** Reusing the id of an active record: the newcomer overwrites it and becomes a second owner. */
  lemma ReusedIdMakesTwoOwners(cfg: Config, s: State, req: Request, fn: Function) returns (acts: seq<Action>, t: State)
    requires Base(cfg, s) && Balanced(s) && !s.closed && req.AsyncCall? && ActiveAt(s.store, req.id)
    ensures Exec(cfg, s, acts) == Some(t) && |Cast(t.procs, OwnerOf(req.id))| >= 2 && !Balanced(t)
  {
    var n := |s.procs|;
    var s1 := s.(procs := s.procs + [Arrived(req)]);
    var s2 := s.(procs := s.procs + [Admitted(req)]);
    var s3 := s.(procs := s.procs + [AsyncReady(req, fn)]);
    t := Next(cfg, s3, Act(n, At(0))).value;
    assert Exec(cfg, s, []) == Some(s);
    Extend(cfg, s, [], s, Arrive(req), s1);
    assert s1.procs[n := Admitted(req)] == s2.procs;
    Extend(cfg, s, [] + [Arrive(req)], s1, Act(n, Go), s2);
    assert s2.procs[n := AsyncReady(req, fn)] == s3.procs;
    Extend(cfg, s, [] + [Arrive(req)] + [Act(n, Go)], s2, Act(n, Found(fn)), s3);
    acts := [] + [Arrive(req)] + [Act(n, Go)] + [Act(n, Found(fn))] + [Act(n, At(0))];
    Extend(cfg, s, [] + [Arrive(req)] + [Act(n, Go)] + [Act(n, Found(fn))], s3, Act(n, At(0)), t);
    OwnersAfterCreate(cfg, s, s3, req, fn, t);
  }

  lemma OwnersAfterCreate(cfg: Config, s: State, s3: State, req: Request, fn: Function, t: State)
    requires Base(cfg, s) && Balanced(s) && req.AsyncCall? && ActiveAt(s.store, req.id)
    requires s3 == s.(procs := s.procs + [AsyncReady(req, fn)])
    requires Next(cfg, s3, Act(|s.procs|, At(0))) == Some(t)
    ensures |Cast(t.procs, OwnerOf(req.id))| >= 2 && !Balanced(t)
  {
    assert |Cast(s.procs, OwnerOf(req.id))| == One(ActiveAt(s.store, req.id));
    CastAppend(s.procs, AsyncReady(req, fn), OwnerOf(req.id));
    RoleDelta(cfg, s3, Act(|s.procs|, At(0)), t, OwnerOf(req.id));
    assert |Cast(t.procs, OwnerOf(req.id))| != One(ActiveAt(t.store, req.id));
  }

  // The states the races start from do occur

  /** Take one more step of a run from the start. */
  lemma Onward(cfg: Config, acts: seq<Action>, s: State, a: Action) returns (more: seq<Action>, t: State)
    requires Exec(cfg, INIT, acts) == Some(s) && Next(cfg, s, a).Some?
    ensures more == acts + [a] && Some(t) == Next(cfg, s, a) && Exec(cfg, INIT, more) == Some(t)
  {
    t := Next(cfg, s, a).value;
    more := acts + [a];
    Extend(cfg, INIT, acts, s, a, t);
  }

  /** An asynchronous call on its own, up to its worker waiting in line. */
  lemma FirstCallQueues(cfg: Config, req: Request, fn: Function) returns (acts: seq<Action>, t: State)
    requires req.AsyncCall?
    ensures Exec(cfg, INIT, acts) == Some(t) && |t.procs| == 2 && t.procs[1] == Worker(NewJob(cfg, req, fn, 0), Queued)
    ensures t.store == map[req.id := NewRecord(cfg, req, fn, 0)] && !t.closed && t.sem == 0 && t.wg == 1
  {
    acts, t := [Arrive(req)], INIT.(procs := [Arrived(req)]);
    assert Exec(cfg, INIT, []) == Some(INIT);
    assert INIT.procs + [Arrived(req)] == t.procs;
    Extend(cfg, INIT, [], INIT, Arrive(req), t);
    assert [] + [Arrive(req)] == acts;
    acts, t := Onward(cfg, acts, t, Act(0, Go));
    acts, t := Onward(cfg, acts, t, Act(0, Found(fn)));
    acts, t := Onward(cfg, acts, t, Act(0, At(0)));
    acts, t := Onward(cfg, acts, t, Act(0, Go));
    acts, t := Onward(cfg, acts, t, Act(0, Go));
  }

  /** The service is open, its first call's worker stands at `at`, and that call's record is stored. */
  predicate Underway(cfg: Config, req: Request, fn: Function, s: State, at: Stage)
    requires req.AsyncCall?
  {
    && !s.closed
    && |s.procs| == 2 && s.procs[1] == Worker(NewJob(cfg, req, fn, 0), at)
    && req.id in s.store && s.store[req.id].id == req.id
  }

  lemma OnlyCallStarts(cfg: Config, req: Request, fn: Function) returns (acts: seq<Action>, t: State)
    requires req.AsyncCall? && cfg.capacity >= 1
    ensures Exec(cfg, INIT, acts) == Some(t) && Underway(cfg, req, fn, t, Calling(0))
  {
    acts, t := FirstCallQueues(cfg, req, fn);
    acts, t := Onward(cfg, acts, t, Act(1, Go));
    acts, t := Onward(cfg, acts, t, Act(1, Go));
    acts, t := Onward(cfg, acts, t, Act(1, Go));
  }

  /** One attempt fails, and its failure is written down. */
  lemma AttemptFails(cfg: Config, req: Request, fn: Function, acts0: seq<Action>, s: State, a: nat)
    returns (acts: seq<Action>, t: State)
    requires req.AsyncCall? && a < Retries(cfg)
    requires Exec(cfg, INIT, acts0) == Some(s) && Underway(cfg, req, fn, s, Calling(a))
    ensures Exec(cfg, INIT, acts) == Some(t) && Underway(cfg, req, fn, t, Sleeping(a))
  {
    hide Exec, CallNext, LookUpNext;
    acts, t := Onward(cfg, acts0, s, Act(1, Ran(Err("boom"))));
    assert Underway(cfg, req, fn, t, Stumbled(a, "boom"));
    acts, t := FailureNoted(cfg, req, fn, acts, t, a);
  }

  lemma FailureNoted(cfg: Config, req: Request, fn: Function, acts0: seq<Action>, s: State, a: nat)
    returns (acts: seq<Action>, t: State)
    requires req.AsyncCall?
    requires Exec(cfg, INIT, acts0) == Some(s) && Underway(cfg, req, fn, s, Stumbled(a, "boom"))
    ensures Exec(cfg, INIT, acts) == Some(t) && Underway(cfg, req, fn, t, Sleeping(a))
  {
    hide Exec, CallNext, LookUpNext;
    acts, t := Onward(cfg, acts0, s, Act(1, Go));
    acts, t := Onward(cfg, acts, t, Act(1, Go));
  }

  lemma {:induction false} AllAttemptsFail(cfg: Config, req: Request, fn: Function, acts0: seq<Action>, s: State, a: nat)
    returns (acts: seq<Action>, t: State)
    requires req.AsyncCall? && a <= Retries(cfg)
    requires Exec(cfg, INIT, acts0) == Some(s) && Underway(cfg, req, fn, s, Calling(a))
    ensures Exec(cfg, INIT, acts) == Some(t) && Underway(cfg, req, fn, t, Ending(Retries(cfg) + 1, Err("boom")))
    decreases Retries(cfg) - a
  {
    hide Exec, CallNext, LookUpNext;
    if a == Retries(cfg) {
      acts, t := Onward(cfg, acts0, s, Act(1, Ran(Err("boom"))));
    } else {
      acts, t := AttemptFails(cfg, req, fn, acts0, s, a);
      acts, t := Onward(cfg, acts, t, Act(1, Go));
      acts, t := AllAttemptsFail(cfg, req, fn, acts, t, a + 1);
    }
  }

  /** A dead letter in an open service: its first call, whose runner fails every time. */
  lemma DeadLettersOccur(cfg: Config, req: Request, fn: Function) returns (acts: seq<Action>, t: State)
    requires req.AsyncCall? && cfg.capacity >= 1
    ensures Exec(cfg, INIT, acts) == Some(t) && !t.closed
    ensures req.id in t.store && t.store[req.id].status == DeadLetter
  {
    hide Exec, CallNext, LookUpNext;
    acts, t := OnlyCallStarts(cfg, req, fn);
    acts, t := AllAttemptsFail(cfg, req, fn, acts, t, 0);
    acts, t := Onward(cfg, acts, t, Act(1, At(0)));
    acts, t := Onward(cfg, acts, t, Act(1, Go));
    acts, t := Onward(cfg, acts, t, Act(1, Go));
  }

  /** So whatever its settings, a run of the engine from its start ends with two workers at work on one record. */
  lemma TwoWorkersOccur(cfg: Config, req: Request, fn: Function) returns (acts: seq<Action>, t: State)
    requires req.AsyncCall? && cfg.capacity >= 1
    ensures Exec(cfg, INIT, acts) == Some(t) && TwoWorkers(t, req.id)
  {
    var s, more;
    acts, s := DeadLettersOccur(cfg, req, fn);
    InitBase(cfg);
    RunKeepsBase(cfg, INIT, acts, s);
    more, t := RacingReplaysMakeTwoWorkers(cfg, s, req.id, fn);
    ExecAppend(cfg, INIT, acts, more);
    acts := acts + more;
  }
}
