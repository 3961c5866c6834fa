/**
 What a Close that has returned may still see: a worker can start after it exactly when some call that is already
 past the closed check can still spawn one.
 */
module EngineLate {
  import opened Domain
  import opened Engine
  import opened EngineCounting
  import opened EngineBase
  import opened EngineDrain
  import opened EngineRaces

  /** A call that is past the closed check and has a worker to spawn. */
  predicate MaySpawn(x: Proc, store: map<string, Record>) {
    match x
    case Admitted(req) =>
      req.AsyncCall? || (req.ReplayCall? && req.id in store && Replayable(store[req.id].status))
    case AsyncReady(_, _) => true
    case ReplayRead(_) => true
    case ReplayReady(_, _) => true
    case Spawning(_, _, _) => true
    case _ => false
  }

  predicate HasWorker(s: State) {
    exists p | 0 <= p < |s.procs| :: s.procs[p].Worker?
  }

  /** The step that brings such a call nearer to its worker. */
  function Onwards(x: Proc): Choice {
    match x
    case Admitted(req) => if req.AsyncCall? then Found(Function("", "", 0)) else Go
    case AsyncReady(_, _) => At(0)
    case ReplayRead(_) => Found(Function("", "", 0))
    case _ => Go
  }

  lemma NearerToWorker(cfg: Config, s: State, p: nat) returns (t: State)
    requires p < |s.procs| && Tagged(s.procs[p], s.store) && MaySpawn(s.procs[p], s.store) && Keyed(s.store)
    ensures Next(cfg, s, Act(p, Onwards(s.procs[p]))) == Some(t) && p < |t.procs|
    ensures if Spawns(s.procs[p]) then HasWorker(t) else MaySpawn(t.procs[p], t.store)
  {
    t := Next(cfg, s, Act(p, Onwards(s.procs[p]))).value;
    if Spawns(s.procs[p]) {
      assert t.procs[|s.procs|].Worker?;
    }
  }

  lemma {:induction false} WorkerCanCome(cfg: Config, s: State, p: nat) returns (acts: seq<Action>, t: State)
    requires Base(cfg, s) && p < |s.procs| && MaySpawn(s.procs[p], s.store)
    ensures Exec(cfg, s, acts) == Some(t) && HasWorker(t)
    decreases Steps(cfg, s.procs[p])
  {
    var a := Act(p, Onwards(s.procs[p]));
    assert Tagged(s.procs[p], s.store);
    var u := NearerToWorker(cfg, s, p);
    StepKeepsBase(cfg, s, a, u);
    var rest := [];
    t := u;
    if !Spawns(s.procs[p]) {
      NextShape(cfg, s, a, u);
      StepMovesDown(cfg, s, p, a.choice, u);
      rest, t := WorkerCanCome(cfg, u, p);
    }
    acts := [a] + rest;
    assert acts[1..] == rest;
  }

  /** Closed, without workers, and with nobody left who could spawn one. */
  ghost predicate Barren(s: State) {
    s.closed && forall p | 0 <= p < |s.procs| :: !s.procs[p].Worker? && !MaySpawn(s.procs[p], s.store)
  }

  lemma BarrenCall(cfg: Config, s: State, p: nat, c: Choice, t: State)
    requires p < |s.procs| <= |t.procs| && CallNext(cfg, s, p, c) == Some(t)
    requires s.closed && !s.procs[p].Worker? && !MaySpawn(s.procs[p], s.store)
    ensures t.closed && t.store == s.store && !t.procs[p].Worker? && !MaySpawn(t.procs[p], t.store)
  {
  }

  lemma BarrenStep(cfg: Config, s: State, a: Action, t: State)
    requires Barren(s) && Next(cfg, s, a) == Some(t)
    ensures Barren(t)
  {
    hide CallNext;
    NextShape(cfg, s, a, t);
    match a
    case Arrive(_) =>
    case Act(p, c) =>
      match s.procs[p]
      case Admitted(_) =>
      case _ => BarrenCall(cfg, s, p, c, t);
  }

  lemma {:induction false} BarrenForEver(cfg: Config, s: State, acts: seq<Action>, t: State)
    requires Barren(s) && Exec(cfg, s, acts) == Some(t)
    ensures Barren(t) && !HasWorker(t)
    decreases |acts|
  {
    if acts != [] {
      var u := Next(cfg, s, acts[0]).value;
      BarrenStep(cfg, s, acts[0], u);
      BarrenForEver(cfg, u, acts[1..], t);
    }
  }

  predicate Leads(cfg: Config, s: State, acts: seq<Action>) {
    Exec(cfg, s, acts).Some? && HasWorker(Exec(cfg, s, acts).value)
  }

  /**
   After the closed flag is set and the workers are gone, as when Wait succeeds, a worker can still come if and only
   if some call that passed the closed check before has one to spawn.
   */
  lemma LateWorkersExactly(cfg: Config, s: State)
    requires Base(cfg, s) && s.closed && !HasWorker(s)
    ensures (exists acts :: Leads(cfg, s, acts)) <==> exists p | 0 <= p < |s.procs| :: MaySpawn(s.procs[p], s.store)
  {
    if p :| 0 <= p < |s.procs| && MaySpawn(s.procs[p], s.store) {
      var acts, t := WorkerCanCome(cfg, s, p);
      assert Leads(cfg, s, acts);
    } else {
      forall acts ensures !Leads(cfg, s, acts) {
        if Exec(cfg, s, acts).Some? { BarrenForEver(cfg, s, acts, Exec(cfg, s, acts).value); }
      }
    }
  }

  /** It happens: a run from a new service in which Close has returned and a worker is waiting to start. */
  lemma CloseReturnsTooEarly(cfg: Config, req: Request, fn: Function) returns (acts: seq<Action>, t: State)
    requires req.AsyncCall?
    ensures Exec(cfg, INIT, acts) == Some(t) && |t.procs| == 3
    ensures t.procs[1] == Gone(ClosedDown) && t.procs[2] == Worker(NewJob(cfg, req, fn, 0), Queued)
  {
    acts, t := ClosedUnderACall(cfg, req);
    acts, t := Onward(cfg, acts, t, Act(0, Found(fn)));
    acts, t := Onward(cfg, acts, t, Act(0, At(0)));
    acts, t := Onward(cfg, acts, t, Act(0, Go));
    acts, t := Onward(cfg, acts, t, Act(0, Go));
  }

  lemma ClosedUnderACall(cfg: Config, req: Request) returns (acts: seq<Action>, t: State)
    requires req.AsyncCall?
    ensures Exec(cfg, INIT, acts) == Some(t) && t.wg == 0 && t.procs == [Admitted(req), Gone(ClosedDown)]
  {
    acts, t := [], INIT;
    assert Exec(cfg, INIT, []) == Some(INIT);
    acts, t := Onward(cfg, acts, t, Arrive(req));
    acts, t := Onward(cfg, acts, t, Act(0, Go));
    acts, t := Onward(cfg, acts, t, Arrive(CloseCall));
    acts, t := Onward(cfg, acts, t, Act(1, Go));
    acts, t := Onward(cfg, acts, t, Act(1, Go));
  }
}
