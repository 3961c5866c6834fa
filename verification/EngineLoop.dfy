/**
 The worker's loop, whatever else goes on: in every run of any callers, the runner calls a worker has made, how many
 of them failed and how long it has slept are what its place in the loop says.
 */
module EngineLoop {
  import opened Domain
  import opened Backoff
  import opened Engine
  import opened EngineCounting
  import opened EngineBase

  predicate AllFailed(t: Trail, failures: nat) {
    t.calls == failures && t.fails == failures
  }

  /** What the log says of a worker at each of its stages. */
  predicate LoopAt(cfg: Config, at: Stage, t: Trail) {
    match at
    case Queued => t == NO_TRAIL
    case Holding => t == NO_TRAIL
    case StartRead(_) => t == NO_TRAIL
    case Calling(a) => AllFailed(t, a) && a <= Retries(cfg) && t.slept == TotalSleep(a)
    case Stumbled(a, m) => AllFailed(t, a + 1) && a < Retries(cfg) && m == t.lastErr && t.slept == TotalSleep(a)
    case RetryRead(a, m, _) => AllFailed(t, a + 1) && a < Retries(cfg) && m == t.lastErr && t.slept == TotalSleep(a)
    case Sleeping(a) => AllFailed(t, a + 1) && a < Retries(cfg) && t.slept == TotalSleep(a)
    case Ending(a, out) => LoopOver(cfg, a, out, t)
    case EndRead(a, out, _, _) => LoopOver(cfg, a, out, t)
    case Metered(a, out, _, _) => LoopOver(cfg, a, out, t)
    case Releasing => RunOver(cfg, t)
    case Leaving => RunOver(cfg, t)
  }

  /** The loop broke out on a success, or every attempt failed and `attempt` has left the range. */
  predicate LoopOver(cfg: Config, attempt: nat, out: Outcome, t: Trail) {
    match out
    case Ok(_) =>
      attempt <= Retries(cfg) && t.fails == attempt && t.calls == attempt + 1 && t.slept == TotalSleep(attempt)
    case Err(m) =>
      attempt == Retries(cfg) + 1 && AllFailed(t, attempt) && m == t.lastErr && t.slept == TotalSleep(Retries(cfg))
  }

  /** One success after at most MaxRetries failures, or MaxRetries + 1 failures, and the sleep that goes with it. */
  predicate RunOver(cfg: Config, t: Trail) {
    || (t.fails <= Retries(cfg) && t.calls == t.fails + 1 && t.slept == TotalSleep(t.fails))
    || (AllFailed(t, Retries(cfg) + 1) && t.slept == TotalSleep(Retries(cfg)))
  }

  /** The trail of the worker after its own step. */
  function TrailNext(at: Stage, c: Choice, p: nat, job: Job, tr: Trail): Trail {
    if at.Calling? && c.Ran? then Mark(tr, Called(p, job, c.out))
    else if at.Sleeping? then Mark(tr, Slept(p, Nap(at.attempt)))
    else tr
  }

  lemma TrailFollows(cfg: Config, s: State, p: nat, job: Job, at: Stage, c: Choice, t: State)
    requires p < |s.procs| && WorkerNext(cfg, s, p, job, at, c) == Some(t)
    ensures TrailOf(t.log, p) == TrailNext(at, c, p, job, TrailOf(s.log, p))
  {
    match at
    case Calling(_) => TrailAppend(s.log, Called(p, job, c.out), p);
    case Sleeping(a) => TrailAppend(s.log, Slept(p, Nap(a)), p);
    case _ =>
  }

  lemma LoopFollows(cfg: Config, s: State, p: nat, job: Job, at: Stage, c: Choice, t: State, tr: Trail)
    requires p < |s.procs| && s.procs[p] == Worker(job, at) && WorkerNext(cfg, s, p, job, at, c) == Some(t)
    requires LoopAt(cfg, at, tr)
    ensures |t.procs| == |s.procs| && WorkerOk(cfg, t.procs[p], TrailNext(at, c, p, job, tr))
  {
    hide WorkerNext, LoopAt, TrailNext, WorkerOk;
    if at.Calling? || at.Sleeping? {
      LoopTurns(cfg, s, p, job, at, c, t, tr);
    } else if at.Ending? || at.EndRead? || at.Metered? || at.Releasing? || at.Leaving? {
      LoopEnds(cfg, s, p, job, at, c, t, tr);
    } else {
      LoopGoesOn(cfg, s, p, job, at, c, t, tr);
    }
  }

  lemma LoopEnds(cfg: Config, s: State, p: nat, job: Job, at: Stage, c: Choice, t: State, tr: Trail)
    requires p < |s.procs| && s.procs[p] == Worker(job, at) && WorkerNext(cfg, s, p, job, at, c) == Some(t)
    requires LoopAt(cfg, at, tr) && (at.Ending? || at.EndRead? || at.Metered? || at.Releasing? || at.Leaving?)
    ensures |t.procs| == |s.procs| && WorkerOk(cfg, t.procs[p], TrailNext(at, c, p, job, tr))
  {
    hide TotalSleep;
  }

  lemma LoopGoesOn(cfg: Config, s: State, p: nat, job: Job, at: Stage, c: Choice, t: State, tr: Trail)
    requires p < |s.procs| && s.procs[p] == Worker(job, at) && WorkerNext(cfg, s, p, job, at, c) == Some(t)
    requires LoopAt(cfg, at, tr)
    requires at.Queued? || at.Holding? || at.StartRead? || at.Stumbled? || at.RetryRead?
    ensures |t.procs| == |s.procs| && WorkerOk(cfg, t.procs[p], TrailNext(at, c, p, job, tr))
  {
    assert TotalSleep(0) == 0;
    hide TotalSleep;
  }

  lemma LoopTurns(cfg: Config, s: State, p: nat, job: Job, at: Stage, c: Choice, t: State, tr: Trail)
    requires p < |s.procs| && s.procs[p] == Worker(job, at) && WorkerNext(cfg, s, p, job, at, c) == Some(t)
    requires LoopAt(cfg, at, tr) && (at.Calling? || at.Sleeping?)
    ensures |t.procs| == |s.procs| && WorkerOk(cfg, t.procs[p], TrailNext(at, c, p, job, tr))
  {
    if at.Sleeping? {
      assert TotalSleep(at.attempt + 1) == TotalSleep(at.attempt) + Nap(at.attempt);
    }
    hide TotalSleep;
  }

  predicate WorkerOk(cfg: Config, x: Proc, t: Trail) {
    match x
    case Worker(_, at) => LoopAt(cfg, at, t)
    case Gone(reply) => reply.WorkerExited? ==> RunOver(cfg, t)
    case _ => true
  }

  ghost predicate WorkersOk(cfg: Config, s: State) {
    forall p | 0 <= p < |s.procs| :: WorkerOk(cfg, s.procs[p], TrailOf(s.log, p))
  }

  lemma CallIsNoWorker(cfg: Config, s: State, p: nat, c: Choice, t: State)
    requires p < |s.procs| <= |t.procs| && CallNext(cfg, s, p, c) == Some(t) && Tagged(s.procs[p], s.store)
    ensures !t.procs[p].Worker? && t.procs[p] != Gone(WorkerExited)
  {
  }

  lemma MoverOk(cfg: Config, s: State, p: nat, c: Choice, t: State)
    requires Base(cfg, s) && WorkersOk(cfg, s) && p < |s.procs| <= |t.procs| && Next(cfg, s, Act(p, c)) == Some(t)
    ensures WorkerOk(cfg, t.procs[p], TrailOf(t.log, p))
  {
    hide WorkerNext, CallNext, LoopAt, TrailOf, TrailNext, Counted;
    assert Tagged(s.procs[p], s.store) && WorkerOk(cfg, s.procs[p], TrailOf(s.log, p));
    match s.procs[p]
    case Worker(job, at) =>
      TrailFollows(cfg, s, p, job, at, c, t);
      LoopFollows(cfg, s, p, job, at, c, t, TrailOf(s.log, p));
    case Admitted(_) =>
    case _ => CallIsNoWorker(cfg, s, p, c, t);
  }

  lemma StepKeepsWorkersOk(cfg: Config, s: State, a: Action, t: State)
    requires Base(cfg, s) && WorkersOk(cfg, s) && Next(cfg, s, a) == Some(t)
    ensures WorkersOk(cfg, t)
  {
    NextShape(cfg, s, a, t);
    hide Next, TrailOf;
    forall q | 0 <= q < |t.procs| ensures WorkerOk(cfg, t.procs[q], TrailOf(t.log, q)) {
      match a
      case Arrive(_) => if q < |s.procs| { assert WorkerOk(cfg, s.procs[q], TrailOf(s.log, q)); }
      case Act(p, c) =>
        if q == p {
          MoverOk(cfg, s, p, c, t);
        } else {
          StepLogs(cfg, s, p, c, t);
          if t.log != s.log { TrailAppend(s.log, t.log[|s.log|], q); }
          if q < |s.procs| {
            assert WorkerOk(cfg, s.procs[q], TrailOf(s.log, q));
          } else {
            TrailOfStranger(s.log, q);
          }
        }
    }
  }

  lemma {:induction false} RunKeepsWorkersOk(cfg: Config, s: State, acts: seq<Action>, t: State)
    requires Base(cfg, s) && WorkersOk(cfg, s) && Exec(cfg, s, acts) == Some(t)
    ensures WorkersOk(cfg, t)
    decreases |acts|
  {
    if acts != [] {
      var u := Next(cfg, s, acts[0]).value;
      StepKeepsBase(cfg, s, acts[0], u);
      StepKeepsWorkersOk(cfg, s, acts[0], u);
      RunKeepsWorkersOk(cfg, u, acts[1..], t);
    }
  }

  /**
   In every run of any callers, racing replays and reused ids included: a worker past its final write has either made
   one successful runner call after at most MaxRetries failed ones, or MaxRetries + 1 failed ones, and has slept for
   the backoff of each retry it was granted and no longer. At no time has it made more than MaxRetries + 1 calls.
   */
  lemma EveryWorkersRun(cfg: Config, acts: seq<Action>, s: State, p: nat)
    requires Exec(cfg, INIT, acts) == Some(s) && p < |s.procs|
    ensures s.procs[p] == Gone(WorkerExited) ||
            (s.procs[p].Worker? && (s.procs[p].at.Releasing? || s.procs[p].at.Leaving?)) ==>
              var n, run := if cfg.maxRetries < 0 then 0 else cfg.maxRetries, TrailOf(s.log, p);
              || (run.fails <= n && run.calls == run.fails + 1 && run.slept == TotalSleep(run.fails))
              || (run.calls == run.fails == n + 1 && run.slept == TotalSleep(n))
    ensures s.procs[p].Worker? ==> TrailOf(s.log, p).calls <= (if cfg.maxRetries < 0 then 0 else cfg.maxRetries) + 1
  {
    InitBase(cfg);
    RunKeepsWorkersOk(cfg, INIT, acts, s);
    assert WorkerOk(cfg, s.procs[p], TrailOf(s.log, p));
  }
}
