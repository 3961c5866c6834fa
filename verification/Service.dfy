/**
 The service in the form of its source: each call and the worker are methods that run from top to bottom, with the
 other goroutines let in between any two of their steps. Each method is proved to be a path of the step machine,
 whatever the callers do, and to promise more when they keep the discipline.
 */
module Service {
  import opened Domain
  import opened Backoff
  import opened Engine
  import opened EngineCounting
  import opened EngineBase
  import opened EngineFaith
  import opened EngineLoop
  import opened EngineTending
  import opened EngineOrder
  import D = EngineDrain

  /** Nothing is assumed about what the function repository answers. */
  const ANYTHING: Filing := (_, _) => true

  /** Everything known of a state: what holds in all runs, and what only callers that keep the discipline get. */
  ghost predicate Sound(cfg: Config, careful: bool, s: State) {
    && Base(cfg, s) && Tended(s) && WorkersOk(cfg, s)
    && (careful ==> Normalised(cfg) && Orderly(cfg, s) && Faith(cfg, ANYTHING, s))
  }

  /** The id a call that has not yet created its record is going to use. */
  predicate WillCreate(x: Proc, id: string) {
    (x.Arrived? || x.Admitted? || x.AsyncReady?) && x.req.AsyncCall? && x.req.id == id
  }

  /** A replay that has not yet read its record. */
  predicate WillReplay(x: Proc, id: string) {
    (x.Arrived? || x.Admitted?) && x.req == ReplayCall(id)
  }

  /** The step would create the record our call `x` is about to create, or start a replay of the one `x` replays. */
  predicate Collides(x: Proc, y: Proc) {
    || (y.AsyncReady? && y.req.AsyncCall? && WillCreate(x, y.req.id))
    || (y.Admitted? && y.req.ReplayCall? && WillReplay(x, y.req.id))
  }

  /**
   The other goroutines may take this step: it is not ours and it is possible. Careful ones also keep the discipline
   and leave our id alone.
   */
  predicate Admissible(cfg: Config, careful: bool, s: State, p: nat, a: Action)
    requires p < |s.procs|
  {
    && (a.Act? && a.p < |s.procs| ==> a.p != p)
    && Next(cfg, s, a).Some?
    && (careful ==> Disciplined(s, a) && (a.Act? && a.p < |s.procs| ==> !Collides(s.procs[p], s.procs[a.p])))
  }

  /** What of a schedule the other goroutines can carry out. */
  function Others(cfg: Config, careful: bool, s: State, p: nat, env: seq<Action>): seq<Action>
    requires p < |s.procs|
    decreases |env|
  {
    if env == [] then []
    else if Admissible(cfg, careful, s, p, env[0])
    then
      StrangerLeavesUs(cfg, s, p, env[0], Next(cfg, s, env[0]).value);
      [env[0]] + Others(cfg, careful, Next(cfg, s, env[0]).value, p, env[1..])
    else Others(cfg, careful, s, p, env[1..])
  }

  lemma SoundMeansBase(cfg: Config, careful: bool, s: State)
    requires Sound(cfg, careful, s)
    ensures Base(cfg, s)
  {
  }

  lemma SoundStep(cfg: Config, careful: bool, s: State, a: Action, t: State)
    requires Sound(cfg, careful, s) && (careful ==> Disciplined(s, a)) && Next(cfg, s, a) == Some(t)
    ensures Sound(cfg, careful, t)
    ensures s.store.Keys <= t.store.Keys && (careful ==> CoresKept(s.store, t.store))
  {
    hide Next, Orderly, Faith, Tended, WorkersOk, CoresKept, Base;
    StepStaysTended(cfg, s, a, t);
    StepKeepsWorkersOk(cfg, s, a, t);
    StepKeepsTags(cfg, s, a, t);
    if careful {
      StepStaysOrderly(cfg, s, a, t);
      CarefulKeepsFaith(cfg, s, a, t);
    }
  }

  lemma CarefulKeepsFaith(cfg: Config, s: State, a: Action, t: State)
    requires Normalised(cfg) && Faith(cfg, ANYTHING, s) && Disciplined(s, a) && Next(cfg, s, a) == Some(t)
    ensures Faith(cfg, ANYTHING, t) && CoresKept(s.store, t.store)
  {
    hide Next, Faith, CoresKept;
    StepKeepsFaith(cfg, ANYTHING, s, a, t);
  }

  lemma ClosedStays(cfg: Config, s: State, a: Action, t: State)
    requires Next(cfg, s, a) == Some(t)
    ensures s.closed ==> t.closed
  {
    D.StepUsesUp(cfg, s, a, t);
  }

  /** A run from `s` to `t` along `trace`; with careful callers disciplined throughout, and it keeps every fixed part. */
  ghost predicate Path(cfg: Config, careful: bool, s: State, trace: seq<Action>, t: State) {
    && Exec(cfg, s, trace) == Some(t)
    && s.store.Keys <= t.store.Keys
    && (careful ==> DisciplinedRun(cfg, s, trace) && CoresKept(s.store, t.store))
  }

  lemma EmptyPath(cfg: Config, careful: bool, s: State)
    ensures Path(cfg, careful, s, [], s)
  {
  }

  lemma PathKeepsCore(cfg: Config, careful: bool, s: State, trace: seq<Action>, t: State, id: string)
    requires Path(cfg, careful, s, trace, t) && id in s.store
    ensures id in t.store && (careful ==> CoreOf(t.store[id]) == CoreOf(s.store[id]))
  {
    assert id in s.store.Keys;
  }

  lemma {:induction false} PathAppend(cfg: Config, careful: bool, s: State, xs: seq<Action>, t: State, ys: seq<Action>, u: State)
    requires Path(cfg, careful, s, xs, t) && Path(cfg, careful, t, ys, u)
    ensures Path(cfg, careful, s, xs + ys, u)
  {
    ExecAppend(cfg, s, xs, ys);
    if careful { DisciplineAppend(cfg, s, xs, t, ys); }
  }

  lemma {:induction false} DisciplineAppend(cfg: Config, s: State, xs: seq<Action>, t: State, ys: seq<Action>)
    requires DisciplinedRun(cfg, s, xs) && Exec(cfg, s, xs) == Some(t) && DisciplinedRun(cfg, t, ys)
    ensures DisciplinedRun(cfg, s, xs + ys)
    decreases |xs|
  {
    if xs == [] {
      assert xs + ys == ys;
    } else {
      assert (xs + ys)[1..] == xs[1..] + ys;
      DisciplineAppend(cfg, Next(cfg, s, xs[0]).value, xs[1..], t, ys);
    }
  }

  /** The run along `trace` comes through the state `seen`. */
  ghost predicate Passes(cfg: Config, s: State, trace: seq<Action>, seen: State) {
    exists k | 0 <= k <= |trace| :: Exec(cfg, s, trace[..k]) == Some(seen)
  }

  lemma PassesHere(cfg: Config, careful: bool, s: State, xs: seq<Action>, seen: State, trace: seq<Action>)
    requires Path(cfg, careful, s, xs, seen) && xs <= trace
    ensures Passes(cfg, s, trace, seen)
  {
    assert trace[..|xs|] == xs;
  }

  lemma PassesOn(cfg: Config, s: State, xs: seq<Action>, seen: State, trace: seq<Action>)
    requires Passes(cfg, s, xs, seen) && xs <= trace
    ensures Passes(cfg, s, trace, seen)
  {
    var k :| 0 <= k <= |xs| && Exec(cfg, s, xs[..k]) == Some(seen);
    assert trace[..k] == xs[..k];
  }

  lemma StepPath(cfg: Config, careful: bool, s: State, a: Action, t: State)
    requires Sound(cfg, careful, s) && (careful ==> Disciplined(s, a)) && Next(cfg, s, a) == Some(t)
    ensures Path(cfg, careful, s, [a], t) && Sound(cfg, careful, t)
  {
    SoundStep(cfg, careful, s, a, t);
    assert [a][1..] == [];
    assert Exec(cfg, t, []) == Some(t) && DisciplinedRun(cfg, t, []);
  }

  /** Another goroutine's step leaves ours where it is and adds nothing to our trail. */
  lemma StrangerLeavesUs(cfg: Config, s: State, p: nat, a: Action, t: State)
    requires p < |s.procs| && (a.Act? ==> a.p != p) && Next(cfg, s, a) == Some(t)
    ensures p < |t.procs| && t.procs[p] == s.procs[p] && TrailOf(t.log, p) == TrailOf(s.log, p)
  {
    NextShape(cfg, s, a, t);
    match a
    case Arrive(_) =>
    case Act(q, c) =>
      StepLogs(cfg, s, q, c, t);
      if t.log != s.log { TrailAppend(s.log, t.log[|s.log|], p); }
  }

  /** The id our call is about to use stays unused, or unread by other replays. */
  ghost predicate OurIdFree(s: State, x: Proc) {
    && (forall id | WillCreate(x, id) :: id !in s.store)
    && (forall id | WillReplay(x, id) :: Cast(s.procs, ReplayerOf(id)) == {})
  }

  lemma StrangerLeavesOurId(cfg: Config, careful: bool, s: State, p: nat, a: Action, t: State)
    requires Base(cfg, s) && p < |s.procs| && Admissible(cfg, careful, s, p, a) && Next(cfg, s, a) == Some(t)
    requires careful && OurIdFree(s, s.procs[p])
    ensures OurIdFree(t, s.procs[p])
  {
    var x := s.procs[p];
    NextShape(cfg, s, a, t);
    forall id | WillCreate(x, id) ensures id !in t.store {
      if a.Act? && !WritesTo(s.procs[a.p], id) && id in t.store {
        NoRecordFromNowhere(cfg, s, a.p, a.choice, t, id);
      } else if a.Act? {
        assert Tagged(s.procs[a.p], s.store);
      }
    }
    forall id | WillReplay(x, id) ensures Cast(t.procs, ReplayerOf(id)) == {} {
      RoleDelta(cfg, s, a, t, ReplayerOf(id));
      if a.Act? { ReplayerComesFromRead(cfg, s, a.p, a.choice, t, id); }
    }
  }

  /** The run of attempts: the first attempt the runner answers, or one past the last when it never does. */
  function FirstSuccess(runner: nat -> Outcome, from: nat, retries: nat): (k: nat)
    requires from <= retries + 1
    ensures from <= k <= retries + 1
    ensures k <= retries ==> runner(k).Ok?
    ensures forall i | from <= i < k :: runner(i).Err?
    decreases retries + 1 - from
  {
    if from > retries || runner(from).Ok? then from else FirstSuccess(runner, from + 1, retries)
  }

  /**
   What a run with that many failures must leave in the record. Racing runs of one record may leave their retry count
   and error in a completed one, and their result in a dead letter.
   */
  ghost predicate RunResult(cfg: Config, careful: bool, runner: nat -> Outcome, failures: nat, now: int, final: Record) {
    var n := if cfg.maxRetries < 0 then 0 else cfg.maxRetries;
    && final.completedAt == Some(now)
    && failures <= n + 1 && (forall i | 0 <= i < failures :: runner(i).Err?)
    && (failures <= n ==> final.status == Completed && final.result.Some? && runner(failures) == Ok(final.result.value))
    && (failures == n + 1 ==>
          final.status == DeadLetter && final.retryCount == n + 1 && final.error == runner(n).message)
    && (careful ==>
          && final.retryCount == failures
          && final.error == (if failures == 0 then "" else runner(failures - 1).message)
          && (final.result == None <==> failures == n + 1))
  }

  /** A record concluded on `out` after `attempt` failures, the last of them saying `lastErr`. */
  predicate Concludes(careful: bool, final: Record, attempt: nat, out: Outcome, now: int, lastErr: string) {
    && final.completedAt == Some(now)
    && match out
       case Ok(result) =>
         && final.status == Completed && final.result == Some(result)
         && (careful ==> final.retryCount == attempt && final.error == (if attempt == 0 then "" else lastErr))
       case Err(message) =>
         && final.status == DeadLetter && final.retryCount == attempt && final.error == message
         && (careful ==> final.result == None)
  }

  lemma ResultOfRun(cfg: Config, careful: bool, runner: nat -> Outcome, attempt: nat, out: Outcome, now: int, lastErr: string, final: Record)
    requires attempt == FirstSuccess(runner, 0, Retries(cfg))
    requires out == if attempt <= Retries(cfg) then runner(attempt) else runner(attempt - 1)
    requires attempt > 0 ==> runner(attempt - 1).Err? && lastErr == runner(attempt - 1).message
    requires Concludes(careful, final, attempt, out, now, lastErr)
    ensures RunResult(cfg, careful, runner, attempt, now, final)
  {
  }

  lemma ResultMeans(cfg: Config, careful: bool, runner: nat -> Outcome, failures: nat, now: int, final: Record)
    requires RunResult(cfg, careful, runner, failures, now, final)
    ensures var n := if cfg.maxRetries < 0 then 0 else cfg.maxRetries;
            && final.completedAt == Some(now)
            && failures <= n + 1 && (forall i | 0 <= i < failures :: runner(i).Err?)
            && (failures <= n ==>
                  final.status == Completed && final.result.Some? && runner(failures) == Ok(final.result.value))
            && (failures == n + 1 ==>
                  final.status == DeadLetter && final.retryCount == n + 1 && final.error == runner(n).message)
            && (careful ==>
                  && final.retryCount == failures
                  && final.error == (if failures == 0 then "" else runner(failures - 1).message)
                  && (final.result == None <==> failures == n + 1))
  {
  }

  /** The limit a call runs under. */
  lemma CallTimeoutMeans(cfg: Config, fn: Function, timeout: int)
    ensures var t := CallTimeout(cfg, fn, timeout);
            && (timeout > 0 ==> t == Least(timeout, cfg.maxTimeout))
            && (timeout <= 0 && fn.timeoutSec <= 0 ==> t == cfg.defaultTimeout)
            && (timeout <= 0 && 0 < fn.timeoutSec <= 9_223_372_036 ==>
                  t == Least(fn.timeoutSec * 1_000_000_000, cfg.maxTimeout))
  {
    if 0 < fn.timeoutSec <= 9_223_372_036 { FunctionTimeoutFits(fn); }
  }

  /** What the runner is called with. */
  datatype RunnerCall = RunnerCall(fn: Function, payload: string, contentType: string, timeout: int)

  class InvocationService {
    const cfg: Config
    const careful: bool   // whether all callers keep the discipline
    var isClosed: bool
    var sem: nat
    var wg: nat
    var items: map<string, Record>
    var procs: seq<Proc>
    var metrics: Metrics
    var log: seq<Event>
    var lastRun: map<string, nat>

    constructor (cfg: Config, careful: bool)
      ensures View() == INIT && this.cfg == cfg && this.careful == careful
      ensures (careful ==> Normalised(cfg)) ==> Sound(cfg, careful, View())
    {
      InitBase(cfg);
      InitTended();
      InitOrderly(cfg);
      InitFaith(cfg, ANYTHING);
      this.cfg, this.careful := cfg, careful;
      isClosed, sem, wg, items := false, 0, 0, map[];
      procs, metrics, log, lastRun := [], Metrics(0, 0, 0), [], map[];
    }

    function View(): State
      reads this
    {
      State(isClosed, sem, wg, items, procs, metrics, log, lastRun)
    }

    /** The goroutine named `p` stands at `x`. */
    predicate Stands(p: nat, x: Proc)
      reads this
    {
      p < |procs| && procs[p] == x
    }

    /** A call comes in: the goroutine it runs on. */
    method Arrive(req: Request) returns (p: nat)
      requires Sound(cfg, careful, View())
      modifies this`procs
      ensures Stands(p, Arrived(req)) && procs == old(procs) + [Arrived(req)]
      ensures Path(cfg, careful, old(View()), [Action.Arrive(req)], View()) && Sound(cfg, careful, View())
    {
      hide Path, Sound;
      ghost var s := View();
      p := |procs|;
      procs := procs + [Arrived(req)];
      StepPath(cfg, careful, s, Action.Arrive(req), View());
    }

    /** Let the other goroutines run, as far as the schedule `env` is possible for them. */
    method Yield(p: nat, env: seq<Action>) returns (ghost trace: seq<Action>)
      requires p < |procs| && Sound(cfg, careful, View())
      modifies this
      ensures trace == Others(cfg, careful, old(View()), p, env) && Path(cfg, careful, old(View()), trace, View())
      ensures Sound(cfg, careful, View())
      ensures p < |procs| && procs[p] == old(procs[p]) && TrailOf(log, p) == old(TrailOf(log, p))
      ensures careful && old(OurIdFree(View(), procs[p])) ==> OurIdFree(View(), procs[p])
      ensures old(isClosed) ==> isClosed
    {
      hide Path, Sound, Next, Disciplined, TrailOf, OurIdFree;
      trace := [];
      EmptyPath(cfg, careful, View());
      for i := 0 to |env|
        invariant Path(cfg, careful, old(View()), trace, View()) && Sound(cfg, careful, View())
        invariant p < |procs| && procs[p] == old(procs[p]) && TrailOf(log, p) == old(TrailOf(log, p))
        invariant trace + Others(cfg, careful, View(), p, env[i..]) == Others(cfg, careful, old(View()), p, env)
        invariant careful && old(OurIdFree(View(), procs[p])) ==> OurIdFree(View(), procs[p])
        invariant old(isClosed) ==> isClosed
      {
        var a := env[i];
        assert env[i..][0] == a && env[i..][1..] == env[i + 1..];
        if Admissible(cfg, careful, View(), p, a) {
          ghost var s := View();
          OtherMoves(p, a);
          PathAppend(cfg, careful, old(View()), trace, s, [a], View());
          assert trace + ([a] + Others(cfg, careful, View(), p, env[i + 1..])) == (trace + [a]) + Others(cfg, careful, View(), p, env[i + 1..]);
          trace := trace + [a];
        }
      }
      assert Others(cfg, careful, View(), p, []) == [];
    }

    /** One step of another goroutine. */
    method OtherMoves(p: nat, a: Action)
      requires p < |procs| && Sound(cfg, careful, View()) && Admissible(cfg, careful, View(), p, a)
      modifies this
      ensures Next(cfg, old(View()), a) == Some(View()) && Path(cfg, careful, old(View()), [a], View()) && Sound(cfg, careful, View())
      ensures p < |procs| && procs[p] == old(procs[p]) && TrailOf(log, p) == old(TrailOf(log, p))
      ensures careful && old(OurIdFree(View(), procs[p])) ==> OurIdFree(View(), procs[p])
      ensures old(isClosed) ==> isClosed
    {
      hide Path, Sound, Next, Disciplined, TrailOf, OurIdFree;
      ghost var s := View();
      var t := Next(cfg, View(), a).value;
      SoundMeansBase(cfg, careful, s);
      ClosedStays(cfg, s, a, t);
      if careful && OurIdFree(s, procs[p]) { StrangerLeavesOurId(cfg, careful, s, p, a, t); }
      StepPath(cfg, careful, s, a, t);
      StrangerLeavesUs(cfg, s, p, a, t);
      isClosed, sem, wg, items := t.closed, t.sem, t.wg, t.store;
      procs, metrics, log, lastRun := t.procs, t.metrics, t.log, t.lastRun;
    }

    // The worker's own steps

    method TakeSlot(p: nat, job: Job)
      requires Stands(p, Worker(job, Queued)) && sem < cfg.capacity
      modifies this`sem, this`procs
      ensures Next(cfg, old(View()), Act(p, Go)) == Some(View()) && Stands(p, Worker(job, Holding))
    {
      sem := sem + 1;
      procs := procs[p := Worker(job, Holding)];
    }

    method MarkRunning(p: nat, job: Job, curr: Record)
      requires Stands(p, Worker(job, StartRead(curr)))
      modifies this`items, this`procs
      ensures Next(cfg, old(View()), Act(p, Go)) == Some(View()) && Stands(p, Worker(job, Calling(0)))
    {
      var running := curr.(status := Running);
      if running.id in items {
        items := items[running.id := running];
      }
      procs := procs[p := Worker(job, Calling(0))];
    }

    method CallRunner(p: nat, job: Job, attempt: nat, out: Outcome)
      requires Stands(p, Worker(job, Calling(attempt))) && attempt <= Retries(cfg)
      modifies this`log, this`procs
      ensures Next(cfg, old(View()), Act(p, Ran(out))) == Some(View())
      ensures out.Ok? ==> Stands(p, Worker(job, Ending(attempt, out)))
      ensures out.Err? && attempt < Retries(cfg) ==> Stands(p, Worker(job, Stumbled(attempt, out.message)))
      ensures out.Err? && attempt == Retries(cfg) ==> Stands(p, Worker(job, Ending(attempt + 1, out)))
      ensures TrailOf(log, p) == Mark(old(TrailOf(log, p)), Called(p, job, out))
    {
      TrailAppend(log, Called(p, job, out), p);
      log := log + [Called(p, job, out)];
      if out.Ok? {
        procs := procs[p := Worker(job, Ending(attempt, out))];
      } else if attempt < Retries(cfg) {
        procs := procs[p := Worker(job, Stumbled(attempt, out.message))];
      } else {
        procs := procs[p := Worker(job, Ending(attempt + 1, out))];
      }
    }

    /** GetByID for the worker: a copy of the record is what it goes on with. */
    method ReadRecord(p: nat, job: Job, at: Stage, now: int) returns (curr: Record)
      requires Stands(p, Worker(job, at)) && job.id in items && (at.Holding? || at.Stumbled? || at.Ending?)
      modifies this`procs
      ensures curr == items[job.id]
      ensures Next(cfg, old(View()), Act(p, if at.Ending? then At(now) else Go)) == Some(View())
      ensures Stands(p, Worker(job, match at
                                case Stumbled(a, m) => RetryRead(a, m, curr)
                                case Ending(a, out) => EndRead(a, out, now, curr)
                                case _ => StartRead(curr)))
    {
      curr := items[job.id];
      procs := procs[p := Worker(job, if at.Stumbled? then RetryRead(at.attempt, at.message, curr)
                                      else if at.Ending? then EndRead(at.attempt, at.out, now, curr)
                                      else StartRead(curr))];
    }

    method NoteFailure(p: nat, job: Job, attempt: nat, message: string, curr: Record)
      requires Stands(p, Worker(job, RetryRead(attempt, message, curr)))
      modifies this`items, this`procs
      ensures Next(cfg, old(View()), Act(p, Go)) == Some(View()) && Stands(p, Worker(job, Sleeping(attempt)))
    {
      var noted := curr.(retryCount := attempt + 1, error := message);
      if noted.id in items {
        items := items[noted.id := noted];
      }
      procs := procs[p := Worker(job, Sleeping(attempt))];
    }

    method Sleep(p: nat, job: Job, attempt: nat)
      requires Stands(p, Worker(job, Sleeping(attempt)))
      modifies this`log, this`procs
      ensures Next(cfg, old(View()), Act(p, Go)) == Some(View()) && Stands(p, Worker(job, Calling(attempt + 1)))
      ensures TrailOf(log, p).lastErr == old(TrailOf(log, p)).lastErr
    {
      TrailAppend(log, Slept(p, Nap(attempt)), p);
      log := log + [Slept(p, Nap(attempt))];
      procs := procs[p := Worker(job, Calling(attempt + 1))];
    }

    method RecordMetric(p: nat, job: Job, attempt: nat, out: Outcome, now: int, updated: Record)
      requires Stands(p, Worker(job, EndRead(attempt, out, now, updated)))
      modifies this`metrics, this`procs
      ensures Next(cfg, old(View()), Act(p, Go)) == Some(View())
      ensures Stands(p, Worker(job, Metered(attempt, out, now, updated)))
    {
      if out.Err? {
        metrics := metrics.(deadLetter := metrics.deadLetter + 1);
      } else {
        metrics := metrics.(completed := metrics.completed + 1);
      }
      procs := procs[p := Worker(job, Metered(attempt, out, now, updated))];
    }

    method Conclude(p: nat, job: Job, attempt: nat, out: Outcome, now: int, updated: Record) returns (final: Record)
      requires Stands(p, Worker(job, Metered(attempt, out, now, updated))) && updated.id == job.id && job.id in items
      modifies this`items, this`procs, this`lastRun
      ensures Next(cfg, old(View()), Act(p, Go)) == Some(View()) && Stands(p, Worker(job, Releasing))
      ensures job.id in items && final == items[job.id] == Finalised(updated, attempt, out, now)
    {
      final := updated.(completedAt := Some(now));
      if out.Err? {
        final := final.(error := out.message, retryCount := attempt, status := DeadLetter);
      } else {
        final := final.(status := Completed, result := Some(out.result));
      }
      items := items[final.id := final];
      lastRun := lastRun[job.id := p];
      procs := procs[p := Worker(job, Releasing)];
    }

    method GiveSlotBack(p: nat, job: Job)
      requires Stands(p, Worker(job, Releasing)) && sem > 0
      modifies this`sem, this`procs
      ensures Next(cfg, old(View()), Act(p, Go)) == Some(View()) && Stands(p, Worker(job, Leaving))
    {
      sem := sem - 1;
      procs := procs[p := Worker(job, Leaving)];
    }

    method Done(p: nat, job: Job)
      requires Stands(p, Worker(job, Leaving)) && wg > 0
      modifies this`wg, this`procs
      ensures Next(cfg, old(View()), Act(p, Go)) == Some(View()) && Stands(p, Gone(WorkerExited))
    {
      wg := wg - 1;
      procs := procs[p := Gone(WorkerExited)];
    }

    // The worker from its start to its end

    /** Our step from `before` is done; let the others run before the next one. */
    method Pause(p: nat, env: seq<Action>, ghost s: State, ghost sofar: seq<Action>, ghost before: State, ghost a: Action)
      returns (ghost trace: seq<Action>)
      requires p < |procs| && Path(cfg, careful, s, sofar, before) && Sound(cfg, careful, before)
      requires (careful ==> Disciplined(before, a)) && Next(cfg, before, a) == Some(View())
      modifies this
      ensures Path(cfg, careful, s, trace, View()) && Sound(cfg, careful, View()) && sofar <= trace
      ensures Passes(cfg, s, trace, old(View()))
      ensures p < |procs| && procs[p] == old(procs[p]) && TrailOf(log, p) == old(TrailOf(log, p))
      ensures careful && old(OurIdFree(View(), procs[p])) ==> OurIdFree(View(), procs[p])
      ensures old(isClosed) ==> isClosed
    {
      hide Path, Sound, Next, TrailOf, OurIdFree, Passes;
      ghost var mid := View();
      StepPath(cfg, careful, before, a, mid);
      PathAppend(cfg, careful, s, sofar, before, [a], mid);
      ghost var others := Yield(p, env);
      PathAppend(cfg, careful, s, sofar + [a], mid, others, View());
      trace := sofar + [a] + others;
      PassesHere(cfg, careful, s, sofar + [a], mid, trace);
    }

    lemma Known(p: nat, job: Job, at: Stage)
      requires Sound(cfg, careful, View()) && Stands(p, Worker(job, at))
      ensures job.id in items && items[job.id].id == job.id && LoopAt(cfg, at, TrailOf(log, p))
      ensures careful ==> Shape(cfg, items[job.id]) && RecordAt(cfg, items[job.id], at, TrailOf(log, p))
    {
      assert Tagged(procs[p], items) && WorkerOk(cfg, procs[p], TrailOf(log, p));
      if careful {
        assert LocalOk(cfg, procs[p], items, TrailOf(log, p));
        assert RecordOk(cfg, View(), job.id);
      }
    }

    /**
     Execute one queued invocation. `runner(i)` is the outcome of attempt `i`, `env(i)` what the others try to do
     between our steps, and `patience` how often we look for a free slot before this call gives up waiting; whatever
     they are, a finished worker has left the record its runner's outcomes call for, and with careful callers exactly
     that.
     */
    method RunAsyncWorker(p: nat, job: Job, runner: nat -> Outcome, now: int, env: nat -> seq<Action>, patience: nat)
      returns (finished: bool, failures: nat, final: Record, ghost trace: seq<Action>, ghost seen: State)
      requires Sound(cfg, careful, View()) && Stands(p, Worker(job, Queued))
      modifies this
      ensures Path(cfg, careful, old(View()), trace, View()) && Sound(cfg, careful, View())
      ensures Stands(p, if finished then Gone(WorkerExited) else Worker(job, Queued))
      ensures finished ==> Passes(cfg, old(View()), trace, seen) && job.id in seen.store && seen.store[job.id] == final
      ensures finished ==>
                var n := if cfg.maxRetries < 0 then 0 else cfg.maxRetries;
                && final.completedAt == Some(now)
                && failures <= n + 1 && (forall i | 0 <= i < failures :: runner(i).Err?)
                && (failures <= n ==>
                      final.status == Completed && final.result.Some? && runner(failures) == Ok(final.result.value))
                && (failures == n + 1 ==>
                      final.status == DeadLetter && final.retryCount == n + 1 && final.error == runner(n).message)
                && (careful ==>
                      && final.retryCount == failures
                      && final.error == (if failures == 0 then "" else runner(failures - 1).message)
                      && (final.result == None <==> failures == n + 1))
      ensures finished ==> job.id in old(items) && (careful ==> CoreOf(final) == CoreOf(old(items)[job.id]))
    {
      hide Path, Sound, Next, TrailOf, OurIdFree, Passes, RunResult;
      ghost var s := View();
      RecordThere(p, job, Queued);
      final, failures, seen := items[job.id], 0, s;
      var k;
      finished, k, trace := WaitForSlot(p, job, env, patience, s);
      if finished {
        failures, final, trace, seen := RunInSlotOf(p, job, runner, now, env, k, s, trace);
        ResultMeans(cfg, careful, runner, failures, now, final);
      }
    }

    /** Everything between the semaphore's send and the deferred calls, and these. */
    method RunInSlotOf(p: nat, job: Job, runner: nat -> Outcome, now: int, env: nat -> seq<Action>, start: nat,
                       ghost s: State, ghost sofar: seq<Action>)
      returns (failures: nat, final: Record, ghost trace: seq<Action>, ghost seen: State)
      requires Sound(cfg, careful, View()) && Path(cfg, careful, s, sofar, View()) && Stands(p, Worker(job, Holding))
      modifies this
      ensures Sound(cfg, careful, View()) && Path(cfg, careful, s, trace, View()) && Stands(p, Gone(WorkerExited))
      ensures Passes(cfg, s, trace, seen) && job.id in seen.store && seen.store[job.id] == final
      ensures RunResult(cfg, careful, runner, failures, now, final)
      ensures careful && job.id in s.store ==> CoreOf(final) == CoreOf(s.store[job.id])
    {
      hide Path, Sound, Next, TrailOf, OurIdFree, Passes, RunResult, View, Stands;
      trace := Start(p, job, env, start, s, sofar);
      var k;
      failures, final, k, trace, seen := Execute(p, job, runner, now, env, start + 2, s, trace);
      ghost var before := trace;
      trace := LetGo(p, job, env, k, s, trace);
      PassesOn(cfg, s, before, seen, trace);
    }

    /** The attempts and the final write. */
    method Execute(p: nat, job: Job, runner: nat -> Outcome, now: int, env: nat -> seq<Action>, start: nat,
                   ghost s: State, ghost sofar: seq<Action>)
      returns (attempt: nat, final: Record, k: nat, ghost trace: seq<Action>, ghost seen: State)
      requires Sound(cfg, careful, View()) && Path(cfg, careful, s, sofar, View()) && Stands(p, Worker(job, Calling(0)))
      modifies this
      ensures Sound(cfg, careful, View()) && Path(cfg, careful, s, trace, View()) && Stands(p, Worker(job, Releasing))
      ensures RunResult(cfg, careful, runner, attempt, now, final)
      ensures Passes(cfg, s, trace, seen) && job.id in seen.store && seen.store[job.id] == final
      ensures careful && job.id in s.store ==> CoreOf(final) == CoreOf(s.store[job.id])
    {
      hide Path, Sound, Next, TrailOf, RunResult, Concludes, View, Stands, FirstSuccess, Passes;
      var out;
      attempt, out, k, trace := Attempts(p, job, runner, env, start, s, sofar);
      ghost var lastErr := TrailOf(log, p).lastErr;
      final, trace, seen := Settle(p, job, attempt, out, now, env, k, s, trace);
      ResultOfRun(cfg, careful, runner, attempt, out, now, lastErr, final);
      k := k + 3;
    }

    /** The blocking send into the semaphore, for as long as our patience lasts. */
    method WaitForSlot(p: nat, job: Job, env: nat -> seq<Action>, patience: nat, ghost s: State)
      returns (got: bool, k: nat, ghost trace: seq<Action>)
      requires Sound(cfg, careful, View()) && Stands(p, Worker(job, Queued)) && s == View()
      modifies this
      ensures Path(cfg, careful, s, trace, View()) && Sound(cfg, careful, View())
      ensures Stands(p, Worker(job, if got then Holding else Queued))
    {
      hide Path, Sound, Next, TrailOf, OurIdFree, Passes;
      trace := Yield(p, env(0));
      k := 1;
      while sem >= cfg.capacity && k <= patience
        invariant Path(cfg, careful, s, trace, View()) && Sound(cfg, careful, View()) && Stands(p, Worker(job, Queued))
        invariant k >= 1
        decreases patience - k
      {
        ghost var mid := View();
        ghost var others := Yield(p, env(k));
        PathAppend(cfg, careful, s, trace, mid, others, View());
        trace := trace + others;
        k := k + 1;
      }
      got := sem < cfg.capacity;
      if got {
        ghost var b := View();
        TakeSlot(p, job);
        trace := Pause(p, env(k), s, trace, b, Act(p, Go));
        k := k + 1;
      }
    }

    method Start(p: nat, job: Job, env: nat -> seq<Action>, k: nat, ghost s: State, ghost sofar: seq<Action>)
      returns (ghost trace: seq<Action>)
      requires Sound(cfg, careful, View()) && Path(cfg, careful, s, sofar, View()) && Stands(p, Worker(job, Holding))
      modifies this
      ensures Sound(cfg, careful, View()) && Path(cfg, careful, s, trace, View()) && Stands(p, Worker(job, Calling(0)))
    {
      hide Path, Sound, Next, TrailOf, OurIdFree, Passes;
      RecordThere(p, job, Holding);
      ghost var b := View();
      var curr := ReadRecord(p, job, Holding, 0);
      trace := Pause(p, env(k), s, sofar, b, Act(p, Go));
      b := View();
      MarkRunning(p, job, curr);
      trace := Pause(p, env(k + 1), s, trace, b, Act(p, Go));
    }

    /** The retry loop: it stops at the first success, or with `attempt` one past the last when there is none. */
    method Attempts(p: nat, job: Job, runner: nat -> Outcome, env: nat -> seq<Action>, start: nat,
                    ghost s: State, ghost sofar: seq<Action>)
      returns (attempt: nat, out: Outcome, k: nat, ghost trace: seq<Action>)
      requires Sound(cfg, careful, View()) && Path(cfg, careful, s, sofar, View()) && Stands(p, Worker(job, Calling(0)))
      modifies this
      ensures Sound(cfg, careful, View()) && Path(cfg, careful, s, trace, View())
      ensures Stands(p, Worker(job, Ending(attempt, out)))
      ensures attempt == FirstSuccess(runner, 0, Retries(cfg))
      ensures out == if attempt <= Retries(cfg) then runner(attempt) else runner(attempt - 1)
      ensures attempt > 0 ==> runner(attempt - 1).Err? && TrailOf(log, p).lastErr == runner(attempt - 1).message
    {
      hide Path, Sound, TrailOf, View;
      var maxRetries := if cfg.maxRetries < 0 then 0 else cfg.maxRetries;
      k, trace := start, sofar;
      attempt := 0;
      out := runner(0);
      while attempt <= maxRetries
        invariant Sound(cfg, careful, View()) && Path(cfg, careful, s, trace, View())
        invariant attempt <= maxRetries + 1
        invariant attempt <= maxRetries ==> Stands(p, Worker(job, Calling(attempt)))
        invariant attempt > maxRetries ==> Stands(p, Worker(job, Ending(attempt, out))) && out == runner(maxRetries)
        invariant FirstSuccess(runner, 0, maxRetries) == FirstSuccess(runner, attempt, maxRetries)
        invariant attempt > 0 ==> runner(attempt - 1).Err? && TrailOf(log, p).lastErr == runner(attempt - 1).message
      {
        out := runner(attempt);
        k, trace := Attempt(p, job, attempt, out, env, k, s, trace);
        if out.Ok? {
          return;
        }
        attempt := attempt + 1;
      }
    }

    method Attempt(p: nat, job: Job, attempt: nat, out: Outcome, env: nat -> seq<Action>, start: nat,
                   ghost s: State, ghost sofar: seq<Action>)
      returns (k: nat, ghost trace: seq<Action>)
      requires Sound(cfg, careful, View()) && Path(cfg, careful, s, sofar, View())
      requires Stands(p, Worker(job, Calling(attempt)))
      requires attempt <= Retries(cfg)
      modifies this
      ensures Sound(cfg, careful, View()) && Path(cfg, careful, s, trace, View())
      ensures out.Ok? ==> Stands(p, Worker(job, Ending(attempt, out))) && TrailOf(log, p).lastErr == old(TrailOf(log, p)).lastErr
      ensures out.Err? ==> TrailOf(log, p).lastErr == out.message
      ensures out.Err? ==>
                Stands(p, Worker(job, if attempt < Retries(cfg) then Calling(attempt + 1) else Ending(attempt + 1, out)))
    {
      hide Path, Sound, Next, TrailOf, OurIdFree, Passes;
      ghost var b := View();
      CallRunner(p, job, attempt, out);
      trace := Pause(p, env(start), s, sofar, b, Act(p, Ran(out)));
      k := start + 1;
      if out.Err? && attempt < Retries(cfg) {
        k, trace := BackOff(p, job, attempt, out.message, env, k, s, trace);
      }
    }

    method BackOff(p: nat, job: Job, attempt: nat, message: string, env: nat -> seq<Action>, start: nat,
                   ghost s: State, ghost sofar: seq<Action>)
      returns (k: nat, ghost trace: seq<Action>)
      requires Sound(cfg, careful, View()) && Path(cfg, careful, s, sofar, View())
      requires Stands(p, Worker(job, Stumbled(attempt, message)))
      modifies this
      ensures Sound(cfg, careful, View()) && Path(cfg, careful, s, trace, View())
      ensures Stands(p, Worker(job, Calling(attempt + 1)))
      ensures TrailOf(log, p).lastErr == message
    {
      hide Path, Sound, Next, TrailOf, OurIdFree, Passes;
      Known(p, job, Stumbled(attempt, message));
      trace := Note(p, job, attempt, message, env, start, s, sofar);
      ghost var b := View();
      Sleep(p, job, attempt);
      trace := Pause(p, env(start + 2), s, trace, b, Act(p, Go));
      k := start + 3;
    }

    /** Write the failed attempt into the record. */
    method Note(p: nat, job: Job, attempt: nat, message: string, env: nat -> seq<Action>, start: nat,
                ghost s: State, ghost sofar: seq<Action>)
      returns (ghost trace: seq<Action>)
      requires Sound(cfg, careful, View()) && Path(cfg, careful, s, sofar, View())
      requires Stands(p, Worker(job, Stumbled(attempt, message)))
      requires job.id in items
      modifies this
      ensures Sound(cfg, careful, View()) && Path(cfg, careful, s, trace, View())
      ensures Stands(p, Worker(job, Sleeping(attempt)))
      ensures TrailOf(log, p) == old(TrailOf(log, p))
    {
      hide Path, Sound, Next, TrailOf, OurIdFree, Passes;
      ghost var b := View();
      var curr := ReadRecord(p, job, Stumbled(attempt, message), 0);
      trace := Pause(p, env(start), s, sofar, b, Act(p, Go));
      trace := WriteNote(p, job, attempt, message, curr, env(start + 1), s, trace);
    }

    method WriteNote(p: nat, job: Job, attempt: nat, message: string, curr: Record, env: seq<Action>,
                     ghost s: State, ghost sofar: seq<Action>)
      returns (ghost trace: seq<Action>)
      requires Sound(cfg, careful, View()) && Path(cfg, careful, s, sofar, View())
      requires Stands(p, Worker(job, RetryRead(attempt, message, curr)))
      modifies this
      ensures Sound(cfg, careful, View()) && Path(cfg, careful, s, trace, View())
      ensures Stands(p, Worker(job, Sleeping(attempt))) && TrailOf(log, p) == old(TrailOf(log, p))
    {
      hide Path, Sound, Next, TrailOf, OurIdFree, Passes;
      ghost var b := View();
      NoteFailure(p, job, attempt, message, curr);
      trace := Pause(p, env, s, sofar, b, Act(p, Go));
    }

    /** What a conclusion written from the stored record will say. */
    lemma ConclusionKnown(p: nat, job: Job, attempt: nat, out: Outcome, now: int)
      requires Sound(cfg, careful, View()) && Stands(p, Worker(job, Ending(attempt, out)))
      ensures job.id in items && items[job.id].id == job.id
      ensures Concludes(careful, Finalised(items[job.id], attempt, out, now), attempt, out, now, TrailOf(log, p).lastErr)
    {
      Known(p, job, Ending(attempt, out));
      NoFailureNoMessage(log, p);
    }

    method Settle(p: nat, job: Job, attempt: nat, out: Outcome, now: int, env: nat -> seq<Action>, start: nat,
                  ghost s: State, ghost sofar: seq<Action>)
      returns (final: Record, ghost trace: seq<Action>, ghost seen: State)
      requires Sound(cfg, careful, View()) && Path(cfg, careful, s, sofar, View())
      requires Stands(p, Worker(job, Ending(attempt, out)))
      modifies this
      ensures Sound(cfg, careful, View()) && Path(cfg, careful, s, trace, View()) && Stands(p, Worker(job, Releasing))
      ensures careful && job.id in s.store ==> CoreOf(final) == CoreOf(s.store[job.id])
      ensures Concludes(careful, final, attempt, out, now, old(TrailOf(log, p)).lastErr)
      ensures Passes(cfg, s, trace, seen) && job.id in seen.store && seen.store[job.id] == final
    {
      hide Path, Sound, Next, TrailOf, OurIdFree, Concludes, Passes;
      ConclusionKnown(p, job, attempt, out, now);
      ghost var b := View();
      var updated := ReadRecord(p, job, Ending(attempt, out), now);
      if job.id in s.store { PathKeepsCore(cfg, careful, s, sofar, b, job.id); }
      trace := Pause(p, env(start), s, sofar, b, Act(p, At(now)));
      final, trace, seen := CountAndWrite(p, job, attempt, out, now, updated, env, start, s, trace);
    }

    /** The metric, and then the final write of the record as it was read before it. */
    method CountAndWrite(p: nat, job: Job, attempt: nat, out: Outcome, now: int, updated: Record,
                         env: nat -> seq<Action>, start: nat, ghost s: State, ghost sofar: seq<Action>)
      returns (final: Record, ghost trace: seq<Action>, ghost seen: State)
      requires Sound(cfg, careful, View()) && Path(cfg, careful, s, sofar, View()) && updated.id == job.id
      requires Stands(p, Worker(job, EndRead(attempt, out, now, updated)))
      modifies this
      ensures Sound(cfg, careful, View()) && Path(cfg, careful, s, trace, View()) && Stands(p, Worker(job, Releasing))
      ensures final == Finalised(updated, attempt, out, now)
      ensures Passes(cfg, s, trace, seen) && job.id in seen.store && seen.store[job.id] == final
    {
      hide Path, Sound, Next, TrailOf, OurIdFree, Passes;
      ghost var b := View();
      RecordMetric(p, job, attempt, out, now, updated);
      trace := Pause(p, env(start + 1), s, sofar, b, Act(p, Go));
      RecordThere(p, job, Metered(attempt, out, now, updated));
      b := View();
      final := Conclude(p, job, attempt, out, now, updated);
      seen := View();
      trace := Pause(p, env(start + 2), s, trace, b, Act(p, Go));
    }

    lemma RecordThere(p: nat, job: Job, at: Stage)
      requires Sound(cfg, careful, View()) && Stands(p, Worker(job, at))
      ensures job.id in items
    {
      Known(p, job, at);
    }

    method LetGo(p: nat, job: Job, env: nat -> seq<Action>, start: nat, ghost s: State, ghost sofar: seq<Action>)
      returns (ghost trace: seq<Action>)
      requires Sound(cfg, careful, View()) && Path(cfg, careful, s, sofar, View()) && Stands(p, Worker(job, Releasing))
      modifies this
      ensures Sound(cfg, careful, View()) && Path(cfg, careful, s, trace, View()) && sofar <= trace && Stands(p, Gone(WorkerExited))
    {
      hide Path, Sound, Next, TrailOf, OurIdFree, Passes;
      HolderHasToken(p);
      ghost var b := View();
      GiveSlotBack(p, job);
      trace := Pause(p, env(start), s, sofar, b, Act(p, Go));
      trace := SignOff(p, job, env(start + 1), s, trace);
    }

    method SignOff(p: nat, job: Job, env: seq<Action>, ghost s: State, ghost sofar: seq<Action>)
      returns (ghost trace: seq<Action>)
      requires Sound(cfg, careful, View()) && Path(cfg, careful, s, sofar, View()) && Stands(p, Worker(job, Leaving))
      modifies this
      ensures Sound(cfg, careful, View()) && Path(cfg, careful, s, trace, View()) && sofar <= trace && Stands(p, Gone(WorkerExited))
    {
      hide Path, Sound, Next, TrailOf, OurIdFree, Passes;
      WorkerIsCounted(p);
      ghost var b := View();
      Done(p, job);
      trace := Pause(p, env, s, sofar, b, Act(p, Go));
    }

    // The calls

    /** The check of the closed flag every call starts with. */
    method CheckClosed(p: nat, req: Request) returns (closed: bool)
      requires Stands(p, Arrived(req)) && !req.CloseCall?
      modifies this`procs
      ensures closed == isClosed && Stands(p, if closed then Gone(Unavailable) else Admitted(req))
      ensures procs == old(procs)[p := procs[p]]
      ensures Next(cfg, old(View()), Act(p, Go)) == Some(View())
    {
      closed := isClosed;
      procs := procs[p := if closed then Gone(Unavailable) else Admitted(req)];
    }

    /** GetByNameOrID, answered by the function repository with `found`. */
    method LookUp(p: nat, req: Request, found: Option<Function>) returns (c: Choice)
      requires Stands(p, Admitted(req)) && (req.SyncCall? || req.AsyncCall?)
      modifies this`procs
      ensures c == if found.Some? then Found(found.value) else Missing
      ensures Next(cfg, old(View()), Act(p, c)) == Some(View())
      ensures Stands(p, if found.None? then Gone(LookupFailed)
                    else if req.AsyncCall? then AsyncReady(req, found.value)
                    else SyncReady(found.value, CallTimeout(cfg, found.value, req.timeout)))
    {
      match found
      case None =>
        c := Missing;
        procs := procs[p := Gone(LookupFailed)];
      case Some(fn) =>
        c := Found(fn);
        var execTimeout := ResolveTimeout(cfg, req.timeout);
        if fn.timeoutSec > 0 && req.timeout <= 0 {
          execTimeout := ResolveTimeout(cfg, FunctionTimeout(fn));
        }
        procs := procs[p := if req.AsyncCall? then AsyncReady(req, fn) else SyncReady(fn, execTimeout)];
    }

    /** The non-blocking select: `preferCancel` decides when both a free slot and a cancelled context are ready. */
    method TrySlot(p: nat, fn: Function, timeout: int, cancelled: bool, preferCancel: bool) returns (c: Choice)
      requires Stands(p, SyncReady(fn, timeout)) && Sound(cfg, careful, View())
      modifies this`sem, this`procs
      ensures Next(cfg, old(View()), Act(p, c)) == Some(View())
      ensures c.Go? ==> old(sem) < cfg.capacity && Stands(p, SyncRunning(fn, timeout))
      ensures c.Cancel? ==> cancelled && Stands(p, Gone(Cancelled))
      ensures c.Full? ==> !cancelled && |Cast(old(procs), SlotHolder)| == cfg.capacity && Stands(p, Gone(CapacityExceeded))
      ensures c.Go? || c.Cancel? || c.Full?
    {
      if sem < cfg.capacity && !(cancelled && preferCancel) {
        c := Go;
        sem := sem + 1;
        procs := procs[p := SyncRunning(fn, timeout)];
      } else if cancelled {
        c := Cancel;
        procs := procs[p := Gone(Cancelled)];
      } else {
        c := Full;
        procs := procs[p := Gone(CapacityExceeded)];
      }
    }

    /** The runner call itself, answered with `out`, and the metric. */
    method RunAndRecord(p: nat, fn: Function, payload: string, contentType: string, timeout: int, out: Outcome,
                        env: nat -> seq<Action>, ghost s: State, ghost sofar: seq<Action>)
      returns (reply: Reply, ran: RunnerCall, ghost trace: seq<Action>)
      requires Sound(cfg, careful, View()) && Path(cfg, careful, s, sofar, View()) && Stands(p, SyncRunning(fn, timeout))
      modifies this
      ensures Sound(cfg, careful, View()) && Path(cfg, careful, s, trace, View()) && Stands(p, SyncCounted(reply))
      ensures reply == if out.Ok? then Returned(out.result) else RunnerFailed(out.message)
      ensures ran == RunnerCall(fn, payload, contentType, timeout)
    {
      hide Path, Sound, TrailOf, OurIdFree, Passes;
      ghost var b := View();
      ran := RunnerCall(fn, payload, contentType, timeout);
      procs := procs[p := SyncRan(out)];
      trace := Pause(p, env(3), s, sofar, b, Act(p, Ran(out)));
      b := View();
      if out.Err? {
        metrics := metrics.(failed := metrics.failed + 1);
        reply := RunnerFailed(out.message);
      } else {
        metrics := metrics.(completed := metrics.completed + 1);
        reply := Returned(out.result);
      }
      procs := procs[p := SyncCounted(reply)];
      trace := Pause(p, env(4), s, trace, b, Act(p, Go));
    }

    /** A synchronous call: what it answers follows from the flag, the lookup, the semaphore and the runner alone. */
    method InvokeSync(p: nat, payload: string, contentType: string, timeout: int, found: Option<Function>,
                      cancelled: bool, preferCancel: bool, out: Outcome, env: nat -> seq<Action>)
      returns (reply: Reply, ran: Option<RunnerCall>, ghost trace: seq<Action>, ghost seen: State)
      requires Sound(cfg, careful, View()) && Stands(p, Arrived(SyncCall(timeout)))
      modifies this
      ensures Path(cfg, careful, old(View()), trace, View()) && Sound(cfg, careful, View()) && Stands(p, Gone(reply))
      ensures match reply
              case Unavailable => old(isClosed)
              case LookupFailed => !old(isClosed) && found.None?
              case Cancelled => !old(isClosed) && found.Some? && cancelled
              case CapacityExceeded =>
                && !old(isClosed) && found.Some? && !cancelled
                && Passes(cfg, old(View()), trace, seen) && |Cast(seen.procs, SlotHolder)| == cfg.capacity
              case RunnerFailed(message) => !old(isClosed) && found.Some? && out == Err(message)
              case Returned(result) => !old(isClosed) && found.Some? && out == Ok(result)
              case _ => false
      ensures ran.Some? <==> reply.RunnerFailed? || reply.Returned?
      ensures ran.Some? ==>
                && found == Some(ran.value.fn) && ran.value.payload == payload
                && ran.value.contentType == (if contentType == "" then "application/json" else contentType)
      ensures ran.Some? ==>
                var fn, t := ran.value.fn, ran.value.timeout;
                && (timeout > 0 ==> t == Least(timeout, cfg.maxTimeout))
                && (timeout <= 0 && fn.timeoutSec <= 0 ==> t == cfg.defaultTimeout)
                && (timeout <= 0 && 0 < fn.timeoutSec <= 9_223_372_036 ==>
                      t == Least(fn.timeoutSec * 1_000_000_000, cfg.maxTimeout))
    {
      hide Path, Sound, Next, TrailOf, OurIdFree, Passes;
      ghost var s := View();
      seen, ran := s, None;
      EmptyPath(cfg, careful, s);
      var closed := CheckClosed(p, SyncCall(timeout));
      trace := Pause(p, env(0), s, [], s, Act(p, Go));
      if closed { return Unavailable, None, trace, seen; }
      ghost var b := View();
      var c := LookUp(p, SyncCall(timeout), found);
      trace := Pause(p, env(1), s, trace, b, Act(p, c));
      if found.None? { return LookupFailed, None, trace, seen; }
      CallTimeoutMeans(cfg, found.value, timeout);
      reply, ran, trace, seen := RunInSlot(p, found.value, payload,
                                           if contentType == "" then "application/json" else contentType,
                                           CallTimeout(cfg, found.value, timeout), cancelled, preferCancel, out,
                                           env, s, trace);
    }

    method RunInSlot(p: nat, fn: Function, payload: string, contentType: string, timeout: int,
                     cancelled: bool, preferCancel: bool, out: Outcome,
                     env: nat -> seq<Action>, ghost s: State, ghost sofar: seq<Action>)
      returns (reply: Reply, ran: Option<RunnerCall>, ghost trace: seq<Action>, ghost seen: State)
      requires Sound(cfg, careful, View()) && Path(cfg, careful, s, sofar, View()) && Stands(p, SyncReady(fn, timeout))
      modifies this
      ensures Path(cfg, careful, s, trace, View()) && Sound(cfg, careful, View()) && Stands(p, Gone(reply))
      ensures match reply
              case Cancelled => cancelled
              case CapacityExceeded =>
                !cancelled && Passes(cfg, s, trace, seen) && |Cast(seen.procs, SlotHolder)| == cfg.capacity
              case RunnerFailed(message) => out == Err(message)
              case Returned(result) => out == Ok(result)
              case _ => false
      ensures ran == if reply.RunnerFailed? || reply.Returned? then Some(RunnerCall(fn, payload, contentType, timeout))
                     else None
    {
      hide Path, Sound, Next, TrailOf, OurIdFree, Passes;
      seen := View();
      var c := TrySlot(p, fn, timeout, cancelled, preferCancel);
      trace := Pause(p, env(2), s, sofar, seen, Act(p, c));
      PassesHere(cfg, careful, s, sofar, seen, trace);
      if c.Cancel? { return Cancelled, None, trace, seen; }
      if c.Full? { return CapacityExceeded, None, trace, seen; }
      var call;
      reply, call, trace := RunAndRecord(p, fn, payload, contentType, timeout, out, env, s, trace);
      ran := Some(call);
      trace := Release(p, reply, env(5), s, trace);
    }

    /** The deferred receive from the semaphore. */
    method Release(p: nat, reply: Reply, env: seq<Action>, ghost s: State, ghost sofar: seq<Action>)
      returns (ghost trace: seq<Action>)
      requires Sound(cfg, careful, View()) && Path(cfg, careful, s, sofar, View()) && Stands(p, SyncCounted(reply))
      modifies this
      ensures Path(cfg, careful, s, trace, View()) && Sound(cfg, careful, View()) && Stands(p, Gone(reply))
    {
      hide Path, Sound, Next, TrailOf, OurIdFree, Passes;
      HolderHasToken(p);
      ghost var b := View();
      sem := sem - 1;
      procs := procs[p := Gone(reply)];
      ReleaseIsAStep(b, View(), p, reply);
      trace := Pause(p, env, s, sofar, b, Act(p, Go));
    }

    lemma HolderHasToken(p: nat)
      requires Sound(cfg, careful, View()) && p < |procs| && Plays(procs[p], SlotHolder)
      ensures sem > 0
    {
      AtLeastOne(procs, SlotHolder, p);
    }

    lemma WorkerIsCounted(p: nat)
      requires Sound(cfg, careful, View()) && p < |procs| && procs[p].Worker?
      ensures wg > 0
    {
      AtLeastOne(procs, Waited, p);
    }

    lemma ReleaseIsAStep(b: State, v: State, p: nat, reply: Reply)
      requires p < |b.procs| && b.procs[p] == SyncCounted(reply) && b.sem > 0
      requires v == Goto(b.(sem := b.sem - 1), p, Gone(reply))
      ensures Next(cfg, b, Act(p, Go)) == Some(v)
    {
    }

    /** wg.Add and the go statement, with the others in between. */
    method Spawn(p: nat, job: Job, inv: Record, env: seq<Action>, ghost s: State, ghost sofar: seq<Action>)
      returns (ghost w: nat, ghost trace: seq<Action>)
      requires Sound(cfg, careful, View()) && Path(cfg, careful, s, sofar, View()) && Stands(p, Spawning(job, inv, false))
      modifies this
      ensures Sound(cfg, careful, View()) && Path(cfg, careful, s, trace, View()) && sofar <= trace
      ensures Stands(p, Gone(Accepted(inv, job.replayed))) && Stands(w, Worker(job, Queued))
      ensures job.id in items && (careful ==> items[job.id] == inv)
    {
      hide Path, Sound, Next, TrailOf, OurIdFree, Passes;
      ghost var b := View();
      Announce(p, job, inv);
      trace := Pause(p, env, s, sofar, b, Act(p, Go));
      b := View();
      SpawningStored(p, job, inv);
      w := StartWorker(p, job, inv);
      StepPath(cfg, careful, b, Act(p, Go), View());
      PathAppend(cfg, careful, s, trace, b, [Act(p, Go)], View());
      trace := trace + [Act(p, Go)];
    }

    method Announce(p: nat, job: Job, inv: Record)
      requires Stands(p, Spawning(job, inv, false))
      modifies this`wg, this`procs
      ensures Next(cfg, old(View()), Act(p, Go)) == Some(View()) && Stands(p, Spawning(job, inv, true))
    {
      wg := wg + 1;
      procs := procs[p := Spawning(job, inv, true)];
    }

    method StartWorker(p: nat, job: Job, inv: Record) returns (w: nat)
      requires Stands(p, Spawning(job, inv, true))
      modifies this`procs
      ensures Next(cfg, old(View()), Act(p, Go)) == Some(View())
      ensures Stands(p, Gone(Accepted(inv, job.replayed))) && Stands(w, Worker(job, Queued))
    {
      w := |procs|;
      procs := procs[p := Gone(Accepted(inv, job.replayed))] + [Worker(job, Queued)];
    }

    lemma SpawningStored(p: nat, job: Job, inv: Record)
      requires Sound(cfg, careful, View()) && Stands(p, Spawning(job, inv, true))
      ensures job.id in items && (careful ==> items[job.id] == inv)
    {
      assert Tagged(procs[p], items);
      if careful { assert LocalOk(cfg, procs[p], items, TrailOf(log, p)); }
    }

    method CreateRecord(p: nat, req: Request, fn: Function, now: int) returns (inv: Record, job: Job)
      requires Stands(p, AsyncReady(req, fn)) && req.AsyncCall?
      modifies this`items, this`procs
      ensures Next(cfg, old(View()), Act(p, At(now))) == Some(View()) && Stands(p, Spawning(job, inv, false))
      ensures inv == NewRecord(cfg, req, fn, now) && job == NewJob(cfg, req, fn, p)
    {
      inv := Record(req.id, fn.id, Pending, None, "", 0, cfg.maxRetries, req.payload, req.traceID, req.caller, now, None);
      job := NewJob(cfg, req, fn, p);
      items := items[inv.id := inv];
      procs := procs[p := Spawning(job, inv, false)];
    }

    /**
     An asynchronous call answers with the pending record it has stored and started a worker for. With careful callers,
     who use an unused id, that is still what is stored when it returns.
     */
    method InvokeAsync(p: nat, req: Request, found: Option<Function>, now: int, env: nat -> seq<Action>)
      returns (reply: Reply, ghost w: nat, ghost trace: seq<Action>)
      requires Sound(cfg, careful, View()) && req.AsyncCall? && Stands(p, Arrived(req))
      requires careful ==> req.id !in items
      modifies this
      ensures Path(cfg, careful, old(View()), trace, View()) && Sound(cfg, careful, View()) && Stands(p, Gone(reply))
      ensures match reply
              case Unavailable => old(isClosed)
              case LookupFailed => !old(isClosed) && found.None?
              case Accepted(inv, replayed) =>
                && !old(isClosed) && found.Some? && !replayed
                && inv == Record(req.id, found.value.id, Pending, None, "", 0, cfg.maxRetries,
                                 req.payload, req.traceID, req.caller, now, None)
                && req.id in items && (careful ==> items[req.id] == inv)
                && w < |procs| && procs[w].Worker? && procs[w].at.Queued?
                && var fn, job := found.value, procs[w].job;
                && job.id == req.id && job.fn == fn && !job.replayed
                && job.payload == req.payload && job.traceID == req.traceID && job.caller == req.caller
                && job.contentType == (if req.contentType == "" then "application/json" else req.contentType)
                && (req.timeout > 0 ==> job.timeout == Least(req.timeout, cfg.maxTimeout))
                && (req.timeout <= 0 && fn.timeoutSec <= 0 ==> job.timeout == cfg.defaultTimeout)
                && (req.timeout <= 0 && 0 < fn.timeoutSec <= 9_223_372_036 ==>
                      job.timeout == Least(fn.timeoutSec * 1_000_000_000, cfg.maxTimeout))
              case _ => false
    {
      hide Path, Sound, Next, TrailOf, OurIdFree, Passes;
      ghost var s := View();
      ghost var b := s;
      EmptyPath(cfg, careful, s);
      if careful { FreeForCreate(p, req); }
      var closed := CheckClosed(p, req);
      if careful && !closed { FreeForCreate(p, req); }
      trace := Pause(p, env(0), s, [], b, Act(p, Go));
      reply, w := Unavailable, 0;
      if closed { return; }
      if careful { StillUnused(p, req); }
      b := View();
      var c := LookUp(p, req, found);
      if careful && found.Some? { FreeForCreate(p, req); }
      trace := Pause(p, env(1), s, trace, b, Act(p, c));
      if found.None? { reply := LookupFailed; return; }
      if careful { StillUnused(p, req); }
      NewJobTimeout(cfg, req, found.value, p);
      var inv;
      inv, w, trace := CreateAndSpawn(p, req, found.value, now, env, s, trace);
      reply := Accepted(inv, false);
    }

    method CreateAndSpawn(p: nat, req: Request, fn: Function, now: int, env: nat -> seq<Action>,
                          ghost s: State, ghost sofar: seq<Action>)
      returns (inv: Record, ghost w: nat, ghost trace: seq<Action>)
      requires Sound(cfg, careful, View()) && Path(cfg, careful, s, sofar, View()) && Stands(p, AsyncReady(req, fn))
      requires req.AsyncCall? && (careful ==> req.id !in items)
      modifies this
      ensures Path(cfg, careful, s, trace, View()) && Sound(cfg, careful, View()) && Stands(p, Gone(Accepted(inv, false)))
      ensures inv == NewRecord(cfg, req, fn, now) && req.id in items && (careful ==> items[req.id] == inv)
      ensures Stands(w, Worker(NewJob(cfg, req, fn, p), Queued))
    {
      hide Path, Sound, Next, TrailOf, OurIdFree, Passes;
      ghost var b := View();
      var job;
      inv, job := CreateRecord(p, req, fn, now);
      trace := Pause(p, env(2), s, sofar, b, Act(p, At(now)));
      w, trace := Spawn(p, job, inv, env(3), s, trace);
    }

    lemma FreeForCreate(p: nat, req: Request)
      requires p < |procs| && req.AsyncCall? && WillCreate(procs[p], req.id) && req.id !in items
      ensures OurIdFree(View(), procs[p])
    {
    }

    lemma StillUnused(p: nat, req: Request)
      requires p < |procs| && req.AsyncCall? && WillCreate(procs[p], req.id) && OurIdFree(View(), procs[p])
      ensures req.id !in items
    {
    }

    // Replay

    method ReadForReplay(p: nat, id: string) returns (snap: Option<Record>)
      requires Stands(p, Admitted(ReplayCall(id)))
      modifies this`procs
      ensures Next(cfg, old(View()), Act(p, Go)) == Some(View())
      ensures snap.Some? ==> id in items && snap.value == items[id] && Replayable(snap.value.status) && Stands(p, ReplayRead(snap.value))
      ensures snap.None? ==> Stands(p, Gone(if id in items then InvalidInput else NotFound))
      ensures snap.None? && id in items ==> !Replayable(items[id].status)
    {
      if id !in items {
        snap := None;
        procs := procs[p := Gone(NotFound)];
      } else if items[id].status != DeadLetter && items[id].status != Failed {
        snap := None;
        procs := procs[p := Gone(InvalidInput)];
      } else {
        snap := Some(items[id]);
        procs := procs[p := ReplayRead(items[id])];
      }
    }

    method Requeue(p: nat, snap: Record, fn: Function) returns (inv: Record, job: Job)
      requires Stands(p, ReplayReady(snap, fn)) && snap.id in items
      modifies this`items, this`procs
      ensures Next(cfg, old(View()), Act(p, Go)) == Some(View()) && Stands(p, Spawning(job, inv, false))
      ensures inv == Requeued(snap) && job == ReplayJob(cfg, snap, fn, p)
    {
      inv := snap.(status := Pending, retryCount := 0, error := "", completedAt := None);
      items := items[inv.id := inv];
      job := Job(inv.id, fn, inv.payload, inv.traceID, inv.caller, "", ResolveTimeout(cfg, FunctionTimeout(fn)), true, p);
      procs := procs[p := Spawning(job, inv, false)];
    }

    /**
     A replay; careful callers start it while no other replay of the record is under way. `functions` is what the
     function repository has filed. When it accepts, it has put the dead letter it read back as pending, and started a
     worker with its payload, the function filed under its function id and no content type; with careful callers the
     record is still as it left it, and everything fixed at its creation is unchanged.
     */
    method RetryDeadLetter(p: nat, id: string, functions: map<string, Function>, env: nat -> seq<Action>)
      returns (reply: Reply, ghost w: nat, ghost trace: seq<Action>, ghost seen: State)
      requires Sound(cfg, careful, View()) && Stands(p, Arrived(ReplayCall(id)))
      requires careful ==> Cast(procs, ReplayerOf(id)) == {}
      modifies this
      ensures Path(cfg, careful, old(View()), trace, View()) && Sound(cfg, careful, View()) && Stands(p, Gone(reply))
      ensures match reply
              case Unavailable => old(isClosed)
              case NotFound => !old(isClosed) && id !in seen.store && id !in old(items)
              case InvalidInput =>
                !old(isClosed) && id in seen.store && seen.store[id].status in {Pending, Running, Completed}
              case LookupFailed =>
                && !old(isClosed) && id in seen.store && seen.store[id].functionID !in functions
                && (careful && id in old(items) ==> old(items)[id].functionID !in functions)
              case Accepted(inv, replayed) =>
                && !old(isClosed) && replayed && id in seen.store && seen.store[id].status == DeadLetter
                && inv == seen.store[id].(status := Pending, retryCount := 0, error := "", completedAt := None)
                && (careful && id in old(items) ==> CoreOf(inv) == CoreOf(old(items)[id]))
                && id in items && (careful ==> items[id] == inv && inv.result == None)
                && w < |procs| && procs[w].Worker? && procs[w].at.Queued? && inv.functionID in functions
                && var fn, job := functions[inv.functionID], procs[w].job;
                && job.id == id && job.fn == fn && job.replayed && job.contentType == ""
                && job.payload == inv.payload && job.traceID == inv.traceID && job.caller == inv.caller
                && (0 < fn.timeoutSec <= 9_223_372_036 ==>
                      job.timeout == Least(fn.timeoutSec * 1_000_000_000, cfg.maxTimeout))
                && (-9_223_372_036 <= fn.timeoutSec <= 0 ==> job.timeout == cfg.defaultTimeout)
              case _ => false
      ensures !reply.Unavailable? ==> Passes(cfg, old(View()), trace, seen)
    {
      hide Path, Sound, Next, TrailOf, OurIdFree, Passes;
      ghost var s := View();
      var read;
      w := 0;
      reply, read, trace, seen := AdmitReplay(p, id, env, s);
      if read.Some? {
        ghost var sofar := trace;
        var key := read.value.functionID;
        var fn := if key in functions then Some(functions[key]) else None;
        if fn.Some? { ReplayJobTimeout(cfg, read.value, fn.value, p); }
        reply, w, trace := RequeueAndSpawn(p, read.value, fn, env, s, trace);
        PassesOn(cfg, s, sofar, seen, trace);
      }
    }

    /** From the closed check to the copy of the dead letter, or to the answer when there is nothing to replay. */
    method AdmitReplay(p: nat, id: string, env: nat -> seq<Action>, ghost s: State)
      returns (reply: Reply, read: Option<Record>, ghost trace: seq<Action>, ghost seen: State)
      requires Sound(cfg, careful, View()) && Stands(p, Arrived(ReplayCall(id))) && s == View()
      requires careful ==> Cast(procs, ReplayerOf(id)) == {}
      modifies this
      ensures Path(cfg, careful, s, trace, View()) && Sound(cfg, careful, View())
      ensures read.Some? ==> !s.closed && read.value.id == id && Stands(p, ReplayRead(read.value))
      ensures read.Some? ==> id in seen.store && read.value == seen.store[id] && read.value.status == DeadLetter
      ensures read.Some? || !reply.Unavailable? ==> Passes(cfg, s, trace, seen)
      ensures careful && read.Some? && id in s.store ==> CoreOf(read.value) == CoreOf(s.store[id])
      ensures read.None? ==> Stands(p, Gone(reply))
      ensures read.None? ==>
                || (reply.Unavailable? && s.closed)
                || (reply.InvalidInput? && !s.closed && id in seen.store &&
                    seen.store[id].status in {Pending, Running, Completed})
                || (reply.NotFound? && !s.closed && id !in seen.store && id !in s.store)
    {
      hide Path, Sound, Next, TrailOf, OurIdFree, Passes;
      EmptyPath(cfg, careful, s);
      seen := s;
      reply, read := Unavailable, None;
      var closed := CheckClosed(p, ReplayCall(id));
      if careful && !closed { FreeForReplay(s, p, id); }
      trace := Pause(p, env(0), s, [], s, Act(p, Go));
      if closed { return; }
      if careful { StillUnread(p, id); }
      seen := View();
      ghost var sofar := trace;
      if id in s.store { PathKeepsCore(cfg, careful, s, trace, seen, id); }
      read := ReadForReplay(p, id);
      reply := if read.None? then procs[p].reply else InvalidInput;
      RecordsKeyed(seen);
      trace := Pause(p, env(1), s, trace, seen, Act(p, Go));
      PassesHere(cfg, careful, s, sofar, seen, trace);
    }

    lemma RecordsKeyed(b: State)
      requires Sound(cfg, careful, b)
      ensures forall id | id in b.store :: b.store[id].id == id && b.store[id].status != Failed
    {
    }

    method RequeueAndSpawn(p: nat, snap: Record, found: Option<Function>, env: nat -> seq<Action>,
                           ghost s: State, ghost sofar: seq<Action>)
      returns (reply: Reply, ghost w: nat, ghost trace: seq<Action>)
      requires Sound(cfg, careful, View()) && Path(cfg, careful, s, sofar, View()) && Stands(p, ReplayRead(snap))
      modifies this
      ensures Path(cfg, careful, s, trace, View()) && Sound(cfg, careful, View()) && Stands(p, Gone(reply))
      ensures sofar <= trace
      ensures found.None? ==> reply == LookupFailed
      ensures found.Some? ==>
                && reply == Accepted(Requeued(snap), true)
                && snap.id in items && (careful ==> items[snap.id] == Requeued(snap) && snap.result == None)
                && Stands(w, Worker(ReplayJob(cfg, snap, found.value, p), Queued))
    {
      hide Path, Sound, Next, TrailOf, OurIdFree, Passes;
      if careful { SnapHasNoResult(p, snap); }
      ghost var b := View();
      var c := FindForReplay(p, snap, found);
      trace := Pause(p, env(2), s, sofar, b, Act(p, c));
      reply, w := LookupFailed, 0;
      if found.Some? {
        w, trace := Replay(p, snap, found.value, env, s, trace);
        reply := Accepted(Requeued(snap), true);
      }
    }

    method Replay(p: nat, snap: Record, fn: Function, env: nat -> seq<Action>, ghost s: State, ghost sofar: seq<Action>)
      returns (ghost w: nat, ghost trace: seq<Action>)
      requires Sound(cfg, careful, View()) && Path(cfg, careful, s, sofar, View()) && Stands(p, ReplayReady(snap, fn))
      modifies this
      ensures Path(cfg, careful, s, trace, View()) && Sound(cfg, careful, View()) && sofar <= trace
      ensures Stands(p, Gone(Accepted(Requeued(snap), true))) && Stands(w, Worker(ReplayJob(cfg, snap, fn, p), Queued))
      ensures snap.id in items && (careful ==> items[snap.id] == Requeued(snap))
    {
      hide Path, Sound, Next, TrailOf, OurIdFree, Passes;
      SnapThere(p, snap);
      ghost var b := View();
      var inv, job := Requeue(p, snap, fn);
      trace := Pause(p, env(3), s, sofar, b, Act(p, Go));
      w, trace := Spawn(p, job, inv, env(4), s, trace);
    }

    /** GetByID of the function repository, answered with `found`. */
    method FindForReplay(p: nat, snap: Record, found: Option<Function>) returns (c: Choice)
      requires Stands(p, ReplayRead(snap))
      modifies this`procs
      ensures c == if found.Some? then Found(found.value) else Missing
      ensures Next(cfg, old(View()), Act(p, c)) == Some(View())
      ensures Stands(p, if found.Some? then ReplayReady(snap, found.value) else Gone(LookupFailed))
    {
      match found
      case None =>
        c := Missing;
        procs := procs[p := Gone(LookupFailed)];
      case Some(fn) =>
        c := Found(fn);
        procs := procs[p := ReplayReady(snap, fn)];
    }

    lemma SnapHasNoResult(p: nat, snap: Record)
      requires careful && Sound(cfg, careful, View()) && Stands(p, ReplayRead(snap))
      ensures snap.result == None
    {
      assert LocalOk(cfg, procs[p], items, TrailOf(log, p));
      assert RecordOk(cfg, View(), snap.id);
    }

    lemma SnapThere(p: nat, snap: Record)
      requires Sound(cfg, careful, View()) && p < |procs| && procs[p].ReplayReady? && procs[p].snap == snap
      ensures snap.id in items
    {
      assert Tagged(procs[p], items);
    }

    lemma FreeForReplay(b: State, p: nat, id: string)
      requires p < |b.procs| && p < |procs| && b.procs[p] == Arrived(ReplayCall(id)) && procs == b.procs[p := Admitted(ReplayCall(id))]
      requires Cast(b.procs, ReplayerOf(id)) == {}
      ensures OurIdFree(View(), procs[p])
    {
      CastUpdate(b.procs, p, procs[p], ReplayerOf(id));
    }

    lemma StillUnread(p: nat, id: string)
      requires p < |procs| && procs[p] == Admitted(ReplayCall(id)) && OurIdFree(View(), procs[p])
      ensures Cast(procs, ReplayerOf(id)) == {}
    {
    }

    /** Close: set the flag, then wait for the workers, as long as `patience` lasts. */
    method Close(p: nat, env: nat -> seq<Action>, patience: nat) returns (returned: bool, ghost trace: seq<Action>)
      requires Sound(cfg, careful, View()) && Stands(p, Arrived(CloseCall))
      modifies this
      ensures Path(cfg, careful, old(View()), trace, View()) && Sound(cfg, careful, View())
      ensures Stands(p, if returned then Gone(ClosedDown) else CloseWaiting)
      ensures isClosed
      ensures returned ==> forall q | 0 <= q < |procs| :: !procs[q].Worker?
    {
      hide Path, Sound, TrailOf, OurIdFree, Passes;
      ghost var s := View();
      EmptyPath(cfg, careful, s);
      isClosed := true;
      procs := procs[p := CloseWaiting];
      trace := Pause(p, env(0), s, [], s, Act(p, Go));
      var k := 1;
      while wg > 0 && k <= patience
        invariant Path(cfg, careful, s, trace, View()) && Sound(cfg, careful, View()) && Stands(p, CloseWaiting) && isClosed
        decreases patience - k
      {
        ghost var mid := View();
        ghost var others := Yield(p, env(k));
        PathAppend(cfg, careful, s, trace, mid, others, View());
        trace := trace + others;
        k := k + 1;
      }
      returned := wg == 0;
      if returned {
        NobodyWaited();
        ghost var b := View();
        procs := procs[p := Gone(ClosedDown)];
        StepPath(cfg, careful, b, Act(p, Go), View());
        PathAppend(cfg, careful, s, trace, b, [Act(p, Go)], View());
        trace := trace + [Act(p, Go)];
      }
    }

    lemma NobodyWaited()
      requires Sound(cfg, careful, View()) && wg == 0
      ensures forall q | 0 <= q < |procs| :: !procs[q].Worker?
    {
      forall q | 0 <= q < |procs| ensures !procs[q].Worker? {
        if procs[q].Worker? { AtLeastOne(procs, Waited, q); }
      }
    }
  }

  lemma {:induction false} NoFailureNoMessage(log: seq<Event>, p: nat)
    ensures TrailOf(log, p).fails == 0 ==> TrailOf(log, p).lastErr == ""
  {
    if log != [] { NoFailureNoMessage(log[..|log| - 1], p); }
  }
}
