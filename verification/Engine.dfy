/**
 The invocation engine as a step machine.

 Each goroutine is an entry of `procs`; its number never changes and a finished goroutine stays behind as `Gone`.
 A step is what one goroutine does between two points where another may run: one locked repository operation,
 one channel operation, one wait-group operation, one runner call. Every read of a record is a step of its own
 and so is the write that follows it. What the environment decides (the answer of the function repository,
 the outcome of a runner call, the clock, a cancelled context) is the step's `Choice`.
 */
module Engine {
  import opened Domain
  import opened Backoff

  datatype Request =
    | SyncCall(timeout: int)
    | AsyncCall(id: string, payload: string, traceID: string, caller: string, contentType: string, timeout: int)
    | ReplayCall(id: string)
    | CloseCall

  datatype Outcome = Ok(result: InvocationResult) | Err(message: string)

  /** The arguments a worker is spawned with; `origin` is the call that spawned it. */
  datatype Job = Job(id: string, fn: Function, payload: string, traceID: string, caller: string,
                     contentType: string, timeout: int, replayed: bool, origin: nat)

  datatype Reply =
    | Unavailable
    | LookupFailed
    | Cancelled
    | CapacityExceeded
    | RunnerFailed(message: string)
    | Returned(result: InvocationResult)
    | Accepted(inv: Record, replayed: bool)
    | NotFound
    | InvalidInput
    | ClosedDown
    | WorkerExited

  /** Where a worker stands. */
  datatype Stage =
    | Queued
    | Holding
    | StartRead(snap: Record)
    | Calling(attempt: nat)
    | Stumbled(attempt: nat, message: string)
    | RetryRead(attempt: nat, message: string, snap: Record)
    | Sleeping(attempt: nat)
    | Ending(attempt: nat, out: Outcome)
    | EndRead(attempt: nat, out: Outcome, now: int, snap: Record)
    | Metered(attempt: nat, out: Outcome, now: int, snap: Record)
    | Releasing
    | Leaving

  datatype Proc =
    | Arrived(req: Request)
    | Admitted(req: Request)
    // synchronous call
    | SyncReady(fn: Function, timeout: int)
    | SyncRunning(fn: Function, timeout: int)
    | SyncRan(out: Outcome)
    | SyncCounted(reply: Reply)
    // asynchronous call and replay; `counted` once the wait group knows about the worker to come
    | AsyncReady(req: Request, fn: Function)
    | ReplayRead(snap: Record)
    | ReplayReady(snap: Record, fn: Function)
    | Spawning(job: Job, inv: Record, counted: bool)
    | Worker(job: Job, at: Stage)
    // closer
    | CloseWaiting
    | Gone(reply: Reply)

  /** What the runner and the clock saw, in order. */
  datatype Event = Called(p: nat, job: Job, out: Outcome) | Slept(p: nat, duration: int)

  datatype Metrics = Metrics(completed: nat, failed: nat, deadLetter: nat)

  datatype State = State(
    closed: bool,
    sem: nat,
    wg: nat,
    store: map<string, Record>,
    procs: seq<Proc>,
    metrics: Metrics,
    log: seq<Event>,
    lastRun: map<string, nat>)  // the worker that made the last final write of a record

  const INIT := State(false, 0, 0, map[], [], Metrics(0, 0, 0), [], map[])

  datatype Choice = Go | Found(fn: Function) | Missing | Cancel | Full | Ran(out: Outcome) | At(now: int)

  datatype Action = Arrive(req: Request) | Act(p: nat, choice: Choice)

  // Records written by the steps

  function NewRecord(cfg: Config, req: Request, fn: Function, now: int): Record
    requires req.AsyncCall?
  {
    Record(req.id, fn.id, Pending, None, "", 0, cfg.maxRetries, req.payload, req.traceID, req.caller, now, None)
  }

  function NewJob(cfg: Config, req: Request, fn: Function, p: nat): Job
    requires req.AsyncCall?
  {
    Job(req.id, fn, req.payload, req.traceID, req.caller,
        if req.contentType == "" then "application/json" else req.contentType,
        CallTimeout(cfg, fn, req.timeout), false, p)
  }

  function Requeued(r: Record): Record {
    r.(status := Pending, retryCount := 0, error := "", completedAt := None)
  }

  function ReplayJob(cfg: Config, r: Record, fn: Function, p: nat): Job {
    Job(r.id, fn, r.payload, r.traceID, r.caller, "", ResolveTimeout(cfg, FunctionTimeout(fn)), true, p)
  }

  function Started(r: Record): Record {
    r.(status := Running)
  }

  function Retried(r: Record, attempt: nat, message: string): Record {
    r.(retryCount := attempt + 1, error := message)
  }

  function Finalised(r: Record, attempt: nat, out: Outcome, now: int): Record {
    match out
    case Err(message) =>
      r.(completedAt := Some(now), error := message, retryCount := attempt, status := DeadLetter)
    case Ok(result) =>
      r.(completedAt := Some(now), status := Completed, result := Some(result))
  }

  /** Update of the repository: a record that is not there stays away. */
  function Put(store: map<string, Record>, r: Record): map<string, Record> {
    if r.id in store then store[r.id := r] else store
  }

  function CountOutcome(m: Metrics, out: Outcome): Metrics {
    if out.Ok? then m.(completed := m.completed + 1) else m.(deadLetter := m.deadLetter + 1)
  }

  predicate Replayable(s: Status) {
    s == DeadLetter || s == Failed
  }

  // Steps

  function Goto(s: State, p: nat, x: Proc): State
    requires p < |s.procs|
  {
    s.(procs := s.procs[p := x])
  }

  /** One step of goroutine `p`, or None when it cannot take a step with this choice. */
  function Next(cfg: Config, s: State, a: Action): Option<State> {
    match a
    case Arrive(req) => Some(s.(procs := s.procs + [Arrived(req)]))
    case Act(p, c) =>
      if p >= |s.procs| then None
      else match s.procs[p]
        case Worker(job, at) => WorkerNext(cfg, s, p, job, at, c)
        case Admitted(req) => LookUpNext(cfg, s, p, req, c)
        case _ => CallNext(cfg, s, p, c)
  }

  /** The steps of an admitted call up to its first look at the repositories. */
  function LookUpNext(cfg: Config, s: State, p: nat, req: Request, c: Choice): Option<State>
    requires p < |s.procs|
  {
    match req
    case SyncCall(timeout) =>
      if c.Found? then Some(Goto(s, p, SyncReady(c.fn, CallTimeout(cfg, c.fn, timeout))))
      else if c.Missing? then Some(Goto(s, p, Gone(LookupFailed)))
      else None
    case AsyncCall(_, _, _, _, _, _) =>
      if c.Found? then Some(Goto(s, p, AsyncReady(req, c.fn)))
      else if c.Missing? then Some(Goto(s, p, Gone(LookupFailed)))
      else None
    case ReplayCall(id) =>
      if !c.Go? then None
      else if id !in s.store then Some(Goto(s, p, Gone(NotFound)))
      else if !Replayable(s.store[id].status) then Some(Goto(s, p, Gone(InvalidInput)))
      else Some(Goto(s, p, ReplayRead(s.store[id])))
    case CloseCall => None
  }

  function CallNext(cfg: Config, s: State, p: nat, c: Choice): Option<State>
    requires p < |s.procs|
  {
    match s.procs[p]
    case Arrived(req) =>
      if !c.Go? then None
      else if req.CloseCall? then Some(Goto(s.(closed := true), p, CloseWaiting))
      else if s.closed then Some(Goto(s, p, Gone(Unavailable)))
      else Some(Goto(s, p, Admitted(req)))
    case SyncReady(fn, timeout) =>
      if c.Go? && s.sem < cfg.capacity then Some(Goto(s.(sem := s.sem + 1), p, SyncRunning(fn, timeout)))
      else if c.Cancel? then Some(Goto(s, p, Gone(Cancelled)))
      else if c.Full? && s.sem >= cfg.capacity then Some(Goto(s, p, Gone(CapacityExceeded)))
      else None
    case SyncRunning(_, _) =>
      if c.Ran? then Some(Goto(s, p, SyncRan(c.out))) else None
    case SyncRan(out) =>
      if !c.Go? then None
      else if out.Err? then
        Some(Goto(s.(metrics := s.metrics.(failed := s.metrics.failed + 1)), p, SyncCounted(RunnerFailed(out.message))))
      else
        Some(Goto(s.(metrics := s.metrics.(completed := s.metrics.completed + 1)), p,
                  SyncCounted(Returned(out.result))))
    case SyncCounted(reply) =>
      if c.Go? && s.sem > 0 then Some(Goto(s.(sem := s.sem - 1), p, Gone(reply))) else None
    case AsyncReady(req, fn) =>
      if c.At? && req.AsyncCall? then
        var inv := NewRecord(cfg, req, fn, c.now);
        Some(Goto(s.(store := s.store[inv.id := inv]), p, Spawning(NewJob(cfg, req, fn, p), inv, false)))
      else None
    case ReplayRead(snap) =>
      if c.Found? then Some(Goto(s, p, ReplayReady(snap, c.fn)))
      else if c.Missing? then Some(Goto(s, p, Gone(LookupFailed)))
      else None
    case ReplayReady(snap, fn) =>
      if !c.Go? then None
      else if snap.id !in s.store then Some(Goto(s, p, Gone(NotFound)))
      else Some(Goto(s.(store := Put(s.store, Requeued(snap))), p,
                     Spawning(ReplayJob(cfg, snap, fn, p), Requeued(snap), false)))
    case Spawning(job, inv, counted) =>
      if !c.Go? then None
      else if !counted then Some(Goto(s.(wg := s.wg + 1), p, Spawning(job, inv, true)))
      else Some(s.(procs := s.procs[p := Gone(Accepted(inv, job.replayed))] + [Worker(job, Queued)]))
    case CloseWaiting =>
      if c.Go? && s.wg == 0 then Some(Goto(s, p, Gone(ClosedDown))) else None
    case _ => None
  }

  function WorkerNext(cfg: Config, s: State, p: nat, job: Job, at: Stage, c: Choice): Option<State>
    requires p < |s.procs|
  {
    match at
    case Queued =>
      if c.Go? && s.sem < cfg.capacity then Some(Goto(s.(sem := s.sem + 1), p, Worker(job, Holding))) else None
    case Holding =>
      if !c.Go? then None
      else if job.id in s.store then Some(Goto(s, p, Worker(job, StartRead(s.store[job.id]))))
      else Some(Goto(s, p, Worker(job, Calling(0))))
    case StartRead(snap) =>
      if c.Go? then Some(Goto(s.(store := Put(s.store, Started(snap))), p, Worker(job, Calling(0)))) else None
    case Calling(attempt) =>
      if !c.Ran? then None
      else Some(Goto(s.(log := s.log + [Called(p, job, c.out)]), p,
                     Worker(job,
                            if c.out.Ok? then Ending(attempt, c.out)
                            else if attempt < Retries(cfg) then Stumbled(attempt, c.out.message)
                            else Ending(attempt + 1, c.out))))
    case Stumbled(attempt, message) =>
      if !c.Go? then None
      else if job.id in s.store then Some(Goto(s, p, Worker(job, RetryRead(attempt, message, s.store[job.id]))))
      else Some(Goto(s, p, Worker(job, Sleeping(attempt))))
    case RetryRead(attempt, message, snap) =>
      if c.Go? then
        Some(Goto(s.(store := Put(s.store, Retried(snap, attempt, message))), p, Worker(job, Sleeping(attempt))))
      else None
    case Sleeping(attempt) =>
      if c.Go? then Some(Goto(s.(log := s.log + [Slept(p, Nap(attempt))]), p, Worker(job, Calling(attempt + 1))))
      else None
    case Ending(attempt, out) =>
      if !c.At? then None
      else if job.id in s.store then
        Some(Goto(s, p, Worker(job, EndRead(attempt, out, c.now, s.store[job.id]))))
      else Some(Goto(s, p, Worker(job, Releasing)))
    case EndRead(attempt, out, now, snap) =>
      if c.Go? then
        Some(Goto(s.(metrics := CountOutcome(s.metrics, out)), p, Worker(job, Metered(attempt, out, now, snap))))
      else None
    case Metered(attempt, out, now, snap) =>
      if c.Go? then
        Some(Goto(s.(store := Put(s.store, Finalised(snap, attempt, out, now)), lastRun := s.lastRun[job.id := p]),
                  p, Worker(job, Releasing)))
      else None
    case Releasing =>
      if c.Go? && s.sem > 0 then Some(Goto(s.(sem := s.sem - 1), p, Worker(job, Leaving))) else None
    case Leaving =>
      if c.Go? && s.wg > 0 then Some(Goto(s.(wg := s.wg - 1), p, Gone(WorkerExited))) else None
  }

  /** The state after a whole schedule, or None when some step of it is not possible. */
  function Exec(cfg: Config, s: State, acts: seq<Action>): Option<State>
    decreases |acts|
  {
    if acts == [] then Some(s)
    else match Next(cfg, s, acts[0])
      case None => None
      case Some(t) => Exec(cfg, t, acts[1..])
  }

  lemma {:induction false} ExecAppend(cfg: Config, s: State, xs: seq<Action>, ys: seq<Action>)
    ensures Exec(cfg, s, xs + ys) ==
            match Exec(cfg, s, xs) case None => None case Some(t) => Exec(cfg, t, ys)
    decreases |xs|
  {
    if xs == [] {
      assert xs + ys == ys;
    } else {
      assert (xs + ys)[1..] == xs[1..] + ys;
      match Next(cfg, s, xs[0])
      case None =>
      case Some(t) => ExecAppend(cfg, t, xs[1..], ys);
    }
  }

  // Roles: the sets of goroutines the properties count

  datatype Role =
    | SlotHolder
    | Waited
    | OwnerOf(id: string)
    | ReplayerOf(id: string)
    | MeteredDead
    | MeteredDone
    | SyncSuccess
    | SyncFailure
    | ReplayAccepted

  predicate Owning(x: Proc) {
    x.Spawning? || (x.Worker? && !x.at.Releasing? && !x.at.Leaving?)
  }

  predicate Plays(x: Proc, r: Role) {
    match r
    case SlotHolder => x.SyncRunning? || x.SyncRan? || x.SyncCounted? || (x.Worker? && !x.at.Queued? && !x.at.Leaving?)
    case Waited => x.Worker? || (x.Spawning? && x.counted)
    case OwnerOf(id) => Owning(x) && x.job.id == id
    case ReplayerOf(id) => (x.ReplayRead? || x.ReplayReady?) && x.snap.id == id
    case MeteredDead => x.Worker? && x.at.Metered? && x.at.out.Err?
    case MeteredDone => x.Worker? && x.at.Metered? && x.at.out.Ok?
    case SyncSuccess => (x.SyncCounted? || x.Gone?) && x.reply.Returned?
    case SyncFailure => (x.SyncCounted? || x.Gone?) && x.reply.RunnerFailed?
    case ReplayAccepted =>
      || (x.Spawning? && x.job.replayed)
      || (x.Gone? && x.reply.Accepted? && x.reply.replayed)
  }

  function Cast(procs: seq<Proc>, r: Role): set<nat> {
    set p: nat | p < |procs| && Plays(procs[p], r)
  }

  function WithStatus(store: map<string, Record>, st: Status): set<string> {
    set id | id in store && store[id].status == st
  }

  // Discipline: what callers are asked for

  /** A new record is created under an id that is not in use. */
  predicate FreshID(s: State, a: Action) {
    a.Act? && a.p < |s.procs| && s.procs[a.p].AsyncReady? && s.procs[a.p].req.AsyncCall? ==>
      s.procs[a.p].req.id !in s.store
  }

  /** A replay reads its record only while no other replay of it is between its read and its write. */
  predicate LoneReplay(s: State, a: Action) {
    a.Act? && a.p < |s.procs| && s.procs[a.p].Admitted? && s.procs[a.p].req.ReplayCall? ==>
      Cast(s.procs, ReplayerOf(s.procs[a.p].req.id)) == {}
  }

  /** What the function repository may answer for a key. */
  type Filing = (string, Function) -> bool

  /** A replay's lookup is answered with a function the repository has filed under the record's function id. */
  predicate AnsweredBy(filed: Filing, s: State, a: Action) {
    a.Act? && a.p < |s.procs| && s.procs[a.p].ReplayRead? && a.choice.Found? ==>
      filed(s.procs[a.p].snap.functionID, a.choice.fn)
  }

  predicate FreshRun(cfg: Config, filed: Filing, s: State, acts: seq<Action>)
    decreases |acts|
  {
    acts == [] ||
    (FreshID(s, acts[0]) && AnsweredBy(filed, s, acts[0]) &&
     match Next(cfg, s, acts[0])
     case None => false
     case Some(t) => FreshRun(cfg, filed, t, acts[1..]))
  }

  predicate DisciplinedRun(cfg: Config, s: State, acts: seq<Action>)
    decreases |acts|
  {
    acts == [] ||
    (FreshID(s, acts[0]) && LoneReplay(s, acts[0]) &&
     match Next(cfg, s, acts[0])
     case None => false
     case Some(t) => DisciplinedRun(cfg, t, acts[1..]))
  }
}
