/** How one step changes the number of goroutines in a role and of records in a status. */
module EngineCounting {
  import opened Domain
  import opened Engine

  function One(b: bool): nat {
    if b then 1 else 0
  }

  lemma SwapSize<T>(before: set<T>, after: set<T>, x: T)
    requires before - {x} == after - {x}
    ensures |after| + One(x in before) == |before| + One(x in after)
  {
    assert |before| == |before - {x}| + One(x in before);
    assert |after| == |after - {x}| + One(x in after);
  }

  lemma CastUpdate(procs: seq<Proc>, p: nat, x: Proc, r: Role)
    requires p < |procs|
    ensures |Cast(procs[p := x], r)| + One(Plays(procs[p], r)) == |Cast(procs, r)| + One(Plays(x, r))
  {
    hide Plays;
    var before, after := Cast(procs, r), Cast(procs[p := x], r);
    forall q ensures q in before - {p} <==> q in after - {p} {
    }
    SwapSize(before, after, p);
  }

  lemma CastAppend(procs: seq<Proc>, x: Proc, r: Role)
    ensures |Cast(procs + [x], r)| == |Cast(procs, r)| + One(Plays(x, r))
  {
    hide Plays;
    var before, after := Cast(procs, r), Cast(procs + [x], r);
    assert after == before + (if Plays(x, r) then {|procs|} else {});
  }

  /** The step that starts a worker. */
  predicate Spawns(x: Proc) {
    x.Spawning? && x.counted
  }

  lemma CallShape(cfg: Config, s: State, p: nat, c: Choice, t: State)
    requires p < |s.procs| && CallNext(cfg, s, p, c) == Some(t)
    ensures !Spawns(s.procs[p]) ==> |t.procs| == |s.procs| && t.procs == s.procs[p := t.procs[p]]
    ensures Spawns(s.procs[p]) ==>
              var x := s.procs[p];
              t == s.(procs := s.procs[p := Gone(Accepted(x.inv, x.job.replayed))] + [Worker(x.job, Queued)])
  {
  }

  lemma WorkerShape(cfg: Config, s: State, p: nat, job: Job, at: Stage, c: Choice, t: State)
    requires p < |s.procs| && WorkerNext(cfg, s, p, job, at, c) == Some(t)
    ensures |t.procs| == |s.procs| && t.procs == s.procs[p := t.procs[p]]
  {
  }

  /** The goroutine table changes in one entry, and at most one goroutine is added at the end. */
  lemma NextShape(cfg: Config, s: State, a: Action, t: State)
    requires Next(cfg, s, a) == Some(t)
    ensures a.Arrive? ==> t == s.(procs := s.procs + [Arrived(a.req)])
    ensures a.Act? ==> a.p < |s.procs| <= |t.procs|
    ensures a.Act? && !Spawns(s.procs[a.p]) ==> t.procs == s.procs[a.p := t.procs[a.p]]
    ensures a.Act? && Spawns(s.procs[a.p]) ==>
              var x := s.procs[a.p];
              t == s.(procs := s.procs[a.p := Gone(Accepted(x.inv, x.job.replayed))] + [Worker(x.job, Queued)])
  {
    match a
    case Arrive(_) =>
    case Act(p, c) =>
      match s.procs[p]
      case Worker(job, at) => WorkerShape(cfg, s, p, job, at, c, t);
      case Admitted(_) =>
      case _ => CallShape(cfg, s, p, c, t);
  }

  lemma RoleDelta(cfg: Config, s: State, a: Action, t: State, r: Role)
    requires Next(cfg, s, a) == Some(t)
    ensures a.Arrive? ==> |Cast(t.procs, r)| == |Cast(s.procs, r)|
    ensures a.Act? ==> a.p < |s.procs| <= |t.procs|
    ensures a.Act? ==>
              |Cast(t.procs, r)| + One(Plays(s.procs[a.p], r)) ==
              |Cast(s.procs, r)| + One(Plays(t.procs[a.p], r)) +
              One(Spawns(s.procs[a.p]) && Plays(Worker(s.procs[a.p].job, Queued), r))
  {
    NextShape(cfg, s, a, t);
    match a
    case Arrive(req) => CastAppend(s.procs, Arrived(req), r);
    case Act(p, _) =>
      var x := t.procs[p];
      CastUpdate(s.procs, p, x, r);
      if Spawns(s.procs[p]) {
        CastAppend(s.procs[p := x], Worker(s.procs[p].job, Queued), r);
      }
  }

  lemma StatusUpdate(store: map<string, Record>, id: string, v: Record, st: Status)
    ensures |WithStatus(store[id := v], st)| + One(id in store && store[id].status == st) ==
            |WithStatus(store, st)| + One(v.status == st)
  {
    var before, after := WithStatus(store, st), WithStatus(store[id := v], st);
    forall k ensures k in before - {id} <==> k in after - {id} {
    }
    SwapSize(before, after, id);
  }

  lemma AtMostOne(procs: seq<Proc>, r: Role, p: nat, q: nat)
    requires |Cast(procs, r)| <= 1 && p < |procs| && q < |procs|
    requires Plays(procs[p], r) && Plays(procs[q], r)
    ensures p == q
  {
    assert {p, q} <= Cast(procs, r);
    SubsetSize({p, q}, Cast(procs, r));
  }

  lemma SubsetSize<T>(x: set<T>, y: set<T>)
    requires x <= y
    ensures |x| <= |y|
  {
    assert y == x + (y - x);
  }

  lemma AtLeastOne(procs: seq<Proc>, r: Role, p: nat)
    requires p < |procs| && Plays(procs[p], r)
    ensures |Cast(procs, r)| >= 1
  {
    assert p in Cast(procs, r);
  }

  // What one worker's run looks like in the log

  /** Runner calls made, calls that failed, time asleep, and the last failure's message. */
  datatype Trail = Trail(calls: nat, fails: nat, slept: int, lastErr: string)

  function Mark(t: Trail, e: Event): Trail {
    match e
    case Called(_, _, Ok(_)) => t.(calls := t.calls + 1)
    case Called(_, _, Err(m)) => t.(calls := t.calls + 1, fails := t.fails + 1, lastErr := m)
    case Slept(_, d) => t.(slept := t.slept + d)
  }

  const NO_TRAIL := Trail(0, 0, 0, "")

  function TrailOf(log: seq<Event>, p: nat): Trail {
    if log == [] then NO_TRAIL
    else
      var t := TrailOf(log[..|log| - 1], p);
      var e := log[|log| - 1];
      if e.p == p then Mark(t, e) else t
  }

  lemma TrailAppend(log: seq<Event>, e: Event, p: nat)
    ensures TrailOf(log + [e], p) == if e.p == p then Mark(TrailOf(log, p), e) else TrailOf(log, p)
  {
    assert (log + [e])[..|log|] == log;
  }

  /** The places in the log of a goroutine's runner calls, and of those that failed. */
  function CallsIn(log: seq<Event>, p: nat): set<nat> {
    set i: nat | i < |log| && log[i].Called? && log[i].p == p
  }

  function FailuresIn(log: seq<Event>, p: nat): set<nat> {
    set i: nat | i < |log| && log[i].Called? && log[i].p == p && log[i].out.Err?
  }

  lemma OneMoreCall(log: seq<Event>, e: Event, p: nat)
    ensures |CallsIn(log + [e], p)| == |CallsIn(log, p)| + One(e.Called? && e.p == p)
  {
    var more := if e.Called? && e.p == p then {|log|} else {};
    assert CallsIn(log + [e], p) == CallsIn(log, p) + more;
  }

  lemma OneMoreFailure(log: seq<Event>, e: Event, p: nat)
    ensures |FailuresIn(log + [e], p)| == |FailuresIn(log, p)| + One(e.Called? && e.p == p && e.out.Err?)
  {
    var more := if e.Called? && e.p == p && e.out.Err? then {|log|} else {};
    assert FailuresIn(log + [e], p) == FailuresIn(log, p) + more;
  }

  /** A goroutine's trail counts its own calls in the log and those that failed. */
  lemma {:induction false} TrailCounts(log: seq<Event>, p: nat)
    ensures TrailOf(log, p).calls == |CallsIn(log, p)|
    ensures TrailOf(log, p).fails == |FailuresIn(log, p)|
    decreases |log|
  {
    hide CallsIn, FailuresIn;
    if log == [] {
      NoCalls(p);
    } else {
      var rest, e := log[..|log| - 1], log[|log| - 1];
      assert log == rest + [e];
      TrailCounts(rest, p);
      OneMoreCall(rest, e, p);
      OneMoreFailure(rest, e, p);
    }
  }

  lemma NoCalls(p: nat)
    ensures CallsIn([], p) == {} && FailuresIn([], p) == {}
  {
  }

  /** It keeps the message of the last of them. */
  lemma {:induction false} TrailKeepsLastError(log: seq<Event>, p: nat, i: nat)
    requires i in FailuresIn(log, p) && forall j <- FailuresIn(log, p) :: j <= i
    ensures TrailOf(log, p).lastErr == log[i].out.message
    decreases |log|
  {
    var n := |log| - 1;
    if i < n {
      assert n !in FailuresIn(log, p);
      forall j <- FailuresIn(log[..n], p) ensures j <= i { assert j in FailuresIn(log, p); }
      TrailKeepsLastError(log[..n], p, i);
    }
  }

  /** The time a goroutine slept is the sum over its naps in the log. */
  lemma TrailSleeps(log: seq<Event>, e: Event, p: nat)
    ensures TrailOf(log + [e], p).slept == TrailOf(log, p).slept + (if e.Slept? && e.p == p then e.duration else 0)
  {
    TrailAppend(log, e, p);
  }

  lemma {:induction false} TrailOfStranger(log: seq<Event>, p: nat)
    requires forall e <- log :: e.p != p
    ensures TrailOf(log, p) == NO_TRAIL
  {
    if log != [] { TrailOfStranger(log[..|log| - 1], p); }
  }
}
