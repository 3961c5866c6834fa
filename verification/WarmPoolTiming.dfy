/**
 The warm pool over time, seen through the stamps of its idle workers. Stamping and releasing a worker is one step, the
 clock is monotone, and a tick is handled when it is due.
 */
module WarmPoolTiming {

  /** Idle stamps per function, oldest first; the clock; and when the next tick is due. */
  datatype Pool = Pool(lists: map<string, seq<int>>, closed: bool, now: int, nextTick: int)

  /** `idle` and `max` are the normalised settings; the ticker fires every `idle / 2`. */
  datatype Limits = Limits(idle: int, max: nat)

  predicate Usable(l: Limits) {
    l.idle >= 2 && l.max >= 1
  }

  datatype Move = Take(fn: string) | Release(fn: string) | Wait(duration: nat) | Tick | Shut

  /** The stamps of the workers that have been idle for less than `idle` at time `now`. */
  function KeepFresh(stamps: seq<int>, now: int, idle: int): seq<int> {
    if stamps == [] then []
    else
      var rest := KeepFresh(stamps[..|stamps| - 1], now, idle);
      if now - stamps[|stamps| - 1] < idle then rest + [stamps[|stamps| - 1]] else rest
  }

  function ReapAll(lists: map<string, seq<int>>, now: int, idle: int): map<string, seq<int>> {
    map fn | fn in lists && KeepFresh(lists[fn], now, idle) != [] :: KeepFresh(lists[fn], now, idle)
  }

  // Reaping function by function, in any order

  function ReapOne(lists: map<string, seq<int>>, fn: string, now: int, idle: int): map<string, seq<int>>
    requires fn in lists
  {
    var kept := KeepFresh(lists[fn], now, idle);
    if kept == [] then lists - {fn} else lists[fn := kept]
  }

  /** A reap that has been through all functions but those in `left`. */
  ghost predicate ReapedOutside(before: map<string, seq<int>>, after: map<string, seq<int>>, left: set<string>,
                                now: int, idle: int)
  {
    && left <= before.Keys
    && (forall fn | fn in left :: fn in after && after[fn] == before[fn])
    && (forall fn | fn in after :: fn in before)
    && (forall fn | fn in before && fn !in left ::
          var kept := KeepFresh(before[fn], now, idle);
          if kept == [] then fn !in after else fn in after && after[fn] == kept)
  }

  lemma NothingReaped(lists: map<string, seq<int>>, now: int, idle: int)
    ensures ReapedOutside(lists, lists, lists.Keys, now, idle)
  {
  }

  lemma OneMoreReaped(before: map<string, seq<int>>, after: map<string, seq<int>>, left: set<string>, fn: string,
                      now: int, idle: int)
    requires ReapedOutside(before, after, left, now, idle) && fn in left
    ensures fn in after && ReapedOutside(before, ReapOne(after, fn, now, idle), left - {fn}, now, idle)
  {
    hide KeepFresh;
  }

  lemma AllReaped(before: map<string, seq<int>>, after: map<string, seq<int>>, now: int, idle: int)
    requires ReapedOutside(before, after, {}, now, idle)
    ensures after == ReapAll(before, now, idle)
  {
    hide KeepFresh;
  }

  function ListOf(lists: map<string, seq<int>>, fn: string): seq<int> {
    if fn in lists then lists[fn] else []
  }

  /** One move, or the same pool when the move is not possible now. */
  function Step(l: Limits, p: Pool, m: Move): Pool {
    match m
    case Take(fn) =>
      var list := ListOf(p.lists, fn);
      if p.closed || list == [] then p else p.(lists := p.lists[fn := list[..|list| - 1]])
    case Release(fn) =>
      var list := ListOf(p.lists, fn);
      if p.closed || |list| >= l.max then p else p.(lists := p.lists[fn := list + [p.now]])
    case Wait(duration) => if p.now + duration <= p.nextTick then p.(now := p.now + duration) else p
    case Tick =>
      if p.now == p.nextTick
      then p.(lists := ReapAll(p.lists, p.now, l.idle), nextTick := p.now + l.idle / 2)
      else p
    case Shut => if p.closed then p else p.(closed := true, lists := map[])
  }

  function Steps(l: Limits, p: Pool, ms: seq<Move>): Pool
    decreases |ms|
  {
    if ms == [] then p else Steps(l, Step(l, p, ms[0]), ms[1..])
  }

  function Start(l: Limits, now: int): Pool {
    Pool(map[], false, now, now + l.idle / 2)
  }

  predicate Sorted(stamps: seq<int>) {
    forall i, j | 0 <= i < j < |stamps| :: stamps[i] <= stamps[j]
  }

  /** The invariant of the timed pool; `reaped` bounds how old anything pooled before the last reap can be. */
  ghost predicate Kept(l: Limits, p: Pool) {
    && p.now <= p.nextTick <= p.now + l.idle / 2
    && (p.closed ==> p.lists == map[])
    && forall fn | fn in p.lists ::
         && |p.lists[fn]| <= l.max
         && Sorted(p.lists[fn])
         && forall i | 0 <= i < |p.lists[fn]| :: p.nextTick - l.idle / 2 - l.idle < p.lists[fn][i] <= p.now
  }

  /** Which stamps survive a reap: exactly the fresh ones, in their order. */
  lemma {:induction false} KeepFreshKeeps(stamps: seq<int>, now: int, idle: int)
    ensures |KeepFresh(stamps, now, idle)| <= |stamps|
    ensures forall i | 0 <= i < |KeepFresh(stamps, now, idle)| ::
              KeepFresh(stamps, now, idle)[i] in stamps && now - KeepFresh(stamps, now, idle)[i] < idle
    ensures forall x <- stamps :: now - x < idle ==> x in KeepFresh(stamps, now, idle)
  {
    if stamps != [] { KeepFreshKeeps(stamps[..|stamps| - 1], now, idle); }
  }

  lemma KeepFreshLast(stamps: seq<int>, now: int, idle: int)
    requires stamps != []
    ensures var n := |stamps| - 1;
            KeepFresh(stamps, now, idle) ==
            KeepFresh(stamps[..n], now, idle) + (if now - stamps[n] < idle then [stamps[n]] else [])
  {
  }

  /** Where the fresh ones of a sorted list begin. */
  predicate FreshFrom(stamps: seq<int>, k: nat, now: int, idle: int) {
    && k <= |stamps|
    && (forall i | 0 <= i < k :: now - stamps[i] >= idle)
    && (forall i | k <= i < |stamps| :: now - stamps[i] < idle)
  }

  /** On a list that is sorted by last use, a reap keeps exactly a suffix. */
  lemma {:induction false} ReapKeepsSuffix(stamps: seq<int>, now: int, idle: int) returns (k: nat)
    requires Sorted(stamps)
    ensures FreshFrom(stamps, k, now, idle) && KeepFresh(stamps, now, idle) == stamps[k..]
  {
    if stamps == [] {
      k := 0;
    } else {
      var n := |stamps| - 1;
      KeepFreshLast(stamps, now, idle);
      k := ReapKeepsSuffix(stamps[..n], now, idle);
      hide KeepFresh, Sorted;
      if now - stamps[n] < idle {
        LastIsFresh(stamps, k, now, idle);
      } else {
        LastIsOld(stamps, k, now, idle);
        k := n + 1;
      }
    }
  }

  lemma LastIsFresh(stamps: seq<int>, k: nat, now: int, idle: int)
    requires stamps != [] && FreshFrom(stamps[..|stamps| - 1], k, now, idle) && now - stamps[|stamps| - 1] < idle
    ensures FreshFrom(stamps, k, now, idle)
    ensures stamps[..|stamps| - 1][k..] + [stamps[|stamps| - 1]] == stamps[k..]
  {
    var n := |stamps| - 1;
    forall i | 0 <= i < n ensures stamps[i] == stamps[..n][i] {
    }
  }

  lemma LastIsOld(stamps: seq<int>, k: nat, now: int, idle: int)
    requires Sorted(stamps) && stamps != []
    requires FreshFrom(stamps[..|stamps| - 1], k, now, idle) && now - stamps[|stamps| - 1] >= idle
    ensures k == |stamps| - 1 && FreshFrom(stamps, |stamps|, now, idle)
    ensures stamps[..|stamps| - 1][k..] + [] == stamps[|stamps|..]
  {
    var n := |stamps| - 1;
    forall i | 0 <= i < n ensures now - stamps[..n][i] >= idle && now - stamps[i] >= idle {
      assert stamps[i] <= stamps[n];
    }
    assert n > 0 ==> now - stamps[..n][n - 1] >= idle;
  }

  lemma StartKept(l: Limits, now: int)
    requires Usable(l)
    ensures Kept(l, Start(l, now))
  {
  }

  lemma TickKept(l: Limits, p: Pool)
    requires Usable(l) && Kept(l, p) && p.now == p.nextTick
    ensures Kept(l, Step(l, p, Tick))
    ensures forall fn | fn in Step(l, p, Tick).lists ::
              forall i | 0 <= i < |Step(l, p, Tick).lists[fn]| :: p.now - Step(l, p, Tick).lists[fn][i] < l.idle
  {
    var q := Step(l, p, Tick);
    forall fn | fn in q.lists
      ensures |q.lists[fn]| <= l.max && Sorted(q.lists[fn])
      ensures forall i | 0 <= i < |q.lists[fn]| :: p.now - l.idle < q.lists[fn][i] <= p.now
    {
      var list := p.lists[fn];
      var k := ReapKeepsSuffix(list, p.now, l.idle);
      assert q.lists[fn] == list[k..];
    }
  }

  lemma MoveKept(l: Limits, p: Pool, m: Move)
    requires Usable(l) && Kept(l, p)
    ensures Kept(l, Step(l, p, m))
  {
    if m.Tick? {
      if p.now == p.nextTick { TickKept(l, p); }
    }
  }

  lemma {:induction false} RunKept(l: Limits, p: Pool, ms: seq<Move>)
    requires Usable(l) && Kept(l, p)
    ensures Kept(l, Steps(l, p, ms)) && (p.closed ==> Steps(l, p, ms).closed)
    decreases |ms|
  {
    if ms != [] {
      MoveKept(l, p, ms[0]);
      RunKept(l, Step(l, p, ms[0]), ms[1..]);
    }
  }

  lemma {:induction false} StepsAppend(l: Limits, p: Pool, xs: seq<Move>, ys: seq<Move>)
    ensures Steps(l, p, xs + ys) == Steps(l, Steps(l, p, xs), ys)
    decreases |xs|
  {
    if xs == [] {
      assert xs + ys == ys;
    } else {
      assert (xs + ys)[1..] == xs[1..] + ys;
      StepsAppend(l, Step(l, p, xs[0]), xs[1..], ys);
    }
  }

  lemma OneStep(l: Limits, p: Pool, m: Move)
    ensures Steps(l, p, [m]) == Step(l, p, m) && Steps(l, p, []) == p
  {
    assert [m][1..] == [];
  }

  /** The state of a pool started at time `start`, after some moves. */
  function After(l: Limits, start: int, ms: seq<Move>): Pool {
    Steps(l, Start(l, start), ms)
  }

  /**
   The idle bound. At any time in the life of a pool, a pooled worker has been idle for less than idle + idle / 2; each
   list is sorted and within its bound, so the one taken next, the last, is the most recently used; and a closed pool
   is empty and stays so.
   */
  lemma IdleBound(l: Limits, start: int, ms: seq<Move>, more: seq<Move>)
    requires Usable(l)
    ensures var p := After(l, start, ms);
            forall fn | fn in p.lists ::
              && |p.lists[fn]| <= l.max
              && Sorted(p.lists[fn])
              && (forall i | 0 <= i < |p.lists[fn]| :: p.lists[fn][i] <= p.now < p.lists[fn][i] + l.idle + l.idle / 2)
    ensures After(l, start, ms).closed ==> After(l, start, ms + more).closed && After(l, start, ms + more).lists == map[]
  {
    StartKept(l, start);
    RunKept(l, Start(l, start), ms);
    RunKept(l, After(l, start, ms), more);
    StepsAppend(l, Start(l, start), ms, more);
  }

  /**
   Right after a reap every pooled worker has been idle for less than the timeout, and the next one is due half a
   timeout later.
   */
  lemma FreshAfterTick(l: Limits, start: int, ms: seq<Move>)
    requires Usable(l) && After(l, start, ms).now == After(l, start, ms).nextTick
    ensures var p := After(l, start, ms + [Tick]);
            && p.nextTick == p.now + l.idle / 2
            && forall fn | fn in p.lists :: forall i | 0 <= i < |p.lists[fn]| :: p.now - p.lists[fn][i] < l.idle
    ensures Start(l, start).nextTick == start + l.idle / 2
  {
    StartKept(l, start);
    RunKept(l, Start(l, start), ms);
    TickKept(l, After(l, start, ms));
    StepsAppend(l, Start(l, start), ms, [Tick]);
    OneStep(l, After(l, start, ms), Tick);
  }

  lemma OneMoreStep(l: Limits, start: int, ms: seq<Move>, m: Move)
    ensures After(l, start, ms + [m]) == Step(l, After(l, start, ms), m)
  {
    StepsAppend(l, Start(l, start), ms, [m]);
    OneStep(l, After(l, start, ms), m);
  }

  /** The bound cannot be improved: a worker pooled right after the right tick reaches it. */
  lemma BoundIsAttained(l: Limits, start: int, fn: string) returns (ms: seq<Move>)
    requires Usable(l)
    ensures var p := After(l, start, ms);
            fn in p.lists && p.lists[fn] != [] && p.now - p.lists[fn][0] == l.idle + l.idle / 2 - 1
  {
    var h, d := l.idle / 2, 1 - l.idle % 2;
    var stamp := start + d;
    OneStep(l, Start(l, start), Tick);
    ms := [];
    OneMoreStep(l, start, ms, Wait(d));
    ms := ms + [Wait(d)];
    assert After(l, start, ms) == Pool(map[], false, stamp, start + h);
    OneMoreStep(l, start, ms, Release(fn));
    ms := ms + [Release(fn)];
    assert ListOf(map[], fn) + [stamp] == [stamp];
    assert After(l, start, ms) == Pool(map[fn := [stamp]], false, stamp, start + h);
    ms := NextTick(l, start, ms, fn, stamp, h - d);
    ms := NextTick(l, start, ms, fn, stamp, h);
    OneMoreStep(l, start, ms, Wait(h));
    ms := ms + [Wait(h)];
  }

  /** One worker, still fresh, sees another tick come and go. */
  lemma NextTick(l: Limits, start: int, ms0: seq<Move>, fn: string, stamp: int, d: nat) returns (ms: seq<Move>)
    requires Usable(l)
    requires var p := After(l, start, ms0);
             p.lists == map[fn := [stamp]] && !p.closed && p.nextTick == p.now + d && p.now + d - stamp < l.idle
    ensures After(l, start, ms) ==
            After(l, start, ms0).(now := After(l, start, ms0).now + d, nextTick := After(l, start, ms0).now + d + l.idle / 2)
  {
    var p := After(l, start, ms0);
    OneMoreStep(l, start, ms0, Wait(d));
    OneMoreStep(l, start, ms0 + [Wait(d)], Tick);
    ms := ms0 + [Wait(d)] + [Tick];
    assert KeepFresh([stamp], p.now + d, l.idle) == [stamp] by { assert [stamp][..0] == []; }
    assert ReapAll(p.lists, p.now + d, l.idle) == p.lists;
  }

  // An untouched pool

  predicate Untouched(ms: seq<Move>) {
    forall m <- ms :: m.Wait? || m.Tick?
  }

  /** Nothing in the pool was used after time `since`. */
  ghost predicate Quiet(p: Pool, since: int) {
    forall fn | fn in p.lists :: forall i | 0 <= i < |p.lists[fn]| :: p.lists[fn][i] <= since
  }

  lemma QuietTick(l: Limits, p: Pool, since: int)
    requires Usable(l) && Quiet(p, since) && p.now == p.nextTick
    ensures Quiet(Step(l, p, Tick), since)
    ensures p.now >= since + l.idle ==> Step(l, p, Tick).lists == map[]
  {
    var q := Step(l, p, Tick);
    forall fn | fn in q.lists
      ensures p.now < since + l.idle && forall i | 0 <= i < |q.lists[fn]| :: q.lists[fn][i] <= since
    {
      KeepFreshKeeps(p.lists[fn], p.now, l.idle);
      assert q.lists[fn] == KeepFresh(p.lists[fn], p.now, l.idle);
      assert q.lists[fn][0] in p.lists[fn];
    }
  }

  /** The state of an untouched pool: once a tick has come `idle` after the last use, nothing is left. */
  ghost predicate Fading(l: Limits, p: Pool, since: int) {
    Quiet(p, since) && (p.nextTick - l.idle / 2 >= since + l.idle ==> p.lists == map[])
  }

  lemma {:induction false} FadingKept(l: Limits, p: Pool, ms: seq<Move>, since: int)
    requires Usable(l) && Kept(l, p) && Fading(l, p, since) && Untouched(ms)
    ensures Kept(l, Steps(l, p, ms)) && Fading(l, Steps(l, p, ms), since)
    decreases |ms|
  {
    if ms != [] {
      MoveKept(l, p, ms[0]);
      assert ms[0] in ms;
      if ms[0].Tick? && p.now == p.nextTick { QuietTick(l, p, since); }
      FadingKept(l, Step(l, p, ms[0]), ms[1..], since);
    }
  }

  /** Scale to zero: a pool nobody touches is empty once idle + idle / 2 has passed. */
  lemma UntouchedPoolEmpties(l: Limits, start: int, ms: seq<Move>, more: seq<Move>)
    requires Usable(l) && Untouched(more)
    ensures After(l, start, ms + more).now >= After(l, start, ms).now + l.idle + l.idle / 2 ==>
              After(l, start, ms + more).lists == map[]
  {
    StartKept(l, start);
    RunKept(l, Start(l, start), ms);
    FadingKept(l, After(l, start, ms), more, After(l, start, ms).now);
    StepsAppend(l, Start(l, start), ms, more);
  }
}
