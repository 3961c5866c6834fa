/**
 The warm pool: workers are objects handed from the pool to one call at a time and back. Each method is one section of
 the source under the mutex, or the one write outside it, so an interleaving of calls, reaps and closes is a sequence
 of these methods.
 */
module WarmPool {
  import T = WarmPoolTiming

  class WarmWorker {
    const fnID: string
    var lastUsed: int

    constructor (fnID: string)
      ensures this.fnID == fnID && lastUsed == 0
    {
      this.fnID, lastUsed := fnID, 0;
    }
  }

  /** Where a worker is: idle in its function's list, with one call, or gone. */
  datatype Place = InPool | Leased(call: nat) | Retired

  type Lists = map<string, seq<WarmWorker>>

  function ListOf(workers: Lists, fn: string): seq<WarmWorker> {
    if fn in workers then workers[fn] else []
  }

  /** The number of idle workers over all functions. */
  ghost function Total(workers: Lists): nat
    decreases |workers|
  {
    if workers == map[] then 0
    else var fn :| fn in workers; |workers[fn]| + Total(workers - {fn})
  }

  lemma {:induction false} TotalSplit(workers: Lists, fn: string)
    requires fn in workers
    ensures Total(workers) == |workers[fn]| + Total(workers - {fn})
    decreases |workers|
  {
    var first :| first in workers && Total(workers) == |workers[first]| + Total(workers - {first});
    if first != fn {
      TotalSplit(workers - {first}, fn);
      TotalSplit(workers - {fn}, first);
      assert workers - {first} - {fn} == workers - {fn} - {first};
    }
  }

  lemma TotalUpdate(workers: Lists, fn: string, list: seq<WarmWorker>)
    ensures Total(workers[fn := list]) + |ListOf(workers, fn)| == Total(workers) + |list|
  {
    TotalSplit(workers[fn := list], fn);
    if fn in workers {
      TotalSplit(workers, fn);
      assert workers[fn := list] - {fn} == workers - {fn};
    } else {
      assert workers[fn := list] - {fn} == workers;
    }
  }

  predicate NoDup<T(==)>(s: seq<T>) {
    forall i, j | 0 <= i < j < |s| :: s[i] != s[j]
  }

  /** A call between its two locked sections: the function it invokes and the worker it has. */
  datatype Lease = Lease(fn: string, worker: WarmWorker)

  type Places = map<WarmWorker, Place>

  /** The lists hold exactly the workers placed in the pool, each once and under its own function. */
  ghost predicate PoolPlaced(workers: Lists, place: Places) {
    && (forall fn | fn in workers :: NoDup(workers[fn]))
    && (forall fn, w | fn in workers && w in workers[fn] :: w in place && place[w] == InPool && w.fnID == fn)
    && (forall w | w in place && place[w] == InPool :: w in ListOf(workers, w.fnID))
  }

  /**
   Each call with a lease has the worker placed with it, tagged with the call's function, and each worker placed with a
   call is its lease.
   */
  ghost predicate LeasesPlaced(leases: map<nat, Lease>, place: Places) {
    && (forall c | c in leases :: leases[c].worker in place && place[leases[c].worker] == Leased(c) &&
                                  leases[c].worker.fnID == leases[c].fn)
    && (forall w | w in place && place[w].Leased? :: place[w].call in leases && leases[place[w].call].worker == w)
  }

  ghost predicate RetiredPlaced(retired: set<WarmWorker>, place: Places) {
    && (forall w | w in retired :: w in place && place[w] == Retired)
    && (forall w | w in place && place[w] == Retired :: w in retired)
  }

  /** Each worker ever allocated is in exactly one place: one slot of its function's list, one call, or gone. */
  ghost predicate Placed(workers: Lists, leases: map<nat, Lease>, retired: set<WarmWorker>, place: Places) {
    PoolPlaced(workers, place) && LeasesPlaced(leases, place) && RetiredPlaced(retired, place)
  }

  lemma PopPlaced(workers: Lists, place: Places, fn: string, w: WarmWorker, p: Place)
    requires PoolPlaced(workers, place) && fn in workers && |workers[fn]| > 0 && w == workers[fn][|workers[fn]| - 1]
    requires p != InPool
    ensures w in place && place[w] == InPool && w.fnID == fn
    ensures PoolPlaced(workers[fn := workers[fn][..|workers[fn]| - 1]], place[w := p])
  {
    var list := workers[fn];
    assert w in list;
    assert list == list[..|list| - 1] + [w];
    assert w !in list[..|list| - 1];
  }

  lemma PushPlaced(workers: Lists, place: Places, w: WarmWorker)
    requires PoolPlaced(workers, place) && w in place && place[w] != InPool
    ensures PoolPlaced(workers[w.fnID := ListOf(workers, w.fnID) + [w]], place[w := InPool])
  {
    var list := ListOf(workers, w.fnID);
    assert w !in list;
  }

  /** A worker that is not, and does not become, pooled does not concern the lists. */
  lemma ElsewherePlaced(workers: Lists, place: Places, w: WarmWorker, p: Place)
    requires PoolPlaced(workers, place) && (w in place ==> place[w] != InPool) && p != InPool
    ensures PoolPlaced(workers, place[w := p])
  {
    forall fn | fn in workers ensures w !in workers[fn] {
    }
  }

  lemma LeasePlaced(leases: map<nat, Lease>, place: Places, w: WarmWorker, call: nat, fn: string)
    requires LeasesPlaced(leases, place) && call !in leases && (w in place ==> !place[w].Leased?) && w.fnID == fn
    ensures LeasesPlaced(leases[call := Lease(fn, w)], place[w := Leased(call)])
  {
  }

  lemma UnleasePlaced(leases: map<nat, Lease>, place: Places, call: nat, p: Place)
    requires LeasesPlaced(leases, place) && call in leases && !p.Leased?
    ensures leases[call].worker in place && place[leases[call].worker] == Leased(call)
    ensures leases[call].worker.fnID == leases[call].fn
    ensures LeasesPlaced(leases - {call}, place[leases[call].worker := p]) && |leases - {call}| == |leases| - 1
  {
    assert (leases - {call}).Keys == leases.Keys - {call};
    assert |(leases - {call}).Keys| == |leases.Keys| - 1;
  }

  lemma RetirePlaced(retired: set<WarmWorker>, place: Places, w: WarmWorker)
    requires RetiredPlaced(retired, place) && w in place && place[w] != Retired
    ensures RetiredPlaced(retired + {w}, place[w := Retired]) && w !in retired
  {
  }

  lemma StillPlaced(retired: set<WarmWorker>, place: Places, w: WarmWorker, p: Place)
    requires RetiredPlaced(retired, place) && (w in place ==> place[w] != Retired) && p != Retired
    ensures RetiredPlaced(retired, place[w := p])
  {
  }

  lemma SamePlaces(place: Places, w: WarmWorker, p: Place)
    ensures |place[w := p]| == |place| + (if w in place then 0 else 1)
  {
    assert place[w := p].Keys == place.Keys + {w};
    assert |place[w := p].Keys| == |place.Keys| + (if w in place then 0 else 1);
  }

  // The pool's books: every field of the manager, and the ghost record of where each worker is

  datatype Books = Books(
    workers: Lists,
    closed: bool,
    coldStarts: nat,
    warmStarts: nat,
    leases: map<nat, Lease>,        // calls between their two locked sections
    closing: nat,                   // Close calls that have set the flag but not yet closed the channel
    stops: nat,                     // how often the stop channel has been closed
    place: Places,
    retired: set<WarmWorker>,
    admitted: nat)

  ghost predicate Bounded(workers: Lists, max: nat) {
    forall fn | fn in workers :: |workers[fn]| <= max
  }

  /** What holds in every state of the pool. */
  ghost predicate Sound(max: nat, b: Books) {
    && max >= 1
    && Placed(b.workers, b.leases, b.retired, b.place)
    && Bounded(b.workers, max)
    && b.coldStarts == |b.place| == Total(b.workers) + |b.leases| + |b.retired|
    && b.coldStarts + b.warmStarts == b.admitted
    && (b.closed ==> b.workers == map[])
    && b.closing + b.stops == (if b.closed then 1 else 0)
  }

  /** A warm start: the last of the list goes to the call. */
  function Taken(b: Books, call: nat, fn: string): Books
    requires |ListOf(b.workers, fn)| > 0
  {
    var list := b.workers[fn];
    var w := list[|list| - 1];
    b.(workers := b.workers[fn := list[..|list| - 1]], leases := b.leases[call := Lease(fn, w)], warmStarts := b.warmStarts + 1,
       place := b.place[w := Leased(call)], admitted := b.admitted + 1)
  }

  lemma TakenSound(max: nat, b: Books, call: nat, fn: string)
    requires Sound(max, b) && !b.closed && call !in b.leases && |ListOf(b.workers, fn)| > 0
    ensures Sound(max, Taken(b, call, fn))
  {
    hide PoolPlaced, LeasesPlaced, RetiredPlaced;
    var list := b.workers[fn];
    var w := list[|list| - 1];
    TotalUpdate(b.workers, fn, list[..|list| - 1]);
    PopPlaced(b.workers, b.place, fn, w, Leased(call));
    LeasePlaced(b.leases, b.place, w, call, fn);
    StillPlaced(b.retired, b.place, w, Leased(call));
    SamePlaces(b.place, w, Leased(call));
  }

  /** A cold start: a new worker, placed with the call. */
  function Started(b: Books, call: nat, fn: string, w: WarmWorker): Books {
    b.(leases := b.leases[call := Lease(fn, w)], coldStarts := b.coldStarts + 1, place := b.place[w := Leased(call)],
       admitted := b.admitted + 1)
  }

  lemma StartedSound(max: nat, b: Books, call: nat, fn: string, w: WarmWorker)
    requires Sound(max, b) && call !in b.leases && w !in b.place && w.fnID == fn
    ensures Sound(max, Started(b, call, fn, w))
  {
    hide PoolPlaced, LeasesPlaced, RetiredPlaced;
    ElsewherePlaced(b.workers, b.place, w, Leased(call));
    LeasePlaced(b.leases, b.place, w, call, fn);
    StillPlaced(b.retired, b.place, w, Leased(call));
    SamePlaces(b.place, w, Leased(call));
  }

  function Dropped(b: Books, call: nat): Books
    requires call in b.leases
  {
    var w := b.leases[call].worker;
    b.(leases := b.leases - {call}, place := b.place[w := Retired], retired := b.retired + {w})
  }

  lemma DroppedSound(max: nat, b: Books, call: nat)
    requires Sound(max, b) && call in b.leases
    ensures Sound(max, Dropped(b, call))
  {
    hide PoolPlaced, LeasesPlaced, RetiredPlaced;
    var w := b.leases[call].worker;
    UnleasePlaced(b.leases, b.place, call, Retired);
    ElsewherePlaced(b.workers, b.place, w, Retired);
    RetirePlaced(b.retired, b.place, w);
    SamePlaces(b.place, w, Retired);
  }

  function GivenBack(b: Books, call: nat): Books
    requires call in b.leases
  {
    var Lease(fn, w) := b.leases[call];
    b.(workers := b.workers[fn := ListOf(b.workers, fn) + [w]], leases := b.leases - {call},
       place := b.place[w := InPool])
  }

  lemma GivenBackSound(max: nat, b: Books, call: nat)
    requires Sound(max, b) && !b.closed && call in b.leases && |ListOf(b.workers, b.leases[call].fn)| < max
    ensures Sound(max, GivenBack(b, call))
  {
    hide PoolPlaced, LeasesPlaced, RetiredPlaced;
    var w := b.leases[call].worker;
    UnleasePlaced(b.leases, b.place, call, InPool);
    PushPlaced(b.workers, b.place, w);
    StillPlaced(b.retired, b.place, w, InPool);
    SamePlaces(b.place, w, InPool);
    TotalUpdate(b.workers, w.fnID, ListOf(b.workers, w.fnID) + [w]);
  }

  // Reaping and closing take workers out of the lists for good

  /** What is left of the lists: sublists of them. */
  ghost predicate Thinned(before: Lists, after: Lists) {
    forall fn | fn in after :: fn in before && NoDup(after[fn]) && (forall w | w in after[fn] :: w in before[fn]) &&
                               |after[fn]| <= |before[fn]|
  }

  ghost function Members(workers: Lists): set<WarmWorker> {
    set fn, w | fn in workers && w in workers[fn] :: w
  }

  /** The books after the workers that are no longer in the lists have been let go. */
  ghost function LetGo(b: Books, after: Lists): Books {
    var gone := Members(b.workers) - Members(after);
    b.(workers := after, retired := b.retired + gone,
       place := map w | w in b.place :: if w in gone then Retired else b.place[w])
  }

  lemma {:induction false} TotalIsMembers(workers: Lists)
    requires forall fn | fn in workers :: NoDup(workers[fn])
    requires forall fn, w | fn in workers && w in workers[fn] :: w.fnID == fn
    ensures Total(workers) == |Members(workers)|
    decreases |workers|
  {
    if workers == map[] {
      assert Members(workers) == {};
    } else {
      var fn :| fn in workers && Total(workers) == |workers[fn]| + Total(workers - {fn});
      TotalIsMembers(workers - {fn});
      var own := set w | w in workers[fn];
      DistinctSize(workers[fn], own);
      forall g, w | g in workers && w in workers[g] ensures w in own + Members(workers - {fn}) {
        if g != fn { assert g in workers - {fn} && w in (workers - {fn})[g]; }
      }
      forall g, w | g in workers - {fn} && w in (workers - {fn})[g] ensures w in Members(workers) {
        assert g in workers && w in workers[g];
      }
      assert Members(workers) == own + Members(workers - {fn});
      forall w | w in Members(workers - {fn}) ensures w !in own {
        var g :| g in workers - {fn} && w in (workers - {fn})[g];
        assert w in workers[g] && w.fnID == g != fn;
      }
    }
  }

  lemma {:induction false} DistinctSize<V>(s: seq<V>, elements: set<V>)
    requires NoDup(s) && elements == set x | x in s
    ensures |elements| == |s|
    decreases |s|
  {
    if s == [] {
      assert elements == {};
    } else {
      var n := |s| - 1;
      assert s == s[..n] + [s[n]];
      assert s[n] !in s[..n];
      DistinctSize(s[..n], elements - {s[n]});
    }
  }

  lemma LetGoPlaced(b: Books, after: Lists)
    requires Placed(b.workers, b.leases, b.retired, b.place) && Thinned(b.workers, after)
    ensures var c := LetGo(b, after); Placed(c.workers, c.leases, c.retired, c.place)
    ensures b.retired !! Members(b.workers) && Members(after) <= Members(b.workers)
  {
    var gone := Members(b.workers) - Members(after);
    var place := LetGo(b, after).place;
    LetGoPool(b.workers, after, b.place, place, gone);
    LetGoElsewhere(b, place, gone);
  }

  /** The places after the workers in `gone` have been let go. */
  ghost predicate Letting(before: Places, after: Places, gone: set<WarmWorker>) {
    && after.Keys == before.Keys
    && (forall w | w in before :: after[w] == if w in gone then Retired else before[w])
  }

  lemma LetGoPool(before: Lists, after: Lists, place: Places, place': Places, gone: set<WarmWorker>)
    requires PoolPlaced(before, place) && Thinned(before, after) && gone == Members(before) - Members(after)
    requires Letting(place, place', gone)
    ensures PoolPlaced(after, place')
    ensures Members(after) <= Members(before)
  {
    forall fn, w | fn in after && w in after[fn]
      ensures w in Members(after) && w in before[fn] && w in place' && place'[w] == InPool && w.fnID == fn
    {
      assert fn in before && w in before[fn];
    }
    forall w | w in place' && place'[w] == InPool ensures w in ListOf(after, w.fnID) {
      assert place[w] == InPool && w in ListOf(before, w.fnID) && w in Members(before);
      var fn :| fn in after && w in after[fn];
      assert w in before[fn] && w.fnID == fn;
    }
  }

  lemma LetGoElsewhere(b: Books, place: Places, gone: set<WarmWorker>)
    requires Placed(b.workers, b.leases, b.retired, b.place) && gone <= Members(b.workers)
    requires Letting(b.place, place, gone)
    ensures LeasesPlaced(b.leases, place) && RetiredPlaced(b.retired + gone, place) && b.retired !! Members(b.workers)
  {
    forall w | w in Members(b.workers) ensures w in b.place && b.place[w] == InPool {
      var fn :| fn in b.workers && w in b.workers[fn];
    }
    hide PoolPlaced, Members;
  }

  lemma LetGoSound(max: nat, b: Books, after: Lists)
    requires Sound(max, b) && Thinned(b.workers, after)
    ensures Sound(max, LetGo(b, after))
  {
    hide Placed, Total, Members, Bounded, Thinned;
    LetGoPlaced(b, after);
    LetGoCounts(b, after);
    LetGoBounded(max, b.workers, after);
  }

  lemma LetGoCounts(b: Books, after: Lists)
    requires Placed(b.workers, b.leases, b.retired, b.place) && Thinned(b.workers, after)
    ensures var c := LetGo(b, after); |c.place| == |b.place|
    ensures var c := LetGo(b, after); Total(c.workers) + |c.retired| == Total(b.workers) + |b.retired|
  {
    LetGoPlaced(b, after);
    var c := LetGo(b, after);
    assert c.place.Keys == b.place.Keys;
    PlacedTotal(b);
    PlacedTotal(c);
    hide Placed, Total, Members;
    assert |c.place.Keys| == |b.place.Keys|;
    assert |Members(b.workers) - Members(after)| == |Members(b.workers)| - |Members(after)|;
  }

  lemma LetGoBounded(max: nat, before: Lists, after: Lists)
    requires Bounded(before, max) && Thinned(before, after)
    ensures Bounded(after, max) && (before == map[] ==> after == map[])
  {
  }

  lemma PlacedTotal(b: Books)
    requires Placed(b.workers, b.leases, b.retired, b.place)
    ensures Total(b.workers) == |Members(b.workers)|
  {
    TotalIsMembers(b.workers);
  }

  /** Conservation: every worker ever started cold is idle in the pool, with a call, or gone. */
  lemma ColdStartsConserved(max: nat, b: Books)
    requires Sound(max, b)
    ensures b.coldStarts == |Members(b.workers)| + |b.leases| + |b.retired|
    ensures b.coldStarts + b.warmStarts == b.admitted
  {
    TotalIsMembers(b.workers);
  }

  /** Exclusive leases: no two calls share a worker, and a leased worker is its function's, not pooled and not gone. */
  lemma LeasesExclusive(max: nat, b: Books, c: nat)
    requires Sound(max, b) && c in b.leases
    ensures b.leases[c].worker.fnID == b.leases[c].fn
    ensures b.leases[c].worker !in Members(b.workers) && b.leases[c].worker !in b.retired
    ensures forall d | d in b.leases && d != c :: b.leases[d].worker != b.leases[c].worker
  {
    var w := b.leases[c].worker;
    assert b.place[w] == Leased(c);
    forall d | d in b.leases && d != c ensures b.leases[d].worker != w {
      assert b.place[b.leases[d].worker] == Leased(d);
    }
  }

  class WarmPoolManager {
    var workers: Lists
    const idleTimeout: int
    const maxWarmPerFunc: nat
    var closed: bool
    var coldStarts: nat
    var warmStarts: nat
    var leases: map<nat, Lease>
    var closing: nat
    var stops: nat
    ghost var place: Places
    ghost var retired: set<WarmWorker>
    ghost var admitted: nat

    ghost function View(): Books
      reads this
    {
      Books(workers, closed, coldStarts, warmStarts, leases, closing, stops, place, retired, admitted)
    }

    ghost predicate Valid()
      reads this
    {
      Sound(maxWarmPerFunc, View())
    }

    constructor (idleTimeout: int, maxWarmPerFunc: int)
      ensures Valid() && View() == Books(map[], false, 0, 0, map[], 0, 0, map[], {}, 0)
      ensures this.idleTimeout == if idleTimeout <= 0 then 60_000_000_000 else idleTimeout
      ensures this.maxWarmPerFunc == if maxWarmPerFunc <= 0 then 5 else maxWarmPerFunc
    {
      this.idleTimeout := if idleTimeout <= 0 then 60_000_000_000 else idleTimeout;
      this.maxWarmPerFunc := if maxWarmPerFunc <= 0 then 5 else maxWarmPerFunc;
      workers, closed, coldStarts, warmStarts := map[], false, 0, 0;
      leases, closing, stops, place, retired, admitted := map[], 0, 0, map[], {}, 0;
    }

    // Invoke

    /** The first locked section of Invoke: the most recently pooled worker of the function, or a new one. */
    method Begin(call: nat, fn: string) returns (ok: bool, isWarm: bool)
      requires Valid() && call !in leases
      modifies this`workers, this`leases, this`coldStarts, this`warmStarts, this`place, this`admitted
      ensures Valid() && ok == !closed && isWarm == (ok && |ListOf(old(workers), fn)| > 0)
      ensures !ok ==> View() == old(View())
      ensures isWarm ==> View() == Taken(old(View()), call, fn)
      ensures ok && !isWarm ==>
                call in leases && fresh(leases[call].worker) && View() == Started(old(View()), call, fn, leases[call].worker)
      ensures isWarm ==>
                var list := old(workers)[fn];
                && leases == old(leases)[call := Lease(fn, list[|list| - 1])]
                && workers == old(workers)[fn := list[..|list| - 1]]
                && warmStarts == old(warmStarts) + 1 && coldStarts == old(coldStarts)
      ensures ok && !isWarm ==>
                && call in leases && leases == old(leases)[call := Lease(fn, leases[call].worker)]
                && leases[call].worker.fnID == fn && workers == old(workers)
                && coldStarts == old(coldStarts) + 1 && warmStarts == old(warmStarts)
    {
      hide Sound;
      ok, isWarm := !closed, false;
      if !ok { return; }
      var poolList := ListOf(workers, fn);
      if |poolList| > 0 {
        TakenSound(maxWarmPerFunc, View(), call, fn);
        var worker := poolList[|poolList| - 1];
        workers := workers[fn := poolList[..|poolList| - 1]];
        leases := leases[call := Lease(fn, worker)];
        warmStarts := warmStarts + 1;
        place := place[worker := Leased(call)];
        isWarm := true;
      } else {
        var worker := new WarmWorker(fn);
        StartedSound(maxWarmPerFunc, View(), call, fn, worker);
        leases := leases[call := Lease(fn, worker)];
        coldStarts := coldStarts + 1;
        place := place[worker := Leased(call)];
      }
      admitted := admitted + 1;
    }

    /** The runner failed: the worker is dropped. */
    method Drop(call: nat)
      requires Valid() && call in leases
      modifies this`leases, this`place, this`retired
      ensures Valid() && View() == Dropped(old(View()), call)
      ensures leases == old(leases) - {call} && retired == old(retired) + {old(leases)[call].worker}
    {
      hide Sound;
      DroppedSound(maxWarmPerFunc, View(), call);
      ghost var worker := leases[call].worker;
      leases := leases - {call};
      place := place[worker := Retired];
      retired := retired + {worker};
    }

    /** The write outside the lock: no list and no other call has the worker, so none of their stamps change. */
    method Stamp(call: nat, worker: WarmWorker, now: int)
      requires Valid() && call in leases && leases[call].worker == worker
      modifies worker`lastUsed
      ensures Valid() && worker.lastUsed == now
      ensures forall fn, i | fn in workers && 0 <= i < |workers[fn]| :: workers[fn][i].lastUsed == old(workers[fn][i].lastUsed)
      ensures forall c | c in leases && c != call :: leases[c].worker.lastUsed == old(leases[c].worker.lastUsed)
    {
      LeasesExclusive(maxWarmPerFunc, View(), call);
      forall fn, i | fn in workers && 0 <= i < |workers[fn]| ensures workers[fn][i] != worker {
        assert workers[fn][i] in workers[fn];
      }
      worker.lastUsed := now;
    }

    /** The last locked section: back into the list of the call's function if the pool is open and it has room, else dropped. */
    method ReleaseWorker(call: nat)
      requires Valid() && call in leases
      modifies this`workers, this`leases, this`place, this`retired
      ensures Valid()
      ensures View() == if old(closed) || |ListOf(old(workers), old(leases)[call].fn)| >= maxWarmPerFunc
                        then Dropped(old(View()), call) else GivenBack(old(View()), call)
      ensures leases == old(leases) - {call}
      ensures var Lease(fn, worker) := old(leases)[call];
              workers == if old(closed) || |ListOf(old(workers), fn)| >= maxWarmPerFunc then old(workers)
                         else old(workers)[fn := ListOf(old(workers), fn) + [worker]]
    {
      hide Sound;
      var Lease(fn, worker) := leases[call];
      var list := ListOf(workers, fn);
      if closed {
        Drop(call);
      } else if |list| < maxWarmPerFunc {
        GivenBackSound(maxWarmPerFunc, View(), call);
        workers := workers[fn := list + [worker]];
        leases := leases - {call};
        place := place[worker := InPool];
      } else {
        Drop(call);
      }
    }

    // Reaping and closing

    /** The active part of one list, in its order. */
    method Active(list: seq<WarmWorker>, now: int) returns (active: seq<WarmWorker>)
      requires NoDup(list)
      ensures NoDup(active) && |active| <= |list|
      ensures forall w :: w in active <==> w in list && now - w.lastUsed < idleTimeout
      ensures StampsOf(active) == T.KeepFresh(StampsOf(list), now, idleTimeout)
      ensures Stamps(workers) == old(Stamps(workers))
    {
      hide T.KeepFresh, StampsOf, ActivePart;
      active := [];
      NoStamps([], now, idleTimeout);
      NoneActive(now, idleTimeout);
      for i := 0 to |list|
        invariant ActivePart(list[..i], active, now, idleTimeout)
        invariant StampsOf(active) == T.KeepFresh(StampsOf(list[..i]), now, idleTimeout)
      {
        OneMoreActive(list, active, i, now, idleTimeout);
        OneMoreKept(list[..i], active, list[i], now, idleTimeout);
        if now - list[i].lastUsed < idleTimeout {
          active := active + [list[i]];
        }
      }
      assert list[..|list|] == list;
      ActiveMeans(list, active, now, idleTimeout);
    }

    /** One function's turn: keep the active part of its list, or forget the function. */
    method ReapList(fn: string, now: int)
      requires fn in workers && NoDup(workers[fn])
      modifies this`workers
      ensures workers - {fn} == old(workers) - {fn}
      ensures NoDup(ListOf(workers, fn)) && |ListOf(workers, fn)| <= |old(workers)[fn]|
      ensures forall w :: w in ListOf(workers, fn) <==> w in old(workers)[fn] && now - w.lastUsed < idleTimeout
      ensures fn in workers ==> workers[fn] != []
      ensures Stamps(workers) == T.ReapOne(old(Stamps(workers)), fn, now, idleTimeout)
    {
      hide T.KeepFresh, StampsOf, Stamps;
      var active := Active(workers[fn], now);
      StampsUpdate(workers, fn, workers[fn]);
      StampKeys(workers);
      EmptyStamps(active);
      PutList(fn, active);
    }

    method PutList(fn: string, active: seq<WarmWorker>)
      modifies this`workers
      ensures workers == if active == [] then old(workers) - {fn} else old(workers)[fn := active]
      ensures Stamps(workers) == if active == [] then old(Stamps(workers)) - {fn}
                                 else old(Stamps(workers))[fn := old(StampsOf(active))]
    {
      hide StampsOf;
      if |active| == 0 {
        workers := workers - {fn};
      } else {
        workers := workers[fn := active];
      }
    }

    /** The ghost side of letting go, which no stamp depends on. */
    ghost method Record(place: Places, retired: set<WarmWorker>)
      modifies this`place, this`retired
      ensures this.place == place && this.retired == retired && Stamps(workers) == old(Stamps(workers))
    {
      this.place, this.retired := place, retired;
    }

    /** Let go of every worker that has been idle for the timeout, and of functions left without any. */
    method ReapIdleWorkers(now: int)
      requires Valid()
      modifies this`workers, this`place, this`retired
      ensures Valid() && View() == LetGo(old(View()), workers) && Thinned(old(workers), workers)
      ensures Stamps(workers) == T.ReapAll(old(Stamps(workers)), now, idleTimeout)
      ensures forall fn, w ::
                w in ListOf(workers, fn) <==> w in ListOf(old(workers), fn) && now - w.lastUsed < idleTimeout
      ensures forall fn | fn in workers :: workers[fn] != []
    {
      hide Sound, T.KeepFresh, Stamps, Thinned, LetGo, T.ReapOne, T.ReapAll, T.ReapedOutside;
      ghost var b, stamps := View(), Stamps(workers);
      SoundLists(maxWarmPerFunc, b);
      var left := workers.Keys;
      T.NothingReaped(stamps, now, idleTimeout);
      StampKeys(workers);
      while left != {}
        invariant left <= b.workers.Keys && Thinned(b.workers, workers)
        invariant forall fn | fn in left :: fn in workers && workers[fn] == b.workers[fn]
        invariant T.ReapedOutside(stamps, Stamps(workers), left, now, idleTimeout)
        invariant forall fn, w | fn !in left ::
                    w in ListOf(workers, fn) <==> w in ListOf(b.workers, fn) && now - w.lastUsed < idleTimeout
        invariant forall fn | fn in workers && fn !in left :: workers[fn] != []
        decreases left
      {
        var fn :| fn in left;
        ghost var before := workers;
        T.OneMoreReaped(stamps, Stamps(workers), left, fn, now, idleTimeout);
        ThinnedAt(b.workers, workers, fn);
        ReapList(fn, now);
        ThinnedMore(b.workers, before, workers, fn);
        left := left - {fn};
      }
      T.AllReaped(stamps, Stamps(workers), now, idleTimeout);
      LetGoSound(maxWarmPerFunc, b, workers);
      LetGoIs(b, workers);
      Record(LetGo(b, workers).place, LetGo(b, workers).retired);
    }

    /** The first part of Close: once only, set the flag and let go of everything. */
    method BeginClose() returns (first: bool)
      requires Valid()
      modifies this`workers, this`closed, this`closing, this`place, this`retired
      ensures Valid() && closed && workers == map[] && first == !old(closed)
      ensures View() == if old(closed) then old(View())
                        else LetGo(old(View()), map[]).(closed := true, closing := old(closing) + 1)
    {
      hide Sound, LetGo;
      first := !closed;
      SoundLists(maxWarmPerFunc, View());
      if !closed {
        LetGoIs(View(), map[]);
        ClosedSound(maxWarmPerFunc, View());
        ghost var b := LetGo(View(), map[]);
        closed := true;
        workers := map[];
        closing := closing + 1;
        place, retired := b.place, b.retired;
      }
    }

    /** The second part, outside the lock: close the stop channel. A second time would panic. */
    method FinishClose()
      requires Valid() && closing > 0
      modifies this`closing, this`stops
      ensures Valid() && old(stops) == 0 && stops == 1 && closing == 0
      ensures View() == old(View()).(closing := old(closing) - 1, stops := old(stops) + 1)
    {
      closing := closing - 1;
      stops := stops + 1;
    }

    method TotalWarmCount() returns (total: nat)
      requires Valid()
      ensures total == |Members(workers)|
    {
      TotalIsMembers(workers);
      total := 0;
      var left := workers;
      while left != map[]
        invariant total + Total(left) == Total(workers)
        decreases |left|
      {
        var fn :| fn in left;
        TotalSplit(left, fn);
        total := total + |left[fn]|;
        left := left - {fn};
      }
    }

    // Every interleaving

    /** Run any sequence of sections, skipping those that are not possible: what each of them does is in `states`. */
    method Run(events: seq<Event>) returns (ghost states: seq<Books>)
      requires Valid()
      modifies this, (set w | w in place)
      ensures Valid()
      ensures |states| == |events| + 1 && states[0] == old(View()) && states[|events|] == View()
      ensures forall i | 0 <= i < |events| :: Moves(maxWarmPerFunc, states[i], events[i], states[i + 1])
      ensures old(closed) ==> closed && workers == map[]
      ensures old(place).Keys <= place.Keys
    {
      hide Sound, Moves;
      SoundLists(maxWarmPerFunc, View());
      states := [View()];
      for i := 0 to |events|
        invariant Valid() && (old(closed) ==> closed && workers == map[])
        invariant |states| == i + 1 && states[0] == old(View()) && states[i] == View()
        invariant forall k | 0 <= k < i :: Moves(maxWarmPerFunc, states[k], events[k], states[k + 1])
        invariant forall w | w in place && w !in old(place) :: fresh(w)
        invariant old(place).Keys <= place.Keys
      {
        RunOne(events[i]);
        states := states + [View()];
      }
    }

    method RunOne(e: Event)
      requires Valid()
      modifies this, (set w | w in place)
      ensures Valid() && (old(closed) ==> closed && workers == map[])
      ensures Moves(maxWarmPerFunc, old(View()), e, View())
      ensures forall w | w in place && w !in old(place) :: fresh(w)
      ensures old(place).Keys <= place.Keys
    {
      hide Sound, LetGo, Thinned;
      ghost var b := View();
      SoundLists(maxWarmPerFunc, b);
      match e {
        case Call(call, fn) =>
          if call !in leases {
            LastIsPlaced(maxWarmPerFunc, b, fn);
            var _, _ := Begin(call, fn);
          }
        case Fail(call) =>
          if call in leases {
            LeaseKnown(maxWarmPerFunc, b, call);
            Drop(call);
          }
        case Stamp(call, now) =>
          if call in leases {
            LeaseKnown(maxWarmPerFunc, b, call);
            Stamp(call, leases[call].worker, now);
          }
        case Return(call) =>
          if call in leases {
            LeaseKnown(maxWarmPerFunc, b, call);
            ReleaseWorker(call);
          }
        case Reap(now) =>
          ReapIdleWorkers(now);
          LetGoKeys(b, workers);
        case Shut =>
          LetGoKeys(b, map[]);
          var _ := BeginClose();
        case ShutDone => if closing > 0 { FinishClose(); }
      }
      SoundLists(maxWarmPerFunc, View());
    }
  }

  /** What a section does to the books. Which workers a reap lets go is a matter of their stamps. */
  ghost predicate Moves(max: nat, b: Books, e: Event, c: Books) {
    match e
    case Call(call, fn) =>
      if b.closed || call in b.leases then c == b
      else if |ListOf(b.workers, fn)| > 0 then c == Taken(b, call, fn)
      else call in c.leases && c.leases[call].worker !in b.place && c == Started(b, call, fn, c.leases[call].worker)
    case Fail(call) => c == if call in b.leases then Dropped(b, call) else b
    case Stamp(_, _) => c == b
    case Return(call) =>
      if call !in b.leases then c == b
      else if b.closed || |ListOf(b.workers, b.leases[call].fn)| >= max then c == Dropped(b, call)
      else c == GivenBack(b, call)
    case Reap(_) => Thinned(b.workers, c.workers) && c == LetGo(b, c.workers)
    case Shut => c == if b.closed then b else LetGo(b, map[]).(closed := true, closing := b.closing + 1)
    case ShutDone => c == if b.closing > 0 then b.(closing := b.closing - 1, stops := b.stops + 1) else b
  }

  datatype Event =
    | Call(call: nat, fn: string)
    | Fail(call: nat)
    | Stamp(call: nat, now: int)
    | Return(call: nat)
    | Reap(now: int)
    | Shut
    | ShutDone

  lemma SoundLists(max: nat, b: Books)
    requires Sound(max, b)
    ensures Thinned(b.workers, b.workers) && (b.closed ==> b.workers == map[])
  {
  }

  lemma LastIsPlaced(max: nat, b: Books, fn: string)
    requires Sound(max, b)
    ensures forall w | w in ListOf(b.workers, fn) :: w in b.place
  {
  }

  lemma LeaseKnown(max: nat, b: Books, call: nat)
    requires Sound(max, b) && call in b.leases
    ensures b.leases[call].worker in b.place
  {
  }

  lemma ThinnedAt(before: Lists, after: Lists, fn: string)
    requires Thinned(before, after) && fn in after
    ensures NoDup(after[fn])
  {
  }

  lemma ThinnedMore(before: Lists, mid: Lists, after: Lists, fn: string)
    requires Thinned(before, mid) && fn in mid && after - {fn} == mid - {fn}
    requires NoDup(ListOf(after, fn)) && |ListOf(after, fn)| <= |mid[fn]|
    requires forall w | w in ListOf(after, fn) :: w in mid[fn]
    ensures Thinned(before, after)
    ensures forall g | g != fn :: (g in after <==> g in mid) && (g in mid ==> after[g] == mid[g])
  {
    forall g | g != fn ensures (g in after <==> g in mid) && (g in mid ==> after[g] == mid[g]) {
      assert g in after <==> g in after - {fn};
      assert g in mid <==> g in mid - {fn};
      if g in mid {
        assert after[g] == (after - {fn})[g] && mid[g] == (mid - {fn})[g];
      }
    }
  }

  lemma LetGoKeys(b: Books, after: Lists)
    ensures LetGo(b, after).place.Keys == b.place.Keys && LetGo(b, after).closed == b.closed
  {
  }

  lemma LetGoIs(b: Books, after: Lists)
    ensures LetGo(b, after) == b.(workers := after, place := LetGo(b, after).place, retired := LetGo(b, after).retired)
  {
  }

  lemma ClosedSound(max: nat, b: Books)
    requires Sound(max, b) && !b.closed
    ensures Sound(max, LetGo(b, map[]).(closed := true, closing := b.closing + 1))
  {
    LetGoSound(max, b, map[]);
    hide Placed, Total, Members;
  }

  /** The lists as the timed pool sees them. */
  ghost function Stamps(workers: Lists): map<string, seq<int>>
    reads Members(workers)
  {
    map fn | fn in workers :: assert forall w <- workers[fn] :: w in Members(workers); StampsOf(workers[fn])
  }

  lemma StampsUpdate(workers: Lists, fn: string, list: seq<WarmWorker>)
    ensures Stamps(workers[fn := list]) == Stamps(workers)[fn := StampsOf(list)]
    ensures StampsOf(ListOf(workers, fn)) == T.ListOf(Stamps(workers), fn)
  {
    hide StampsOf;
    NoStamps([], 0, 0);
  }

  /** A warm start of an open pool is the timed pool's Take. */
  lemma WarmStartIsTake(l: T.Limits, p: T.Pool, b: Books, call: nat, fn: string)
    requires p.lists == Stamps(b.workers) && !p.closed && |ListOf(b.workers, fn)| > 0
    ensures Stamps(Taken(b, call, fn).workers) == T.Step(l, p, T.Take(fn)).lists
  {
    var list := b.workers[fn];
    var rest := list[..|list| - 1];
    StampsUpdate(b.workers, fn, rest);
    assert StampsOf(rest) == StampsOf(list)[..|list| - 1];
  }

  /** A worker given back when it is stamped is the timed pool's Release. */
  lemma ReturnIsRelease(l: T.Limits, p: T.Pool, b: Books, call: nat)
    requires p.lists == Stamps(b.workers) && !p.closed
    requires call in b.leases && b.leases[call].worker.lastUsed == p.now && |ListOf(b.workers, b.leases[call].fn)| < l.max
    ensures Stamps(GivenBack(b, call).workers) == T.Step(l, p, T.Release(b.leases[call].fn)).lists
  {
    hide Stamps, StampsOf;
    var Lease(fn, w) := b.leases[call];
    var list := ListOf(b.workers, fn);
    OneMoreStamp(list, w);
    StampsUpdate(b.workers, fn, list + [w]);
    StampLength(list);
  }

  lemma StampLength(list: seq<WarmWorker>)
    ensures |StampsOf(list)| == |list|
  {
  }

  lemma StampKeys(workers: Lists)
    ensures Stamps(workers).Keys == workers.Keys
  {
  }

  lemma NoStamps(list: seq<WarmWorker>, now: int, idle: int)
    requires list == []
    ensures StampsOf(list) == [] == T.KeepFresh([], now, idle)
  {
  }

  lemma EmptyStamps(list: seq<WarmWorker>)
    ensures StampsOf(list) == [] <==> list == []
  {
  }

  /** The members of the list that have been idle for less than the timeout, each once. */
  ghost predicate ActivePart(list: seq<WarmWorker>, active: seq<WarmWorker>, now: int, idle: int)
    reads list
  {
    && NoDup(active) && |active| <= |list|
    && (forall w | w in active :: w in list && now - w.lastUsed < idle)
    && (forall w | w in list && now - w.lastUsed < idle :: w in active)
  }

  lemma ActiveMeans(list: seq<WarmWorker>, active: seq<WarmWorker>, now: int, idle: int)
    requires ActivePart(list, active, now, idle)
    ensures NoDup(active) && |active| <= |list|
    ensures forall w :: w in active <==> w in list && now - w.lastUsed < idle
  {
  }

  lemma NoneActive(now: int, idle: int)
    ensures ActivePart([], [], now, idle)
  {
  }

  lemma OneMoreActive(list: seq<WarmWorker>, active: seq<WarmWorker>, i: nat, now: int, idle: int)
    requires NoDup(list) && i < |list| && ActivePart(list[..i], active, now, idle)
    ensures list[..i + 1] == list[..i] + [list[i]]
    ensures ActivePart(list[..i + 1], if now - list[i].lastUsed < idle then active + [list[i]] else active, now, idle)
  {
    assert list[..i + 1] == list[..i] + [list[i]] && list[i] !in list[..i];
  }

  lemma OneMoreKept(list: seq<WarmWorker>, active: seq<WarmWorker>, w: WarmWorker, now: int, idle: int)
    requires StampsOf(active) == T.KeepFresh(StampsOf(list), now, idle)
    ensures StampsOf(if now - w.lastUsed < idle then active + [w] else active) ==
            T.KeepFresh(StampsOf(list + [w]), now, idle)
  {
    OneMoreStamp(list, w);
    OneMoreStamp(active, w);
    var s := StampsOf(list + [w]);
    assert s[..|s| - 1] == StampsOf(list);
  }

  /** The last-use stamps of a list. */
  function StampsOf(list: seq<WarmWorker>): (r: seq<int>)
    reads list
    ensures |r| == |list| && forall i | 0 <= i < |list| :: r[i] == list[i].lastUsed
  {
    if list == [] then [] else StampsOf(list[..|list| - 1]) + [list[|list| - 1].lastUsed]
  }

  lemma OneMoreStamp(list: seq<WarmWorker>, w: WarmWorker)
    ensures StampsOf(list + [w]) == StampsOf(list) + [w.lastUsed]
  {
    assert (list + [w])[..|list|] == list;
  }
}
