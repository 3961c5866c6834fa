/**
 The in-memory invocation repository over a heap. A record is a struct with two pointers; the repository clones it on
 the way in and on the way out, so that nothing a caller holds is part of what is stored.
 */
module MemoryRepo {
  import opened Domain

  class ResultCell {
    var value: InvocationResult

    constructor (value: InvocationResult)
      ensures this.value == value
    {
      this.value := value;
    }
  }

  class TimeCell {
    var nanos: int

    constructor (nanos: int)
      ensures this.nanos == nanos
    {
      this.nanos := nanos;
    }
  }

  /** The struct: `fields` holds everything but the two pointers. */
  datatype AsyncInvocation = AsyncInvocation(fields: Record, result: ResultCell?, completedAt: TimeCell?)

  function Parts(a: AsyncInvocation): set<object> {
    (if a.result == null then {} else {a.result}) + (if a.completedAt == null then {} else {a.completedAt})
  }

  ghost function AllParts(list: seq<AsyncInvocation>): set<object> {
    set a, o | a in list && o in Parts(a) :: o
  }

  /** The record a struct stands for, pointers followed. */
  function Value(a: AsyncInvocation): Record
    reads a.result, a.completedAt
  {
    a.fields.(result := if a.result == null then None else Some(a.result.value),
              completedAt := if a.completedAt == null then None else Some(a.completedAt.nanos))
  }

  /** The value of a struct tells all of it but where its cells are. */
  lemma ValueTells(a: AsyncInvocation, b: AsyncInvocation)
    requires Value(a) == Value(b)
    ensures a.fields.(result := None, completedAt := None) == b.fields.(result := None, completedAt := None)
    ensures a.result == null <==> b.result == null
    ensures a.result != null ==> a.result.value == b.result.value
    ensures a.completedAt == null <==> b.completedAt == null
    ensures a.completedAt != null ==> a.completedAt.nanos == b.completedAt.nanos
  {
    var f, g := Value(a).(result := None, completedAt := None), Value(b).(result := None, completedAt := None);
    assert f == a.fields.(result := None, completedAt := None) && g == b.fields.(result := None, completedAt := None);
    assert Value(a).result == Value(b).result && Value(a).completedAt == Value(b).completedAt;
  }

  /** A deep copy: equal in value, sharing nothing. */
  method Clone(a: AsyncInvocation) returns (cp: AsyncInvocation)
    ensures Value(cp) == Value(a) && fresh(Parts(cp)) && cp.fields == a.fields
    ensures if a.result == null then cp.result == null
            else cp.result != null && cp.result != a.result && cp.result.value == a.result.value
    ensures if a.completedAt == null then cp.completedAt == null
            else cp.completedAt != null && cp.completedAt != a.completedAt && cp.completedAt.nanos == a.completedAt.nanos
  {
    cp := a;
    if a.result != null {
      var r := new ResultCell(a.result.value);
      cp := cp.(result := r);
    }
    if a.completedAt != null {
      var t := new TimeCell(a.completedAt.nanos);
      cp := cp.(completedAt := t);
    }
  }

  class MemoryInvocationRepository {
    var items: map<string, AsyncInvocation>
    ghost var Repr: set<object>

    ghost predicate Valid()
      reads this
    {
      && this !in Repr
      && forall id | id in items :: Parts(items[id]) <= Repr && items[id].fields.id == id
    }

    /** The plain map of values the repository stands for. */
    ghost function Contents(): map<string, Record>
      reads this, Repr
      requires Valid()
    {
      map id | id in items :: Value(items[id])
    }

    constructor ()
      ensures Valid() && Contents() == map[] && Repr == {}
    {
      items, Repr := map[], {};
    }

    method Create(inv: AsyncInvocation)
      requires Valid()
      modifies this
      ensures Valid() && old(Repr) <= Repr && fresh(Repr - old(Repr))
      ensures Contents() == old(Contents())[inv.fields.id := old(Value(inv))]
    {
      var cp := Clone(inv);
      Store(cp);
    }

    /** Put a clone nobody else holds into the map. */
    method Store(cp: AsyncInvocation)
      requires Valid() && this !in Parts(cp)
      modifies this
      ensures Valid() && Repr == old(Repr) + Parts(cp)
      ensures Contents() == old(Contents())[cp.fields.id := Value(cp)]
    {
      items := items[cp.fields.id := cp];
      Repr := Repr + Parts(cp);
    }

    method GetByID(id: string) returns (found: bool, inv: AsyncInvocation)
      requires Valid()
      ensures found == (id in Contents())
      ensures found ==> Value(inv) == Contents()[id] && fresh(Parts(inv))
    {
      found := id in items;
      if found {
        inv := Clone(items[id]);
      } else {
        inv := AsyncInvocation(Record("", "", Pending, None, "", 0, 0, "", "", "", 0, None), null, null);
      }
    }

    method Update(inv: AsyncInvocation) returns (found: bool)
      requires Valid()
      modifies this
      ensures Valid() && old(Repr) <= Repr && fresh(Repr - old(Repr))
      ensures found == (inv.fields.id in old(Contents()))
      ensures Contents() == if found then old(Contents())[inv.fields.id := old(Value(inv))] else old(Contents())
    {
      found := inv.fields.id in items;
      if found {
        var cp := Clone(inv);
        Store(cp);
      }
    }

    method List() returns (list: seq<AsyncInvocation>, ghost values: seq<Record>)
      requires Valid()
      ensures |list| == |values| == |Contents()| && Lists(Contents(), Contents().Keys, values)
      ensures forall i | 0 <= i < |list| :: fresh(Parts(list[i])) && Value(list[i]) == values[i]
      ensures forall id | id in Contents() :: exists i :: 0 <= i < |list| && Value(list[i]) == Contents()[id]
    {
      assert items.Keys == Contents().Keys;
      list, values := Collect(items.Keys);
      AllListed(Contents(), items.Keys, values);
      forall id | id in Contents() ensures exists i :: 0 <= i < |list| && Value(list[i]) == Contents()[id] {
        var i :| 0 <= i < |values| && values[i] == Contents()[id];
        assert Value(list[i]) == Contents()[id];
      }
    }

    method ListDeadLetter() returns (list: seq<AsyncInvocation>, ghost values: seq<Record>)
      requires Valid()
      ensures |list| == |values| && Lists(Contents(), DeadIDs(Contents()), values)
      ensures forall i | 0 <= i < |list| :: fresh(Parts(list[i])) && Value(list[i]) == values[i]
      ensures forall i | 0 <= i < |list| :: list[i].fields.status == DeadLetter
      ensures forall i, j | 0 <= i < j < |list| :: list[i].fields.id != list[j].fields.id
      ensures forall id | id in Contents() && Contents()[id].status == DeadLetter ::
                exists i :: 0 <= i < |list| && Value(list[i]) == Contents()[id]
    {
      var wanted := set id | id in items && items[id].fields.status == DeadLetter;
      assert wanted == DeadIDs(Contents());
      list, values := Collect(wanted);
      AllListed(Contents(), wanted, values);
      forall i | 0 <= i < |list|
        ensures list[i].fields.status == DeadLetter && list[i].fields.id == values[i].id
      {
        assert Value(list[i]) == values[i] && values[i].id in wanted;
      }
      forall id | id in Contents() && Contents()[id].status == DeadLetter
        ensures exists i :: 0 <= i < |list| && Value(list[i]) == Contents()[id]
      {
        assert id in wanted;
        var i :| 0 <= i < |values| && values[i] == Contents()[id];
        assert Value(list[i]) == Contents()[id];
      }
    }

    /** The loop of both listings, over the chosen keys of the map, in whatever order they come. */
    method Collect(wanted: set<string>) returns (list: seq<AsyncInvocation>, ghost values: seq<Record>)
      requires Valid() && wanted <= items.Keys
      ensures |list| == |values| && Lists(Contents(), wanted, values)
      ensures forall i | 0 <= i < |list| :: fresh(Parts(list[i])) && Value(list[i]) == values[i]
    {
      hide Lists, Contents, Valid;
      list, values := [], [];
      var left := wanted;
      ghost var m, done := Contents(), {};
      ListNone(m);
      while left != {}
        invariant done !! left && done + left == wanted && |list| == |values| && Lists(m, done, values)
        invariant forall i | 0 <= i < |list| :: fresh(Parts(list[i])) && Value(list[i]) == values[i]
        decreases left
      {
        var id :| id in left;
        var cp := CopyOut(id);
        OneMoreListed(m, done, values, id);
        left, done := left - {id}, done + {id};
        list, values := list + [cp], values + [m[id]];
      }
      assert done == wanted;
    }

    method CopyOut(id: string) returns (cp: AsyncInvocation)
      requires Valid() && id in items
      ensures fresh(Parts(cp)) && id in Contents() && Value(cp) == Contents()[id] && Contents()[id].id == id
    {
      cp := Clone(items[id]);
    }
  }

  lemma ListNone(m: map<string, Record>)
    ensures Lists(m, {}, [])
  {
  }

  /** The records of the wanted ids, each once. */
  ghost predicate Lists(m: map<string, Record>, wanted: set<string>, values: seq<Record>) {
    && wanted <= m.Keys
    && |values| == |wanted|
    && (forall i | 0 <= i < |values| :: values[i].id in wanted && m[values[i].id] == values[i])
    && (forall i, j | 0 <= i < j < |values| :: values[i].id != values[j].id)
  }

  lemma OneMoreListed(m: map<string, Record>, wanted: set<string>, values: seq<Record>, id: string)
    requires Lists(m, wanted, values) && id in m && id !in wanted && m[id].id == id
    ensures Lists(m, wanted + {id}, values + [m[id]])
  {
  }

  /** A listing leaves nothing out: every wanted record is in it, at exactly one place. */
  lemma {:induction false} ListingIsComplete(m: map<string, Record>, wanted: set<string>, values: seq<Record>, id: string)
    requires Lists(m, wanted, values) && id in wanted
    ensures exists i :: 0 <= i < |values| && values[i] == m[id] && values[i].id == id &&
                        forall j | 0 <= j < |values| && j != i :: values[j].id != id
    decreases |values|
  {
    assert |wanted - {id}| == |wanted| - 1;
    var n := |values| - 1;
    var last := values[n].id;
    if last == id {
      assert values[n] == m[id];
    } else {
      assert |wanted - {last}| == n;
      assert Lists(m, wanted - {last}, values[..n]);
      ListingIsComplete(m, wanted - {last}, values[..n], id);
      var i :| 0 <= i < n && values[..n][i] == m[id] && values[..n][i].id == id;
      assert values[i] == m[id];
    }
  }

  lemma AllListed(m: map<string, Record>, wanted: set<string>, values: seq<Record>)
    requires Lists(m, wanted, values)
    ensures forall id | id in wanted :: exists i :: 0 <= i < |values| && values[i] == m[id]
  {
    forall id | id in wanted ensures exists i :: 0 <= i < |values| && values[i] == m[id] {
      ListingIsComplete(m, wanted, values, id);
      var i :| 0 <= i < |values| && values[i] == m[id] && values[i].id == id;
    }
  }

  // Any client

  /** What a client may do with the structs it holds, named by their position. */
  datatype Command =
    | Build(fields: Record, result: Option<InvocationResult>, time: Option<int>)
    | CopyStruct(h: nat)
    | SetFields(h: nat, fields: Record)
    | Scribble(h: nat, value: InvocationResult, nanos: int)
    | Create(h: nat)
    | Update(h: nat)
    | Get(id: string)
    | ListAll
    | DeadLetters

  /** What went over the repository's interface, in values. */
  datatype Exchange =
    | Created(r: Record)
    | Updated(r: Record, found: bool)
    | Got(id: string, answer: Option<Record>)
    | Listed(values: seq<Record>)
    | ListedDead(values: seq<Record>)

  /** The exchanges are those of a plain map that starts as `m`. */
  ghost predicate MapSays(m: map<string, Record>, xs: seq<Exchange>)
    decreases |xs|
  {
    if xs == [] then true
    else
      var before := xs[..|xs| - 1];
      MapSays(m, before) && Answers(After(m, before), xs[|xs| - 1])
  }

  function After(m: map<string, Record>, xs: seq<Exchange>): map<string, Record>
    decreases |xs|
  {
    if xs == [] then m
    else Effect(After(m, xs[..|xs| - 1]), xs[|xs| - 1])
  }

  lemma OneMoreExchange(m: map<string, Record>, xs: seq<Exchange>, x: Exchange)
    ensures (xs + [x])[..|xs|] == xs && (xs + [x])[|xs|] == x
  {
  }

  /** What a map would do in this exchange, from the values it holds now. */
  ghost predicate Answers(now: map<string, Record>, x: Exchange) {
    match x
    case Created(_) => true
    case Updated(r, found) => found == (r.id in now)
    case Got(id, r) => r == if id in now then Some(now[id]) else None
    case Listed(values) => Lists(now, now.Keys, values)
    case ListedDead(values) => Lists(now, DeadIDs(now), values)
  }

  function DeadIDs(m: map<string, Record>): set<string> {
    set id | id in m && m[id].status == DeadLetter
  }

  function Effect(now: map<string, Record>, x: Exchange): map<string, Record> {
    match x
    case Created(r) => now[r.id := r]
    case Updated(r, found) => if found then now[r.id := r] else now
    case _ => now
  }

  lemma UpdateMeans(now: map<string, Record>, r: Record)
    ensures Answers(now, Updated(r, r.id in now))
    ensures Effect(now, Updated(r, r.id in now)) == if r.id in now then now[r.id := r] else now
  {
  }

  lemma MoreAgreement(m: map<string, Record>, xs: seq<Exchange>, now: map<string, Record>, x: Exchange)
    requires MapSays(m, xs) && now == After(m, xs) && Answers(now, x)
    ensures MapSays(m, xs + [x]) && After(m, xs + [x]) == Effect(now, x)
  {
    OneMoreExchange(m, xs, x);
  }

  /** One command of a client: how many structs it held before, what went over the interface, and how many it holds now. */
  datatype Turn = Turn(c: Command, had: nat, said: seq<Exchange>, has: nat)

  /** What the command means for that. A command on a struct the client does not hold does nothing. */
  predicate Fits(t: Turn) {
    match t.c
    case Build(_, _, _) => t.said == [] && t.has == t.had + 1
    case CopyStruct(h) => t.said == [] && t.has == t.had + (if h < t.had then 1 else 0)
    case SetFields(_, _) => t.said == [] && t.has == t.had
    case Scribble(_, _, _) => t.said == [] && t.has == t.had
    case Create(h) => t.has == t.had && if h < t.had then |t.said| == 1 && t.said[0].Created? else t.said == []
    case Update(h) => t.has == t.had && if h < t.had then |t.said| == 1 && t.said[0].Updated? else t.said == []
    case Get(id) =>
      && |t.said| == 1 && t.said[0].Got? && t.said[0].id == id
      && t.has == t.had + (if t.said[0].answer.Some? then 1 else 0)
    case ListAll => |t.said| == 1 && t.said[0].Listed? && t.has == t.had + |t.said[0].values|
    case DeadLetters => |t.said| == 1 && t.said[0].ListedDead? && t.has == t.had + |t.said[0].values|
  }

  /** A turn for each command, each beginning with what the one before it left. */
  predicate Turns(turns: seq<Turn>, cmds: seq<Command>, had: nat, has: nat) {
    && |turns| == |cmds|
    && (forall i | 0 <= i < |turns| :: turns[i].c == cmds[i] && Fits(turns[i]))
    && (forall i | 0 <= i < |turns| :: turns[i].had == HasBefore(turns, i, had))
    && has == HasBefore(turns, |turns|, had)
  }

  function HasBefore(turns: seq<Turn>, i: nat, had: nat): nat
    requires i <= |turns|
  {
    if i == 0 then had else turns[i - 1].has
  }

  function Said(turns: seq<Turn>): seq<Exchange> {
    if turns == [] then [] else Said(turns[..|turns| - 1]) + turns[|turns| - 1].said
  }

  lemma OneMoreTurn(turns: seq<Turn>, cmds: seq<Command>, had: nat, t: Turn)
    requires Turns(turns, cmds, had, t.had) && Fits(t)
    ensures Turns(turns + [t], cmds + [t.c], had, t.has) && Said(turns + [t]) == Said(turns) + t.said
  {
    hide Fits;
    var more := turns + [t];
    assert more[..|turns|] == turns;
    forall i | 0 <= i < |more| ensures more[i].had == HasBefore(more, i, had) {
      if i < |turns| { assert more[i] == turns[i]; }
      if i > 0 { assert more[i - 1] == turns[i - 1]; }
    }
  }

  class Client {
    const repo: MemoryInvocationRepository
    var held: seq<AsyncInvocation>
    ghost var exchanges: seq<Exchange>
    ghost var Owned: set<object>

    /** The client holds only cells of its own, none of them the repository's. */
    ghost predicate Valid()
      reads this, repo
    {
      && repo.Valid()
      && this !in repo.Repr && this !in Owned && repo !in Owned
      && repo.Repr !! Owned
      && forall i | 0 <= i < |held| :: Parts(held[i]) <= Owned
    }

    /** What went over the interface is what a map that started as `m` would have said, and the contents are that map. */
    ghost predicate Agrees(m: map<string, Record>)
      reads this, repo, repo.Repr
      requires repo.Valid()
    {
      MapSays(m, exchanges) && repo.Contents() == After(m, exchanges)
    }

    constructor (repo: MemoryInvocationRepository)
      requires repo.Valid()
      ensures Valid() && this.repo == repo && exchanges == [] && Owned == {}
    {
      this.repo, held, exchanges, Owned := repo, [], [], {};
    }

    method Hold(a: AsyncInvocation)
      requires Valid() && Parts(a) !! repo.Repr && this !in Parts(a) && repo !in Parts(a)
      modifies this`held, this`Owned
      ensures Valid() && Owned == old(Owned) + Parts(a) && |held| == |old(held)| + 1
    {
      held := held + [a];
      Owned := Owned + Parts(a);
    }

    method Build(fields: Record, result: Option<InvocationResult>, time: Option<int>)
      requires Valid()
      modifies this`held, this`Owned
      ensures Valid() && old(Owned) <= Owned && fresh(Owned - old(Owned)) && |held| == |old(held)| + 1
    {
      var a := AsyncInvocation(fields, null, null);
      if result.Some? {
        var cell := new ResultCell(result.value);
        a := a.(result := cell);
      }
      if time.Some? {
        var cell := new TimeCell(time.value);
        a := a.(completedAt := cell);
      }
      Hold(a);
    }

    /** Write through a pointer the client holds: the repository's contents do not notice. */
    method Scribble(h: nat, value: InvocationResult, nanos: int)
      requires Valid() && h < |held|
      modifies Owned
      ensures Valid() && repo.Contents() == old(repo.Contents())
    {
      assert Parts(held[h]) <= Owned;
      var a := held[h];
      if a.result != null {
        assert a.result in Parts(a);
        a.result.value := value;
      }
      if a.completedAt != null {
        assert a.completedAt in Parts(a);
        a.completedAt.nanos := nanos;
      }
    }

    /** The client may change what it holds as it likes. */
    method TouchOwn(c: Command)
      requires Valid() && !c.Create? && !c.Update? && !c.Get? && !c.ListAll? && !c.DeadLetters?
      modifies this`held, this`Owned, Owned
      ensures Valid() && old(Owned) <= Owned && fresh(Owned - old(Owned)) && repo.Contents() == old(repo.Contents())
      ensures Fits(Turn(c, |old(held)|, [], |held|))
    {
      match c
      case Build(fields, result, time) => Build(fields, result, time);
      case CopyStruct(h) =>
        if h < |held| {
          assert Parts(held[h]) <= Owned;
          Hold(held[h]);
        }
      case SetFields(h, fields) =>
        if h < |held| {
          assert Parts(held[h]) <= Owned;
          held := held[h := held[h].(fields := fields)];
        }
      case Scribble(h, value, nanos) =>
        if h < |held| { Scribble(h, value, nanos); }
    }

    method CallCreate(h: nat, ghost m: map<string, Record>)
      requires Valid() && Agrees(m) && h < |held|
      modifies this`exchanges, repo
      ensures Valid() && Agrees(m) && exchanges == old(exchanges) + [Created(old(Value(held[h])))]
    {
      hide After, MapSays, Lists;
      ghost var before := exchanges;
      ghost var stored := repo.Contents();
      ghost var r := Value(held[h]);
      assert Parts(held[h]) <= Owned;
      repo.Create(held[h]);
      exchanges := exchanges + [Created(r)];
      MoreAgreement(m, before, stored, Created(r));
    }

    method CallUpdate(h: nat, ghost m: map<string, Record>) returns (found: bool)
      requires Valid() && Agrees(m) && h < |held|
      modifies this`exchanges, repo
      ensures Valid() && Agrees(m) && exchanges == old(exchanges) + [Updated(old(Value(held[h])), found)]
    {
      hide After, MapSays, Lists, Answers, Effect, Parts;
      ghost var before := exchanges;
      ghost var stored := repo.Contents();
      ghost var r := Value(held[h]);
      UpdateMeans(stored, r);
      found := repo.Update(held[h]);
      exchanges := exchanges + [Updated(r, found)];
      MoreAgreement(m, before, stored, Updated(r, found));
    }

    method CallGet(id: string, ghost m: map<string, Record>) returns (ghost x: Exchange)
      requires Valid() && Agrees(m)
      modifies this`held, this`Owned, this`exchanges
      ensures Valid() && Agrees(m) && old(Owned) <= Owned && fresh(Owned - old(Owned))
      ensures exchanges == old(exchanges) + [x] && Fits(Turn(Get(id), |old(held)|, [x], |held|))
    {
      hide After, MapSays;
      var found, inv := repo.GetByID(id);
      x := Got(id, if found then Some(Value(inv)) else None);
      Receive(if found then [inv] else [], x, m);
    }

    method CallList(ghost m: map<string, Record>) returns (ghost x: Exchange)
      requires Valid() && Agrees(m)
      modifies this`held, this`Owned, this`exchanges
      ensures Valid() && Agrees(m) && old(Owned) <= Owned && fresh(Owned - old(Owned))
      ensures exchanges == old(exchanges) + [x] && Fits(Turn(ListAll, |old(held)|, [x], |held|))
    {
      hide After, MapSays, Lists, DeadIDs;
      var list, values := repo.List();
      x := Listed(values);
      Receive(list, x, m);
    }

    method CallDeadLetters(ghost m: map<string, Record>) returns (ghost x: Exchange)
      requires Valid() && Agrees(m)
      modifies this`held, this`Owned, this`exchanges
      ensures Valid() && Agrees(m) && old(Owned) <= Owned && fresh(Owned - old(Owned))
      ensures exchanges == old(exchanges) + [x] && Fits(Turn(DeadLetters, |old(held)|, [x], |held|))
    {
      hide After, MapSays, Lists, DeadIDs;
      var list, values := repo.ListDeadLetter();
      x := ListedDead(values);
      Receive(list, x, m);
    }

    /** Keep what a read has returned. */
    method Receive(list: seq<AsyncInvocation>, ghost x: Exchange, ghost m: map<string, Record>)
      requires Valid() && Agrees(m) && !x.Created? && !x.Updated? && Answers(repo.Contents(), x)
      requires forall a <- list :: Parts(a) !! repo.Repr && this !in Parts(a) && repo !in Parts(a)
      modifies this`held, this`Owned, this`exchanges
      ensures Valid() && Agrees(m) && Owned == old(Owned) + AllParts(list)
      ensures |held| == |old(held)| + |list| && exchanges == old(exchanges) + [x]
    {
      hide After, MapSays, Answers, Parts, AllParts;
      MoreAgreement(m, exchanges, repo.Contents(), x);
      exchanges := exchanges + [x];
      HoldAll(list);
    }

    method HoldAll(list: seq<AsyncInvocation>)
      requires Valid()
      requires forall a <- list :: Parts(a) !! repo.Repr && this !in Parts(a) && repo !in Parts(a)
      modifies this`held, this`Owned
      ensures Valid() && Owned == old(Owned) + AllParts(list) && |held| == |old(held)| + |list|
    {
      hide Parts;
      for i := 0 to |list|
        invariant Valid() && Owned == old(Owned) + AllParts(list[..i]) && |held| == |old(held)| + i
      {
        assert list[i] in list;
        assert list[..i + 1] == list[..i] + [list[i]];
        Hold(list[i]);
      }
      assert list[..|list|] == list;
    }

    /** A call on the repository: what comes back is what a map of values would say. */
    method Talk(c: Command, ghost m: map<string, Record>) returns (ghost said: seq<Exchange>)
      requires Valid() && Agrees(m) && (c.Create? || c.Update? || c.Get? || c.ListAll? || c.DeadLetters?)
      modifies this`held, this`Owned, this`exchanges, repo
      ensures Valid() && Agrees(m) && old(Owned) <= Owned && fresh(Owned - old(Owned))
      ensures exchanges == old(exchanges) + said && Fits(Turn(c, |old(held)|, said, |held|))
    {
      hide After, MapSays, Answers;
      said := [];
      match c {
        case Create(h) =>
          if h < |held| {
            said := [Created(Value(held[h]))];
            CallCreate(h, m);
          }
        case Update(h) =>
          if h < |held| {
            ghost var r := Value(held[h]);
            var found := CallUpdate(h, m);
            said := [Updated(r, found)];
          }
        case Get(id) =>
          ghost var x := CallGet(id, m);
          said := [x];
        case ListAll =>
          ghost var x := CallList(m);
          said := [x];
        case DeadLetters =>
          ghost var x := CallDeadLetters(m);
          said := [x];
      }
    }

    /**
     Heap isolation: whatever a client does with the structs and cells it passed in or got back, in any order, the
     repository answers as a plain map of values does.
     */
    method Run(cmds: seq<Command>) returns (ghost turns: seq<Turn>)
      requires Valid() && exchanges == []
      modifies this`held, this`Owned, this`exchanges, Owned, repo
      ensures Valid()
      ensures Turns(turns, cmds, |old(held)|, |held|) && exchanges == Said(turns)
      ensures MapSays(old(repo.Contents()), exchanges)
      ensures repo.Contents() == After(old(repo.Contents()), exchanges)
    {
      hide Turns, Said, Fits, After, MapSays;
      ghost var m := repo.Contents();
      turns := [];
      NoTurns(|held|);
      NoExchanges(m);
      for i := 0 to |cmds|
        invariant Valid() && old(Owned) <= Owned && fresh(Owned - old(Owned))
        invariant Agrees(m) && Turns(turns, cmds[..i], |old(held)|, |held|) && exchanges == Said(turns)
      {
        var c := cmds[i];
        ghost var had, said := |held|, [];
        if c.Create? || c.Update? || c.Get? || c.ListAll? || c.DeadLetters? {
          said := Talk(c, m);
        } else {
          TouchOwn(c);
        }
        OneMoreTurn(turns, cmds[..i], |old(held)|, Turn(c, had, said, |held|));
        assert cmds[..i + 1] == cmds[..i] + [c];
        turns := turns + [Turn(c, had, said, |held|)];
      }
      assert cmds[..|cmds|] == cmds;
    }
  }

  lemma NoTurns(had: nat)
    ensures Turns([], [], had, had) && Said([]) == []
  {
  }

  lemma NoExchanges(m: map<string, Record>)
    ensures MapSays(m, []) && After(m, []) == m
  {
  }

  // The map the repository refines

  /** The last value written under an id is what a read returns. */
  lemma {:induction false} ReadsReturnTheLastWrite(m: map<string, Record>, xs: seq<Exchange>, ys: seq<Exchange>, w: Exchange, id: string)
    requires w.Created? || (w.Updated? && w.found)
    requires w.r.id == id && forall y <- ys :: (y.Created? || y.Updated?) ==> y.r.id != id
    ensures id in After(m, xs + [w] + ys) && After(m, xs + [w] + ys)[id] == w.r
    ensures forall r: Option<Record> :: MapSays(m, xs + [w] + ys + [Got(id, r)]) ==> r == Some(w.r)
    ensures forall r: Record, found: bool :: r.id == id && MapSays(m, xs + [w] + ys + [Updated(r, found)]) ==> found
  {
    forall r: Record, found: bool | r.id == id && MapSays(m, xs + [w] + ys + [Updated(r, found)]) ensures found {
      OneMoreExchange(m, xs + [w] + ys, Updated(r, found));
      UntouchedAfter(m, xs + [w], ys, id);
      assert (xs + [w])[..|xs|] == xs;
    }
    UntouchedAfter(m, xs + [w], ys, id);
    assert (xs + [w])[..|xs|] == xs;
    forall r: Option<Record> | MapSays(m, xs + [w] + ys + [Got(id, r)]) ensures r == Some(w.r) {
      OneMoreExchange(m, xs + [w] + ys, Got(id, r));
    }
  }

  lemma {:induction false} UntouchedAfter(m: map<string, Record>, xs: seq<Exchange>, ys: seq<Exchange>, id: string)
    requires forall y <- ys :: (y.Created? || y.Updated?) ==> y.r.id != id
    requires id in After(m, xs)
    ensures id in After(m, xs + ys) && After(m, xs + ys)[id] == After(m, xs)[id]
    decreases |ys|
  {
    if ys == [] {
      assert xs + ys == xs;
    } else {
      var n := |ys| - 1;
      UntouchedAfter(m, xs, ys[..n], id);
      assert (xs + ys)[..|xs + ys| - 1] == xs + ys[..n];
      assert ys[n] in ys;
    }
  }
}
