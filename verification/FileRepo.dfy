/**
 The function repository: a map in memory, committed to one file by writing a temporary file, syncing it, closing it
 and renaming it over the target. Any of these may fail, and the process may die before any of them.
 */
module FileRepo {
  import opened Domain

  type Functions = map<string, Function>

  /** A file's contents, as far as loading can tell: nothing, something that does not parse, or a whole map. */
  datatype Content = Empty | Unparsable | Whole(m: Functions)

  type File = Option<Content>

  datatype Phase = Opening | Writing | Syncing | Closing | Renaming

  /**
   What goes wrong during a save: nothing; an operation fails (`removed` tells whether the clean-up of the temporary
   file works); or the process dies before an operation completes, or after the last one and before Save returns.
   */
  datatype Fault = NoFault | Fails(at: Phase, removed: bool) | Dies(at: Phase) | DiesRenamed

  datatype SaveOutcome = Saved | SaveFailed(at: Phase) | Dead

  /** Loading: a missing or empty file is an empty map, anything that does not parse is an error. */
  function Load(f: File): Option<Functions> {
    match f
    case None => Some(map[])
    case Some(Empty) => Some(map[])
    case Some(Unparsable) => None
    case Some(Whole(m)) => Some(m)
  }

  /** The rename took place. */
  predicate Commits(fault: Fault) {
    fault.NoFault? || fault.DiesRenamed?
  }

  predicate Kills(fault: Fault) {
    fault.Dies? || fault.DiesRenamed?
  }

  class Disk {
    var target: File
    var temp: File

    constructor (target: File)
      ensures this.target == target && temp == None
    {
      this.target, temp := target, None;
    }

    method RemoveTemp(works: bool)
      modifies this`temp
      ensures temp == if works then None else old(temp)
    {
      if works { temp := None; }
    }
  }

  class FileFunctionRepository {
    var items: Functions
    const disk: Disk

    constructor (disk: Disk, items: Functions)
      ensures this.disk == disk && this.items == items
    {
      this.disk, this.items := disk, items;
    }

    /** Start on the disk; None when the file does not parse. */
    static method Open(disk: Disk) returns (repo: Option<FileFunctionRepository>)
      ensures repo.Some? <==> Load(disk.target).Some?
      ensures repo.Some? ==>
                fresh(repo.value) && repo.value.disk == disk && repo.value.items == Load(disk.target).value
      ensures disk.target == None || disk.target == Some(Empty) ==> repo.Some? && repo.value.items == map[]
      ensures disk.target == Some(Unparsable) ==> repo == None
      ensures forall m :: disk.target == Some(Whole(m)) ==> repo.Some? && repo.value.items == m
    {
      match disk.target
      case None => repo := Started(disk, map[]);
      case Some(Empty) => repo := Started(disk, map[]);
      case Some(Unparsable) => repo := None;
      case Some(Whole(m)) => repo := Started(disk, m);
    }

    static method Started(disk: Disk, items: Functions) returns (repo: Option<FileFunctionRepository>)
      ensures repo.Some? && fresh(repo.value) && repo.value.disk == disk && repo.value.items == items
    {
      var r := new FileFunctionRepository(disk, items);
      repo := Some(r);
    }

    /** Commit the map in memory to disk, or leave the target as it was. */
    method Persist(fault: Fault) returns (outcome: SaveOutcome)
      modifies disk
      ensures disk.target == if fault == NoFault || fault == DiesRenamed then Some(Whole(items)) else old(disk.target)
      ensures outcome == match fault
                         case NoFault => Saved
                         case Fails(at, _) => SaveFailed(at)
                         case _ => Dead
      ensures fault == NoFault || fault == DiesRenamed ==> disk.temp == None
      ensures fault.Fails? && fault.at == Opening ==> disk.temp == old(disk.temp)
      ensures fault.Fails? && fault.at != Opening && fault.removed ==> disk.temp == None
    {
      var removed := fault.Fails? && fault.removed;
      if fault.Dies? && fault.at.Opening? { return Dead; }
      if fault.Fails? && fault.at.Opening? { return SaveFailed(Opening); }
      disk.temp := Some(Empty);
      if fault.Dies? && fault.at.Writing? {
        disk.temp := Some(Unparsable);
        return Dead;
      }
      if fault.Fails? && fault.at.Writing? {
        disk.temp := Some(Unparsable);
        disk.RemoveTemp(removed);
        return SaveFailed(Writing);
      }
      disk.temp := Some(Whole(items));
      if fault.Dies? && fault.at.Syncing? { return Dead; }
      if fault.Fails? && fault.at.Syncing? {
        disk.RemoveTemp(removed);
        return SaveFailed(Syncing);
      }
      if fault.Dies? && fault.at.Closing? { return Dead; }
      if fault.Fails? && fault.at.Closing? {
        disk.RemoveTemp(removed);
        return SaveFailed(Closing);
      }
      if fault.Dies? && fault.at.Renaming? { return Dead; }
      if fault.Fails? && fault.at.Renaming? {
        disk.RemoveTemp(removed);
        return SaveFailed(Renaming);
      }
      disk.target, disk.temp := disk.temp, None;
      if fault == DiesRenamed { return Dead; }
      return Saved;
    }

    method Save(fn: Function, fault: Fault) returns (outcome: SaveOutcome)
      modifies this`items, disk
      ensures items == old(items)[fn.id := fn]
      ensures disk.target == if fault == NoFault || fault == DiesRenamed then Some(Whole(items)) else old(disk.target)
      ensures outcome == match fault
                         case NoFault => Saved
                         case Fails(at, _) => SaveFailed(at)
                         case _ => Dead
      ensures fault == NoFault ==> disk.temp == None
    {
      items := items[fn.id := fn];
      outcome := Persist(fault);
    }

    method GetByID(id: string) returns (fn: Option<Function>)
      ensures fn == if id in items then Some(items[id]) else None
    {
      fn := if id in items then Some(items[id]) else None;
    }

    /** The id wins over the name; among functions of the same name any one may be returned. */
    method GetByNameOrID(identifier: string) returns (fn: Option<Function>)
      ensures identifier in items ==> fn == Some(items[identifier])
      ensures identifier !in items && fn.Some? ==> fn.value in items.Values && fn.value.name == identifier
      ensures fn.None? <==> identifier !in items && forall id | id in items :: items[id].name != identifier
    {
      if identifier in items {
        return Some(items[identifier]);
      }
      var left := items.Keys;
      while left != {}
        invariant left <= items.Keys
        invariant forall id | id in items && id !in left :: items[id].name != identifier
        decreases left
      {
        var id :| id in left;
        if items[id].name == identifier {
          return Some(items[id]);
        }
        left := left - {id};
      }
      return None;
    }
  }

  // Whole lives of the repository

  /** A save, with what happens to it, or a restart of the process. A process that dies is restarted. */
  datatype Event = SaveEvent(fn: Function, fault: Fault) | Restart

  predicate EventCommits(e: Event) {
    e.SaveEvent? && Commits(e.fault)
  }

  predicate EventRestarts(e: Event) {
    e.Restart? || Kills(e.fault)
  }

  /**
   The journal of a history: the saves that are on disk, in order, and those that are only in memory because their
   commit failed. A commit takes all of them to disk; a restart loses those that are only in memory.
   */
  datatype Journal = Journal(committed: seq<Function>, ahead: seq<Function>)

  function After(j: Journal, e: Event): Journal {
    if EventCommits(e) then Journal(j.committed + j.ahead + [e.fn], [])
    else if EventRestarts(e) then Journal(j.committed, [])
    else Journal(j.committed, j.ahead + [e.fn])
  }

  function JournalOf(es: seq<Event>): Journal {
    if es == [] then Journal([], [])
    else
      After(JournalOf(es[..|es| - 1]), es[|es| - 1])
  }

  /** The map a sequence of saves builds on top of another. */
  function Fold(m: Functions, fns: seq<Function>): Functions {
    if fns == [] then m
    else
      var fn := fns[|fns| - 1];
      Fold(m, fns[..|fns| - 1])[fn.id := fn]
  }

  lemma FoldOneMore(m: Functions, fns: seq<Function>, fn: Function)
    ensures Fold(m, fns + [fn]) == Fold(m, fns)[fn.id := fn]
  {
    assert (fns + [fn])[..|fns|] == fns;
  }

  lemma JournalOneMore(es: seq<Event>, e: Event)
    ensures JournalOf(es + [e]) == After(JournalOf(es), e)
  {
    assert (es + [e])[..|es|] == es;
  }

  /**
   Crash atomicity. Over any history of saves, failures, crashes and restarts, what a restart would load is exactly
   the map of the committed saves, never a torn one, and memory is that map plus the saves that failed to commit.
   */
  method Live(disk: Disk, es: seq<Event>) returns (repo: FileFunctionRepository)
    requires Load(disk.target).Some?
    modifies disk
    ensures repo.disk == disk
    ensures var m0, j := old(Load(disk.target)).value, JournalOf(es);
            && Load(disk.target) == Some(Fold(m0, j.committed))
            && repo.items == Fold(m0, j.committed + j.ahead)
  {
    ghost var m0 := Load(disk.target).value;
    repo := Reopen(disk);
    for i := 0 to |es|
      invariant repo.disk == disk && fresh(repo)
      invariant Stands(m0, JournalOf(es[..i]), disk.target, repo.items)
    {
      assert es[..i + 1] == es[..i] + [es[i]];
      JournalOneMore(es[..i], es[i]);
      repo := LiveOn(repo, es[i], m0, JournalOf(es[..i]));
    }
    assert es[..|es|] == es;
  }

  /** Disk and memory are what the journal says. */
  ghost predicate Stands(m0: Functions, j: Journal, target: File, items: Functions) {
    Load(target) == Some(Fold(m0, j.committed)) && items == Fold(m0, j.committed + j.ahead)
  }

  /** One event in the life of the repository; a dead process is replaced by a new one on the same disk. */
  method LiveOn(repo: FileFunctionRepository, e: Event, ghost m0: Functions, ghost j: Journal)
    returns (next: FileFunctionRepository)
    requires Stands(m0, j, repo.disk.target, repo.items)
    modifies repo`items, repo.disk
    ensures next.disk == repo.disk && (next == repo || fresh(next))
    ensures Stands(m0, After(j, e), repo.disk.target, next.items)
  {
    hide Fold, After, Stands;
    next := repo;
    match e {
      case Restart =>
        Restarted(m0, j, e, repo.disk.target, repo.items);
        next := Reopen(repo.disk);
      case SaveEvent(fn, fault) =>
        Committed(m0, j, e, repo.disk.target, repo.items);
        Restarted(m0, j, e, repo.disk.target, repo.items);
        OnlyInMemory(m0, j, e, repo.disk.target, repo.items);
        var outcome := repo.Save(fn, fault);
        if outcome.Dead? {
          next := Reopen(repo.disk);
        }
    }
  }

  method Reopen(disk: Disk) returns (repo: FileFunctionRepository)
    requires Load(disk.target).Some?
    ensures fresh(repo) && repo.disk == disk && repo.items == Load(disk.target).value
  {
    var start := FileFunctionRepository.Open(disk);
    repo := start.value;
  }

  lemma Committed(m0: Functions, j: Journal, e: Event, target: File, items: Functions)
    requires Stands(m0, j, target, items)
    ensures EventCommits(e) ==>
              var now := items[e.fn.id := e.fn]; Stands(m0, After(j, e), Some(Whole(now)), now)
  {
    if EventCommits(e) {
      FoldOneMore(m0, j.committed + j.ahead, e.fn);
      assert j.committed + j.ahead + [e.fn] + [] == j.committed + j.ahead + [e.fn];
    }
  }

  lemma Restarted(m0: Functions, j: Journal, e: Event, target: File, items: Functions)
    requires Stands(m0, j, target, items)
    ensures Load(target).Some?
    ensures EventRestarts(e) && !EventCommits(e) ==> Stands(m0, After(j, e), target, Load(target).value)
  {
    assert j.committed + [] == j.committed;
  }

  lemma OnlyInMemory(m0: Functions, j: Journal, e: Event, target: File, items: Functions)
    requires Stands(m0, j, target, items)
    ensures !EventRestarts(e) && !EventCommits(e) ==> Stands(m0, After(j, e), target, items[e.fn.id := e.fn])
  {
    if e.SaveEvent? {
      FoldOneMore(m0, j.committed + j.ahead, e.fn);
      assert j.committed + (j.ahead + [e.fn]) == j.committed + j.ahead + [e.fn];
    }
  }

  /** What each kind of event does to the journal. */
  lemma JournalSteps(es: seq<Event>, fn: Function, fault: Fault)
    ensures var j, more := JournalOf(es), JournalOf(es + [SaveEvent(fn, fault)]);
            match fault
            case NoFault => more == Journal(j.committed + j.ahead + [fn], [])
            case DiesRenamed => more == Journal(j.committed + j.ahead + [fn], [])
            case Fails(_, _) => more == Journal(j.committed, j.ahead + [fn])
            case Dies(_) => more == Journal(j.committed, [])
    ensures JournalOf(es + [Restart]) == Journal(JournalOf(es).committed, [])
    ensures JournalOf([]) == Journal([], [])
  {
    JournalOneMore(es, SaveEvent(fn, fault));
    JournalOneMore(es, Restart);
  }

  /** In the map saves add up to, each id has the function last saved under it, or what was there before. */
  lemma {:induction false} LastSaveWins(m: Functions, fns: seq<Function>, i: nat, other: string)
    ensures i < |fns| && (forall j | i < j < |fns| :: fns[j].id != fns[i].id) ==>
              fns[i].id in Fold(m, fns) && Fold(m, fns)[fns[i].id] == fns[i]
    ensures (forall fn <- fns :: fn.id != other) ==>
              (other in Fold(m, fns) <==> other in m) && (other in m ==> Fold(m, fns)[other] == m[other])
    decreases |fns|
  {
    if fns != [] { LastSaveWins(m, fns[..|fns| - 1], i, other); }
  }

  /** The position just after the last event whose rename happened, or 0. */
  function LastCommit(es: seq<Event>): (k: nat)
    ensures k <= |es|
    ensures k > 0 ==> EventCommits(es[k - 1])
    ensures forall i | k <= i < |es| :: !EventCommits(es[i])
  {
    if es == [] then 0
    else if EventCommits(es[|es| - 1]) then |es|
    else LastCommit(es[..|es| - 1])
  }

  /** The disk holds memory as it was right after the last save whose rename happened. */
  lemma {:induction false} DiskIsMemoryAtLastCommit(es: seq<Event>)
    ensures var at := JournalOf(es[..LastCommit(es)]);
            JournalOf(es).committed == at.committed == at.committed + at.ahead
    decreases |es|
  {
    if es == [] {
      assert es[..0] == es;
    } else if EventCommits(es[|es| - 1]) {
      assert es[..|es|] == es;
    } else {
      var before := es[..|es| - 1];
      DiskIsMemoryAtLastCommit(before);
      assert before[..LastCommit(before)] == es[..LastCommit(es)];
    }
  }

  /**
   A save that fails leaves memory ahead of the disk, whatever failed and however the clean-up went; the next one that
   succeeds commits both functions. `between` is what a restart after the failure would have loaded.
   */
  method FailedSaveThenSave(repo: FileFunctionRepository, fn: Function, at: Phase, removed: bool, next: Function)
    returns (first: SaveOutcome, second: SaveOutcome, between: File, ahead: Functions)
    modifies repo`items, repo.disk
    ensures first == SaveFailed(at) && second == Saved
    ensures between == old(repo.disk.target) && ahead == old(repo.items)[fn.id := fn]
    ensures repo.items == old(repo.items)[fn.id := fn][next.id := next]
    ensures repo.disk.target == Some(Whole(repo.items)) && repo.disk.temp == None
  {
    first := repo.Save(fn, Fails(at, removed));
    between, ahead := repo.disk.target, repo.items;
    second := repo.Save(next, NoFault);
  }

  /**
   When a lookup by id returns a function with that id: for every function once saved, and for those of the file the
   process started with exactly if they were filed so there. A misfiled one is put right by the next save under its key.
   */
  lemma {:induction false} FunctionsAreKeyedById(m: Functions, fns: seq<Function>)
    ensures forall id | id in Fold(m, fns) ::
              if exists fn <- fns :: fn.id == id then Fold(m, fns)[id].id == id else id in m && Fold(m, fns)[id] == m[id]
    ensures forall id | id in m :: id in Fold(m, fns)
    ensures (forall id | id in Fold(m, fns) :: Fold(m, fns)[id].id == id) <==>
            (forall id | id in m && m[id].id != id :: exists fn <- fns :: fn.id == id)
  {
    if fns != [] {
      var rest, fn := fns[..|fns| - 1], fns[|fns| - 1];
      FunctionsAreKeyedById(m, rest);
      assert fns == rest + [fn];
    }
  }
}
