/**
 * Guarded long-term memory of one user and kind. Every mutation loads a guard row, writes the Store through
 * its own autocommit connection, and commits the guard; a crash in between keeps the Store write only.
 */
module MemoryGuard {
  import opened Events

  /** A Store item; a missing guard version reads as 0. */
  datatype Item = Item(fields: map<string, string>, version: nat, job: Option<string>)

  datatype Guard = Guard(version: nat, deletions: nat, deletedAt: Option<int>, manualAt: Option<int>,
                         job: Option<string>)

  /** Guard row and Store item of one memory id. */
  datatype Cell = Cell(guard: Option<Guard>, item: Option<Item>)

  /** How far a mutation gets: not to its Store write, just past it, or to its commit. */
  datatype Fate = BeforeStore | AfterStore | Committed

  datatype Operation = Create | Update | Noop

  datatype Proposal = Proposal(operation: Operation, target: string, base: Option<nat>, fields: map<string, string>)

  datatype Result = Applied(version: nat) | Stale | Skipped | Interrupted

  const NO_CELL := Cell(None, None)

  /** The id of a created item. The hash of the code is replaced by its argument: equal only for equal jobs. */
  function DeterministicId(job: string): string {
    "memory-reflection:" + job
  }

  /** `_guard`: the row, or one made from what the item says about itself. */
  function LoadGuard(c: Cell): Guard {
    match c.guard
    case Some(g) => g
    case None =>
      match c.item
      case Some(i) => Guard(i.version, 0, None, None, i.job)
      case None => Guard(0, 0, None, None, None)
  }

  /** `put_memory_item`: new fields are laid over the old ones. */
  function Put(existing: Option<Item>, fields: map<string, string>, version: nat, job: Option<string>): Item {
    Item((if existing.Some? then existing.value.fields else map[]) + fields, version, job)
  }

  /** The three possible cells after a mutation that wants `guard` and `item`. */
  function Reach(c: Cell, guard: Guard, item: Option<Item>, fate: Fate): Cell {
    match fate
    case BeforeStore => c
    case AfterStore => Cell(c.guard, item)
    case Committed => Cell(Some(guard), item)
  }

  function CreateCell(c: Cell, fields: map<string, string>, now: int, fate: Fate): Cell {
    var g := LoadGuard(c);
    Reach(c, Guard(g.version + 1, g.deletions, None, Some(now), g.job),
          Some(Put(c.item, fields, g.version + 1, None)), fate)
  }

  function UpdateCell(c: Cell, fields: map<string, string>, now: int, fate: Fate): Cell {
    var g := LoadGuard(c);
    Reach(c, Guard(g.version + 1, g.deletions, None, Some(now), None),
          Some(Put(c.item, fields, g.version + 1, None)), fate)
  }

  function DeleteCell(c: Cell, now: int, fate: Fate): Cell {
    var g := LoadGuard(c);
    Reach(c, Guard(g.version + 1, g.deletions + 1, Some(now), Some(now), None), None, fate)
  }

  /** The job left its mark on the guard, or on the item of an interrupted attempt. */
  predicate MarkedOnGuard(c: Cell, job: string) {
    LoadGuard(c).job == Some(job)
  }

  predicate MarkedOnItem(c: Cell, job: string) {
    c.item.Some? && c.item.value.job == Some(job)
  }

  /** One of the checks against a newer state sends the proposal away. */
  predicate Refused(c: Cell, captured: int, p: Proposal, duplicate: bool) {
    var g := LoadGuard(c);
    || (p.operation == Create && duplicate)
    || (g.manualAt.Some? && g.manualAt.value > captured)
    || g.deletedAt.Some?
    || (p.operation == Update && p.base != Some(g.version))
  }

  predicate Writes(c: Cell, job: string, captured: int, p: Proposal, duplicate: bool) {
    !MarkedOnGuard(c, job) && !MarkedOnItem(c, job) && !Refused(c, captured, p, duplicate)
  }

  /** `apply_automatic` on the cell of its memory id. */
  function ApplyCell(c: Cell, job: string, captured: int, p: Proposal, duplicate: bool, fate: Fate): (Cell, Result) {
    var g := LoadGuard(c);
    if MarkedOnGuard(c, job) then
      (if fate == Committed then Cell(Some(g), c.item) else c,
       if fate == Committed then Applied(g.version) else Interrupted)
    else if MarkedOnItem(c, job) then
      var version := if c.item.value.version > g.version then c.item.value.version else g.version;
      (if fate == Committed then Cell(Some(g.(version := version, job := Some(job), deletedAt := None)), c.item) else c,
       if fate == Committed then Applied(version) else Interrupted)
    else if Refused(c, captured, p, duplicate) then (c, if fate == Committed then Stale else Interrupted)
    else
      (Reach(c, g.(version := g.version + 1, job := Some(job), deletedAt := None),
             Some(Put(c.item, p.fields, g.version + 1, Some(job))), fate),
       if fate == Committed then Applied(g.version + 1) else Interrupted)
  }

  // ----- what the mutations answer and leave -----

  /** The version a mutation starts from: the guard's, or the item's own, or none at all. */
  function VersionRead(c: Cell): nat {
    if c.guard.Some? then c.guard.value.version else if c.item.Some? then c.item.value.version else 0
  }

  predicate Unmarked(c: Cell, job: string) {
    && (c.guard.Some? ==> c.guard.value.job != Some(job))
    && (c.item.Some? ==> c.item.value.job != Some(job))
  }

  /** A manual mutation of the memory is younger than the job, or a tombstone stands. */
  predicate Overruled(c: Cell, captured: int) {
    c.guard.Some? &&
    ((c.guard.value.manualAt.Some? && c.guard.value.manualAt.value > captured) || c.guard.value.deletedAt.Some?)
  }

  /** The proposal itself has been overtaken: a creation by its twin, an update by another version. */
  predicate Overtaken(c: Cell, p: Proposal, duplicate: bool) {
    if p.operation == Create then duplicate else p.base != Some(VersionRead(c))
  }

  /** These fields in the item, over the ones it had. */
  predicate Holds(item: Option<Item>, before: Option<Item>, fields: map<string, string>) {
    item.Some? &&
    var had := if before.Some? then before.value.fields else map[];
    && item.value.fields.Keys == had.Keys + fields.Keys
    && forall name :: name in item.value.fields ==>
         item.value.fields[name] == if name in fields then fields[name] else had[name]
  }

  /**
   * The answer to an automatic proposal that left no mark yet: applied, with the proposal's fields stored over the
   * old ones one version further under the job's mark, if and only if nothing overruled or overtook it; otherwise
   * stale, and nothing changes.
   */
  lemma AutomaticAnswer(c: Cell, job: string, captured: int, p: Proposal, duplicate: bool)
    requires Unmarked(c, job) && p.operation != Noop
    ensures var (c', answer) := ApplyCell(c, job, captured, p, duplicate, Committed);
            var version := VersionRead(c) + 1;
            if Overruled(c, captured) || Overtaken(c, p, duplicate) then answer == Stale && c' == c
            else
              && answer == Applied(version)
              && Holds(c'.item, c.item, p.fields)
              && c'.item.value.version == version && c'.item.value.job == Some(job)
              && c'.guard.Some? && c'.guard.value.version == version && c'.guard.value.job == Some(job)
              && c'.guard.value.deletedAt == None
              && c'.guard.value.manualAt == (if c.guard.Some? then c.guard.value.manualAt else None)
              && c'.guard.value.deletions == (if c.guard.Some? then c.guard.value.deletions else 0)
  {
  }

  /**
   * The answer when the job's mark stands already: applied again, whatever is proposed now. The item stays, and the
   * guard carries the mark and the highest version seen.
   */
  lemma RepeatedAnswer(c: Cell, job: string, captured: int, p: Proposal, duplicate: bool)
    requires !Unmarked(c, job)
    ensures var (c', answer) := ApplyCell(c, job, captured, p, duplicate, Committed);
            var own := if c.item.Some? && c.item.value.job == Some(job) then c.item.value.version else 0;
            && c'.item == c.item && c'.guard.Some? && c'.guard.value.job == Some(job)
            && answer == Applied(c'.guard.value.version)
            && c'.guard.value.version ==
               (if (c.guard.Some? && c.guard.value.job == Some(job)) || own <= VersionRead(c) then VersionRead(c)
                else own)
            && (c.guard.Some? ==>
                  && c'.guard.value.manualAt == c.guard.value.manualAt
                  && c'.guard.value.deletions == c.guard.value.deletions
                  && c'.guard.value.deletedAt ==
                     (if c.guard.value.job == Some(job) then c.guard.value.deletedAt else None))
            && (c.guard.None? ==>
                  c'.guard.value.manualAt == None && c'.guard.value.deletedAt == None && c'.guard.value.deletions == 0)
  {
  }

  /** A crash: nothing is answered, the guard row stays, and the Store has what the whole mutation puts there or not. */
  lemma CrashLeaves(c: Cell, job: string, captured: int, p: Proposal, duplicate: bool, fate: Fate)
    requires fate != Committed
    ensures var (c', answer) := ApplyCell(c, job, captured, p, duplicate, fate);
            && answer == Interrupted && c'.guard == c.guard
            && c'.item == (if fate == BeforeStore then c.item
                           else ApplyCell(c, job, captured, p, duplicate, Committed).0.item)
  {
  }

  /** Manual mutations are never refused: version and time move on, tombstone and marks go as the kind demands. */
  lemma ManualCells(c: Cell, fields: map<string, string>, now: int)
    ensures var version := VersionRead(c) + 1;
            var created, updated, deleted :=
              CreateCell(c, fields, now, Committed), UpdateCell(c, fields, now, Committed),
              DeleteCell(c, now, Committed);
            && (forall c' :: c' in {created, updated, deleted} ==>
                  && c'.guard.Some? && c'.guard.value.version == version && c'.guard.value.manualAt == Some(now))
            && (forall c' :: c' in {created, updated} ==>
                  && c'.guard.value.deletedAt == None && Holds(c'.item, c.item, fields)
                  && c'.guard.value.deletions == (if c.guard.Some? then c.guard.value.deletions else 0)
                  && c'.item.value.version == version && c'.item.value.job == None)
            && updated.guard.value.job == None && deleted.guard.value.job == None
            && (Unguarded(c) ==> created.guard.value.job == None)
            && deleted.item == None && deleted.guard.value.deletedAt == Some(now)
            && deleted.guard.value.deletions == (if c.guard.Some? then c.guard.value.deletions else 0) + 1
  {
  }

  /** Neither guard row nor item, as for the fresh id of a creation. */
  predicate Unguarded(c: Cell) {
    c.guard == None && c.item == None
  }

  lemma ManualCrashLeaves(c: Cell, fields: map<string, string>, now: int, fate: Fate)
    requires fate != Committed
    ensures CreateCell(c, fields, now, fate).guard == c.guard == UpdateCell(c, fields, now, fate).guard
    ensures DeleteCell(c, now, fate).guard == c.guard
    ensures fate == BeforeStore ==>
              CreateCell(c, fields, now, fate).item == c.item == UpdateCell(c, fields, now, fate).item
              && DeleteCell(c, now, fate).item == c.item
    ensures fate == AfterStore ==>
              && CreateCell(c, fields, now, fate).item == CreateCell(c, fields, now, Committed).item
              && UpdateCell(c, fields, now, fate).item == UpdateCell(c, fields, now, Committed).item
              && DeleteCell(c, now, fate).item == None
  {
  }

  // ----- crash and retry -----

  /** One more attempt for the same job and id; its proposal, capture time and duplicate check are arbitrary. */
  datatype Attempt = Attempt(captured: int, proposal: Proposal, duplicate: bool, fate: Fate)

  function Retry(c: Cell, job: string, attempts: seq<Attempt>): Cell
    decreases |attempts|
  {
    if attempts == [] then c
    else
      var a := attempts[0];
      Retry(ApplyCell(c, job, a.captured, a.proposal, a.duplicate, a.fate).0, job, attempts[1..])
  }

  predicate SomeCommitted(attempts: seq<Attempt>) {
    exists i :: 0 <= i < |attempts| && attempts[i].fate == Committed
  }

  lemma {:induction false} RetryAfterCommit(c: Cell, job: string, attempts: seq<Attempt>)
    requires c.guard.Some? && MarkedOnGuard(c, job)
    ensures Retry(c, job, attempts) == c
    decreases |attempts|
  {
    if attempts != [] {
      RetryAfterCommit(c, job, attempts[1..]);
    }
  }

  /**
   * Crash-retry equivalence: a write interrupted after its Store put and then attempted again any number of
   * times, with whatever proposals, stays as the crash left it until one attempt commits, and from then on
   * is exactly the cell of one uninterrupted write; whether or not a guard row existed before.
   */
  lemma {:induction false} CrashThenRetry(c: Cell, job: string, captured: int, p: Proposal, duplicate: bool,
                                          attempts: seq<Attempt>)
    requires Writes(c, job, captured, p, duplicate)
    ensures var crashed := ApplyCell(c, job, captured, p, duplicate, AfterStore).0;
            var whole := ApplyCell(c, job, captured, p, duplicate, Committed).0;
            Retry(crashed, job, attempts) == if SomeCommitted(attempts) then whole else crashed
    ensures attempts != [] && attempts[0].fate == Committed ==>
              var a, crashed := attempts[0], ApplyCell(c, job, captured, p, duplicate, AfterStore).0;
              ApplyCell(crashed, job, a.captured, a.proposal, a.duplicate, a.fate) ==
                ApplyCell(c, job, captured, p, duplicate, Committed)
    decreases |attempts|
  {
    if attempts != [] {
      var rest := attempts[1..];
      assert SomeCommitted(attempts) <==> attempts[0].fate == Committed || SomeCommitted(rest) by {
        if SomeCommitted(rest) {
          var i :| 0 <= i < |rest| && rest[i].fate == Committed;
          assert attempts[i + 1].fate == Committed;
        }
        if SomeCommitted(attempts) && attempts[0].fate != Committed {
          var i :| 0 <= i < |attempts| && attempts[i].fate == Committed;
          assert rest[i - 1].fate == Committed;
        }
      }
      if attempts[0].fate == Committed {
        RetryAfterCommit(ApplyCell(c, job, captured, p, duplicate, Committed).0, job, rest);
      } else {
        CrashThenRetry(c, job, captured, p, duplicate, rest);
      }
    }
  }

  // ----- the service object -----

  class MemoryService {
    var guards: map<string, Guard>
    var items: map<string, Item>
    /** How titles and contents are compared by the duplicate search. */
    const fold: string -> string
    const strip: string -> string

    constructor (fold: string -> string, strip: string -> string)
      ensures guards == map[] && items == map[]
      ensures this.fold == fold && this.strip == strip
    {
      guards, items := map[], map[];
      this.fold, this.strip := fold, strip;
    }

    function CellOf(id: string): Cell
      reads this
    {
      Cell(if id in guards then Some(guards[id]) else None, if id in items then Some(items[id]) else None)
    }

    function Guarding(id: string): Guard
      reads this
    {
      LoadGuard(CellOf(id))
    }

    function Field(fields: map<string, string>, name: string): string {
      if name in fields then fields[name] else ""
    }

    predicate Same(item: Item, p: Proposal) {
      && fold(strip(Field(item.fields, "title"))) == fold(strip(Field(p.fields, "title")))
      && strip(Field(item.fields, "content")) == strip(Field(p.fields, "content"))
    }

    /** Another item among those the Store search returned says the same. */
    predicate Duplicated(found: seq<string>, id: string, p: Proposal)
      reads this
    {
      exists i :: 0 <= i < |found| && found[i] in items && found[i] != id && Same(items[found[i]], p)
    }

    /** A twin has the same title, stripped and folded, and the same content, stripped; absent ones are empty. */
    lemma DuplicateIsTwin(found: seq<string>, id: string, p: Proposal)
      ensures var read := (fields: map<string, string>, name: string) => if name in fields then fields[name] else "";
              Duplicated(found, id, p) <==>
                exists k ::
                  && k in found && k in items && k != id
                  && fold(strip(read(items[k].fields, "title"))) == fold(strip(read(p.fields, "title")))
                  && strip(read(items[k].fields, "content")) == strip(read(p.fields, "content"))
    {
      if Duplicated(found, id, p) {
        var i :| 0 <= i < |found| && found[i] in items && found[i] != id && Same(items[found[i]], p);
        assert found[i] in found;
      }
    }

    method HasDuplicate(found: seq<string>, id: string, p: Proposal) returns (duplicate: bool)
      ensures duplicate == Duplicated(found, id, p)
    {
      var i := 0;
      while i < |found|
        invariant 0 <= i <= |found|
        invariant forall j :: 0 <= j < i ==> !(found[j] in items && found[j] != id && Same(items[found[j]], p))
      {
        if found[i] in items && found[i] != id && Same(items[found[i]], p) {
          return true;
        }
        i := i + 1;
      }
      duplicate := false;
    }

    method PutItem(id: string, fields: map<string, string>, version: nat, job: Option<string>)
      modifies this`items
      ensures items == old(items)[id := Put(old(CellOf(id)).item, fields, version, job)]
    {
      var payload := if id in items then items[id].fields else map[];
      items := items[id := Item(payload + fields, version, job)];
    }

    method CreateManual(id: string, fields: map<string, string>, now: int, fate: Fate)
      requires id !in guards && id !in items
      modifies this
      ensures CellOf(id) == CreateCell(old(CellOf(id)), fields, now, fate)
      ensures forall other :: other != id ==> CellOf(other) == old(CellOf(other))
    {
      var guard := Guarding(id);
      guard := guard.(version := guard.version + 1);
      guard := guard.(deletedAt := None, manualAt := Some(now));
      if fate == BeforeStore {
        return;
      }
      PutItem(id, fields, guard.version, None);
      if fate == AfterStore {
        return;
      }
      guards := guards[id := guard];
    }

    method UpdateManual(id: string, fields: map<string, string>, now: int, fate: Fate)
      modifies this
      ensures CellOf(id) == UpdateCell(old(CellOf(id)), fields, now, fate)
      ensures forall other :: other != id ==> CellOf(other) == old(CellOf(other))
    {
      var guard := Guarding(id);
      guard := guard.(version := guard.version + 1);
      guard := guard.(deletedAt := None, manualAt := Some(now), job := None);
      if fate == BeforeStore {
        return;
      }
      PutItem(id, fields, guard.version, None);
      if fate == AfterStore {
        return;
      }
      guards := guards[id := guard];
    }

    method DeleteManual(id: string, now: int, fate: Fate)
      modifies this
      ensures CellOf(id) == DeleteCell(old(CellOf(id)), now, fate)
      ensures forall other :: other != id ==> CellOf(other) == old(CellOf(other))
    {
      var guard := Guarding(id);
      guard := guard.(version := guard.version + 1, deletions := guard.deletions + 1);
      guard := guard.(deletedAt := Some(now), manualAt := Some(now), job := None);
      if fate == BeforeStore {
        return;
      }
      items := items - {id};
      if fate == AfterStore {
        return;
      }
      guards := guards[id := guard];
    }

    /** `apply_automatic`; `found` is what the Store search returns for the duplicate check. */
    method ApplyAutomatic(job: string, p: Proposal, captured: int, found: seq<string>, fate: Fate)
      returns (id: string, result: Result)
      modifies this
      ensures id == if p.operation == Create then DeterministicId(job) else p.target
      ensures p.operation == Noop || id == "" ==> result == Skipped && guards == old(guards) && items == old(items)
      ensures p.operation != Noop && id != "" ==>
                (CellOf(id), result) ==
                ApplyCell(old(CellOf(id)), job, captured, p, old(Duplicated(found, id, p)), fate)
      ensures forall other :: other != id ==> CellOf(other) == old(CellOf(other))
    {
      id := if p.operation == Create then DeterministicId(job) else p.target;
      if p.operation == Noop || id == "" {
        return id, Skipped;
      }
      ghost var twin := Duplicated(found, id, p);
      var guard := Guarding(id);
      var existing := CellOf(id).item;
      if guard.job == Some(job) {
        if fate != Committed {
          return id, Interrupted;
        }
        guards := guards[id := guard];
        return id, Applied(guard.version);
      }
      if existing.Some? && existing.value.job == Some(job) {
        if fate != Committed {
          return id, Interrupted;
        }
        guard := guard.(version :=
                          if existing.value.version > guard.version then existing.value.version else guard.version);
        guard := guard.(job := Some(job), deletedAt := None);
        guards := guards[id := guard];
        return id, Applied(guard.version);
      }
      var stale := false;
      if p.operation == Create {
        stale := HasDuplicate(found, id, p);
      }
      assert stale == (p.operation == Create && twin);
      if stale || (guard.manualAt.Some? && guard.manualAt.value > captured) || guard.deletedAt.Some?
         || (p.operation == Update && p.base != Some(guard.version)) {
        return id, if fate == Committed then Stale else Interrupted;
      }
      if fate == BeforeStore {
        return id, Interrupted;
      }
      var next := guard.version + 1;
      PutItem(id, p.fields, next, Some(job));
      if fate == AfterStore {
        return id, Interrupted;
      }
      guard := guard.(version := next, job := Some(job), deletedAt := None);
      guards := guards[id := guard];
      result := Applied(next);
    }
  }
}
