/**
 * What an accepted automatic update overwrites: exactly the item it was extracted from, as long as nothing
 * crashes; and exactly when it is another item, once mutations may die between Store put and commit.
 */
module LostUpdates {
  import opened Events
  import opened MemoryGuard
  import opened MemoryMachine

  // ----- no lost update without crashes -----

  predicate CrashFree(a: Action) {
    match a
    case CreateManual(_, _, fate) => fate == Committed
    case UpdateManual(_, _, fate) => fate == Committed
    case DeleteManual(_, fate) => fate == Committed
    case Apply(_, _, _, fate) => fate == Committed
    case _ => true
  }

  /** Item and guard carry the same version. */
  predicate InStep(c: Cell) {
    c.item.Some? ==> c.item.value.version == LoadGuard(c).version
  }

  /** What was seen is still there unless the version has moved on. */
  predicate SeenOk(c: Cell, s: Seen) {
    && s.item.version <= LoadGuard(c).version
    && (s.item.version == LoadGuard(c).version ==> c.item == Some(s.item))
  }

  ghost predicate Current(w: World) {
    && (forall id :: InStep(CellAt(w, id)))
    && (forall job :: job in w.seen ==> SeenOk(CellAt(w, w.seen[job].id), w.seen[job]))
  }

  /** Every committed mutation moves the version by one or leaves the item alone. */
  lemma CommittedMoves(c: Cell, fields: map<string, string>, now: int, job: string, captured: int, p: Proposal,
                       duplicate: bool)
    requires InStep(c)
    ensures InStep(UpdateCell(c, fields, now, Committed))
            && LoadGuard(UpdateCell(c, fields, now, Committed)).version == LoadGuard(c).version + 1
    ensures InStep(DeleteCell(c, now, Committed))
            && LoadGuard(DeleteCell(c, now, Committed)).version == LoadGuard(c).version + 1
    ensures InStep(CreateCell(c, fields, now, Committed))
            && LoadGuard(CreateCell(c, fields, now, Committed)).version == LoadGuard(c).version + 1
    ensures var c' := ApplyCell(c, job, captured, p, duplicate, Committed).0;
            && InStep(c')
            && (if Writes(c, job, captured, p, duplicate) then LoadGuard(c').version == LoadGuard(c).version + 1
                else LoadGuard(c').version == LoadGuard(c).version && c'.item == c.item)
  {
  }

  /** What is seen of a cell that moved on by such a mutation stays in order. */
  lemma SeenFrame(c: Cell, c': Cell, s: Seen)
    requires SeenOk(c, s)
    requires LoadGuard(c').version > LoadGuard(c).version
             || (LoadGuard(c').version == LoadGuard(c).version && c'.item == c.item)
    ensures SeenOk(c', s)
  {
  }

  lemma CellMoves(w: World, a: Action, id: string)
    requires Current(w) && Enabled(w, a) && CrashFree(a)
    ensures var c, c' := CellAt(w, id), CellAfter(w, a, id);
            && InStep(c')
            && (LoadGuard(c').version > LoadGuard(c).version
                || (LoadGuard(c').version == LoadGuard(c).version && c'.item == c.item))
  {
    var c := CellAt(w, id);
    assert InStep(c);
    match a {
      case CreateManual(_, fields, _) =>
        CommittedMoves(c, fields, w.now, "", 0, Proposal(Noop, "", None, map[]), false);
      case UpdateManual(_, fields, _) =>
        CommittedMoves(c, fields, w.now, "", 0, Proposal(Noop, "", None, map[]), false);
      case DeleteManual(_, _) => CommittedMoves(c, map[], w.now, "", 0, Proposal(Noop, "", None, map[]), false);
      case Apply(job, p, duplicate, _) => CommittedMoves(c, map[], w.now, job, w.jobs[job].captured, p, duplicate);
      case _ =>
    }
  }

  lemma NextKeepsCurrent(w: World, a: Action)
    requires Current(w) && Enabled(w, a) && CrashFree(a)
    ensures Current(Next(w, a))
  {
    var w' := Next(w, a);
    forall id ensures InStep(CellAt(w', id)) {
      CellMoves(w, a, id);
      CellAtNext(w, a, id);
    }
    forall job | job in w'.seen ensures SeenOk(CellAt(w', w'.seen[job].id), w'.seen[job]) {
      NextKeepsSeen(w, a, job);
    }
  }

  lemma NextKeepsSeen(w: World, a: Action, job: string)
    requires Current(w) && Enabled(w, a) && CrashFree(a) && job in Next(w, a).seen
    ensures var s := Next(w, a).seen[job]; SeenOk(CellAt(Next(w, a), s.id), s)
  {
    var s := Next(w, a).seen[job];
    CellAtNext(w, a, s.id);
    if a.Extract? && a.job == job {
      assert InStep(CellAt(w, a.id));
    } else {
      SeenAtNext(w, a, job);
      CellMoves(w, a, s.id);
      SeenFrame(CellAt(w, s.id), CellAfter(w, a, s.id), s);
    }
  }

  lemma {:induction false} ExecKeepsCurrent(items: map<string, Item>, actions: seq<Action>)
    requires Exec(items, actions).Some? && forall i :: 0 <= i < |actions| ==> CrashFree(actions[i])
    ensures Current(Exec(items, actions).value)
    decreases |actions|
  {
    if actions != [] {
      var front := actions[..|actions| - 1];
      ExecKeepsCurrent(items, front);
      NextKeepsCurrent(Exec(items, front).value, actions[|actions| - 1]);
    }
  }

  lemma OverwritesSeen(w: World, a: Action)
    requires Current(w) && a.Apply? && a.fate == Committed && a.proposal.operation == Update && Enabled(w, a)
    requires Writes(CellAt(w, a.proposal.target), a.job, w.jobs[a.job].captured, a.proposal, a.duplicate)
    ensures var s := w.seen[a.job];
            && CellAt(w, a.proposal.target).item == Some(s.item)
            && CellAt(Next(w, a), a.proposal.target).item ==
               Some(Item(s.item.fields + a.proposal.fields, s.item.version + 1, Some(a.job)))
  {
    assert SeenOk(CellAt(w, w.seen[a.job].id), w.seen[a.job]);
  }

  /**
   * No lost update: without crashes, an automatic update that writes overwrites exactly the item its
   * proposal was extracted from, and the new item is one version further.
   */
  lemma {:induction false} NoLostUpdate(items: map<string, Item>, actions: seq<Action>, a: Action)
    requires Exec(items, actions).Some? && forall i :: 0 <= i < |actions| ==> CrashFree(actions[i])
    requires a.Apply? && a.fate == Committed && a.proposal.operation == Update && Enabled(Exec(items, actions).value, a)
    requires var w := Exec(items, actions).value;
             Writes(CellAt(w, a.proposal.target), a.job, w.jobs[a.job].captured, a.proposal, a.duplicate)
    ensures var w := Exec(items, actions).value;
            var s := w.seen[a.job];
            && CellAt(w, a.proposal.target).item == Some(s.item)
            && CellAt(Next(w, a), a.proposal.target).item ==
               Some(Item(s.item.fields + a.proposal.fields, s.item.version + 1, Some(a.job)))
  {
    ExecKeepsCurrent(items, actions);
    OverwritesSeen(Exec(items, actions).value, a);
  }

  // ----- lost updates with crashes -----

  /** What was seen beside its guard is still there unless the guard has moved on or an interrupted write shows. */
  predicate SolidOk(c: Cell, s: Seen) {
    s.solid ==>
      && c.guard.Some? && s.item.version <= c.guard.value.version
      && (c.guard.value.version == s.item.version ==>
            c.item == Some(s.item) || c.item.None? || c.item.value.version > c.guard.value.version)
  }

  ghost predicate SolidKept(w: World) {
    forall job :: job in w.seen ==> SolidOk(CellAt(w, w.seen[job].id), w.seen[job])
  }

  lemma MutationKeepsSolid(c: Cell, s: Seen, fields: map<string, string>, now: int, fate: Fate)
    requires SolidOk(c, s)
    ensures SolidOk(CreateCell(c, fields, now, fate), s)
    ensures SolidOk(UpdateCell(c, fields, now, fate), s)
    ensures SolidOk(DeleteCell(c, now, fate), s)
  {
  }

  lemma ApplyKeepsSolid(c: Cell, s: Seen, job: string, captured: int, p: Proposal, duplicate: bool, fate: Fate)
    requires SolidOk(c, s)
    ensures SolidOk(ApplyCell(c, job, captured, p, duplicate, fate).0, s)
  {
  }

  lemma SolidStays(w: World, a: Action, s: Seen)
    requires Enabled(w, a) && SolidOk(CellAt(w, s.id), s)
    ensures SolidOk(CellAfter(w, a, s.id), s)
  {
    var c := CellAt(w, s.id);
    match a {
      case CreateManual(_, fields, fate) => MutationKeepsSolid(c, s, fields, w.now, fate);
      case UpdateManual(_, fields, fate) => MutationKeepsSolid(c, s, fields, w.now, fate);
      case DeleteManual(_, fate) => MutationKeepsSolid(c, s, map[], w.now, fate);
      case Apply(job, p, duplicate, fate) => ApplyKeepsSolid(c, s, job, w.jobs[job].captured, p, duplicate, fate);
      case _ =>
    }
  }

  /** Only an extraction of the job changes what it has seen. */
  lemma SeenAtNext(w: World, a: Action, job: string)
    requires Enabled(w, a) && !(a.Extract? && a.job == job)
    ensures job in Next(w, a).seen <==> job in w.seen
    ensures job in w.seen ==> Next(w, a).seen[job] == w.seen[job]
  {
    match a {
      case Finish(other) =>
        match w.work[other] {
          case WorkApplied(id, version) => assert Settle(w, other, JobSucceeded, Some((id, version))).seen == w.seen;
          case WorkStale => assert Settle(w, other, JobSkipped, None).seen == w.seen;
          case WorkBroken =>
        }
      case _ =>
    }
  }

  lemma NextKeepsSolid(w: World, a: Action)
    requires SolidKept(w) && Enabled(w, a)
    ensures SolidKept(Next(w, a))
  {
    var w' := Next(w, a);
    forall job | job in w'.seen ensures SolidOk(CellAt(w', w'.seen[job].id), w'.seen[job]) {
      var s := w'.seen[job];
      CellAtNext(w, a, s.id);
      if !(a.Extract? && a.job == job) {
        SeenAtNext(w, a, job);
        SolidStays(w, a, s);
      }
    }
  }

  lemma {:induction false} ExecKeepsSolid(items: map<string, Item>, actions: seq<Action>)
    requires Exec(items, actions).Some?
    ensures SolidKept(Exec(items, actions).value)
    decreases |actions|
  {
    if actions != [] {
      var front := actions[..|actions| - 1];
      ExecKeepsSolid(items, front);
      NextKeepsSolid(Exec(items, front).value, actions[|actions| - 1]);
    }
  }

  // ----- from an extraction to the update -----

  /** A mutation of this memory that reaches its commit. */
  predicate Commits(a: Action, id: string) {
    match a
    case CreateManual(other, _, fate) => other == id && fate == Committed
    case UpdateManual(other, _, fate) => other == id && fate == Committed
    case DeleteManual(other, fate) => other == id && fate == Committed
    case Apply(job, p, _, fate) => Target(job, p) == id && fate == Committed
    case _ => false
  }

  predicate SomeCommits(actions: seq<Action>, id: string) {
    exists i :: 0 <= i < |actions| && Commits(actions[i], id)
  }

  /** A delete of this memory that dies between the Store and its commit. */
  predicate DeleteDies(a: Action, id: string) {
    a.DeleteManual? && a.id == id && a.fate == AfterStore
  }

  predicate SomeDeleteDies(actions: seq<Action>, id: string) {
    exists i :: 0 <= i < |actions| && DeleteDies(actions[i], id)
  }

  predicate SomeExtracts(actions: seq<Action>, job: string) {
    exists i :: 0 <= i < |actions| && actions[i].Extract? && actions[i].job == job
  }

  lemma GuardStays(w: World, a: Action, id: string)
    requires Enabled(w, a) && !Commits(a, id)
    ensures CellAt(Next(w, a), id).guard == CellAt(w, id).guard
  {
    CellAtNext(w, a, id);
  }

  /**
   * From an item seen without a guard row, as long as no delete died: until a guard row is committed the item's own
   * version stands for it and only grows with a change, and behind that it is as for an item seen beside its guard.
   */
  predicate GuardlessOk(c: Cell, s: Seen) {
    match c.guard
    case None =>
      && c.item.Some? && c.item.value.version >= s.item.version
      && (c.item.value.version == s.item.version ==> c.item == Some(s.item))
    case Some(g) =>
      && s.item.version <= g.version
      && (g.version == s.item.version ==> c.item == Some(s.item) || c.item.None? || c.item.value.version > g.version)
  }

  lemma GuardlessStays(w: World, a: Action, s: Seen)
    requires Enabled(w, a) && !DeleteDies(a, s.id) && GuardlessOk(CellAt(w, s.id), s)
    ensures GuardlessOk(CellAt(Next(w, a), s.id), s)
  {
    CellAtNext(w, a, s.id);
  }

  /** What an extraction leaves in place: what it has seen, and the guard until a commit of the same memory. */
  lemma {:induction false} SinceExtraction(
      items: map<string, Item>, before: seq<Action>, job: string, id: string, more: seq<Action>)
    requires Exec(items, before + [Extract(job, id)] + more).Some? && !SomeExtracts(more, job)
    ensures Exec(items, before).Some? && CellAt(Exec(items, before).value, id).item.Some?
    ensures var c, w := CellAt(Exec(items, before).value, id), Exec(items, before + [Extract(job, id)] + more).value;
            && job in w.seen && w.seen[job].id == id && w.seen[job].item == c.item.value
            && (w.seen[job].solid <==> c.guard.Some? && c.guard.value.version == c.item.value.version)
            && (!SomeCommits(more, id) ==> CellAt(w, id).guard == c.guard)
            && (c.guard.None? && !SomeDeleteDies(more, id) ==> GuardlessOk(CellAt(w, id), w.seen[job]))
    decreases |more|
  {
    var start := before + [Extract(job, id)];
    if more == [] {
      Neutral(start);
      assert start[..|start| - 1] == before;
    } else {
      var front, a := more[..|more| - 1], more[|more| - 1];
      var all := start + more;
      assert all[..|all| - 1] == start + front;
      SinceFront(more, id, job);
      SinceExtraction(items, before, job, id, front);
      var w := Exec(items, start + front).value;
      SeenAtNext(w, a, job);
      if !SomeCommits(more, id) {
        GuardStays(w, a, id);
      }
      if CellAt(Exec(items, before).value, id).guard.None? && !SomeDeleteDies(more, id) {
        GuardlessStays(w, a, w.seen[job]);
      }
    }
  }

  lemma SinceFront(more: seq<Action>, id: string, job: string)
    requires more != []
    ensures var front, a := more[..|more| - 1], more[|more| - 1];
            && (!SomeCommits(more, id) ==> !SomeCommits(front, id) && !Commits(a, id))
            && (!SomeExtracts(more, job) ==> !SomeExtracts(front, job) && !(a.Extract? && a.job == job))
            && (!SomeDeleteDies(more, id) ==> !SomeDeleteDies(front, id) && !DeleteDies(a, id))
  {
    var front, n := more[..|more| - 1], |more| - 1;
    assert forall i :: 0 <= i < n ==> front[i] == more[i];
    if SomeCommits(front, id) {
      var i :| 0 <= i < |front| && Commits(front[i], id);
      assert Commits(more[i], id);
    }
    if SomeExtracts(front, job) {
      var i :| 0 <= i < |front| && front[i].Extract? && front[i].job == job;
      assert more[i].Extract? && more[i].job == job;
    }
    if SomeDeleteDies(front, id) {
      var i :| 0 <= i < |front| && DeleteDies(front[i], id);
      assert DeleteDies(more[i], id);
    }
  }

  /** An automatic update that writes, `more` actions behind the last extraction of its job. */
  predicate Accepted(
      items: map<string, Item>, before: seq<Action>, job: string, id: string, more: seq<Action>, a: Action)
  {
    && a.Apply? && a.job == job && a.proposal.operation == Update && a.proposal.target == id
    && !SomeExtracts(more, job)
    && Exec(items, before).Some? && CellAt(Exec(items, before).value, id).item.Some?
    && Exec(items, before + [Extract(job, id)] + more).Some? &&
    var w := Exec(items, before + [Extract(job, id)] + more).value;
    Enabled(w, a) && Writes(CellAt(w, id), job, w.jobs[job].captured, a.proposal, a.duplicate)
  }

  /**
   * With crashes anywhere, an automatic update that writes overwrites exactly what it was extracted from if and only
   * if the item is there and carries the version of its guard; the code compares the guard only. This is so for an
   * item extracted beside a guard of its version, and for one without a guard row unless a delete of it died
   * behind the Store since.
   */
  lemma {:induction false} LostUpdateExactly(
      items: map<string, Item>, before: seq<Action>, job: string, id: string, more: seq<Action>, a: Action)
    requires Accepted(items, before, job, id, more, a)
    requires var c := CellAt(Exec(items, before).value, id);
             if c.guard.Some? then c.guard.value.version == c.item.value.version else !SomeDeleteDies(more, id)
    ensures var c := CellAt(Exec(items, before).value, id);
            var c' := CellAt(Exec(items, before + [Extract(job, id)] + more).value, id);
            c'.item == c.item <==> c'.item.Some? && InStep(c')
  {
    SinceExtraction(items, before, job, id, more);
    ExecKeepsSolid(items, before + [Extract(job, id)] + more);
    var w := Exec(items, before + [Extract(job, id)] + more).value;
    assert SolidOk(CellAt(w, w.seen[job].id), w.seen[job]);
  }

  /**
   * The other extractions, beside a guard of another version and so from what an interrupted write left: an update is
   * accepted only if a mutation of that memory was committed since.
   */
  lemma {:induction false} AcceptedSince(
      items: map<string, Item>, before: seq<Action>, job: string, id: string, more: seq<Action>, a: Action)
    requires Accepted(items, before, job, id, more, a)
    requires var c := CellAt(Exec(items, before).value, id);
             c.guard.Some? && c.guard.value.version != c.item.value.version
    ensures SomeCommits(more, id)
  {
    SinceExtraction(items, before, job, id, more);
  }

  // ----- histories in which an update is lost -----

  lemma ExecSnoc(items: map<string, Item>, actions: seq<Action>, w: World, a: Action)
    requires Exec(items, actions) == Some(w) && Enabled(w, a)
    ensures Exec(items, actions + [a]) == Some(Next(w, a))
  {
    assert (actions + [a])[..|actions|] == actions;
  }

  const OLD := map["content" := "old"]
  const EDITED := map["content" := "edited"]
  const FIRST := map["content" := "first"]
  const SECOND := map["content" := "second"]

  const JOBS := [
    CreateManual("m", OLD, Committed), Register("j1", "k1", 0), TakeJob("j1"), Register("j2", "k2", 0), TakeJob("j2")]

  const EDIT_DIES := JOBS + [Extract("j1", "m"), UpdateManual("m", EDITED, AfterStore)]

  function UpdateBy(job: string, base: nat, fields: map<string, string>): Action {
    Apply(job, Proposal(Update, "m", Some(base), fields), false, Committed)
  }

  const BOTH_WRITE := EDIT_DIES + [Extract("j2", "m"), UpdateBy("j1", 1, FIRST)]

  /** Two running jobs that know nothing yet, and the memory in the given state. */
  ghost predicate Stands(w: World, c: Cell, seen: map<string, Seen>, work: map<string, Work>) {
    && CellAt(w, "m") == c
    && IsRunning(w, "j1") && IsRunning(w, "j2") && w.jobs["j1"].captured == 0 == w.jobs["j2"].captured
    && w.seen == seen && w.work == work && w.now == 0
  }

  const WRITTEN := Cell(Some(Guard(1, 0, None, Some(0), None)), Some(Item(OLD, 1, None)))
  const RESIDUE := Cell(Some(Guard(1, 0, None, Some(0), None)), Some(Item(EDITED, 2, None)))

  lemma Written()
    ensures Exec(map[], [JOBS[0]]).Some?
    ensures var w := Exec(map[], [JOBS[0]]).value;
            CellAt(w, "m") == WRITTEN && w.jobs == map[] && w.seen == map[] && w.work == map[] && w.now == 0
  {
    var start := Start(map[]);
    assert map[] + OLD == OLD;
    ExecSnoc(map[], [], start, JOBS[0]);
    Neutral([JOBS[0]]);
  }

  /** Registering and taking a job changes the jobs only. */
  lemma TakenStep(w: World, job: string, key: string)
    requires job !in w.jobs && !Registered(w, key) && w.now == 0 && Enabled(w, Register(job, key, 0))
    ensures var w' := Next(w, Register(job, key, 0));
            Enabled(w', TakeJob(job)) &&
            var w'' := Next(w', TakeJob(job));
            && w''.legacy == w.legacy && w''.cells == w.cells && w''.seen == w.seen && w''.work == w.work
            && w''.now == 0
            && w''.jobs == w.jobs[job := Job(key, 0, JobRunning, None)]
  {
  }

  lemma OneTaken(items: map<string, Item>, actions: seq<Action>, w: World, job: string, key: string)
    requires Exec(items, actions) == Some(w) && job !in w.jobs && !Registered(w, key) && w.now == 0
    ensures Exec(items, actions + [Register(job, key, 0)] + [TakeJob(job)]).Some?
    ensures var w' := Exec(items, actions + [Register(job, key, 0)] + [TakeJob(job)]).value;
            && CellAt(w', "m") == CellAt(w, "m") && w'.seen == w.seen && w'.work == w.work && w'.now == 0
            && w'.jobs == w.jobs[job := Job(key, 0, JobRunning, None)]
  {
    TakenStep(w, job, key);
    var r := Register(job, key, 0);
    ExecSnoc(items, actions, w, r);
    ExecSnoc(items, actions + [r], Next(w, r), TakeJob(job));
  }

  lemma FirstTaken(actions: seq<Action>)
    requires actions == [JOBS[0]] + [JOBS[1]] + [JOBS[2]]
    ensures Exec(map[], actions).Some?
    ensures var w := Exec(map[], actions).value;
            && CellAt(w, "m") == WRITTEN && w.seen == map[] && w.work == map[] && w.now == 0
            && w.jobs == map["j1" := Job("k1", 0, JobRunning, None)]
  {
    Written();
    OneTaken(map[], [JOBS[0]], Exec(map[], [JOBS[0]]).value, "j1", "k1");
  }

  lemma JobsStand()
    ensures Exec(map[], JOBS).Some? && Stands(Exec(map[], JOBS).value, WRITTEN, map[], map[])
  {
    var three := [JOBS[0]] + [JOBS[1]] + [JOBS[2]];
    FirstTaken(three);
    OneTaken(map[], three, Exec(map[], three).value, "j2", "k2");
    assert three + [JOBS[3]] + [JOBS[4]] == JOBS;
  }

  lemma ExtractedBy(actions: seq<Action>, c: Cell, seen: map<string, Seen>, work: map<string, Work>, job: string)
    requires Exec(map[], actions).Some? && Stands(Exec(map[], actions).value, c, seen, work)
    requires job in {"j1", "j2"} && job !in work && c.item.Some?
    ensures Exec(map[], actions + [Extract(job, "m")]).Some?
    ensures var solid := c.guard.Some? && c.guard.value.version == c.item.value.version;
            Stands(Exec(map[], actions + [Extract(job, "m")]).value, c,
                   seen[job := Seen("m", c.item.value, solid)], work)
  {
    ExecSnoc(map[], actions, Exec(map[], actions).value, Extract(job, "m"));
  }

  lemma EditDies()
    ensures Exec(map[], EDIT_DIES).Some?
    ensures Stands(Exec(map[], EDIT_DIES).value, RESIDUE, map["j1" := Seen("m", Item(OLD, 1, None), true)], map[])
  {
    JobsStand();
    ExtractedBy(JOBS, WRITTEN, map[], map[], "j1");
    var actions := JOBS + [Extract("j1", "m")];
    var seen := map["j1" := Seen("m", Item(OLD, 1, None), true)];
    assert map[]["j1" := Seen("m", Item(OLD, 1, None), true)] == seen;
    assert OLD + EDITED == EDITED;
    ExecSnoc(map[], actions, Exec(map[], actions).value, UpdateManual("m", EDITED, AfterStore));
    assert actions + [UpdateManual("m", EDITED, AfterStore)] == EDIT_DIES;
  }

  /**
   * A crash loses an update: an edit that died between its Store put and its commit is overwritten by an
   * automatic update that was extracted from the item before it.
   */
  lemma CrashLosesUpdate()
    ensures Exec(map[], EDIT_DIES).Some?
    ensures var w, a := Exec(map[], EDIT_DIES).value, UpdateBy("j1", 1, FIRST);
            && Enabled(w, a) && Next(w, a).work["j1"] == WorkApplied("m", 2)
            && w.seen["j1"].solid && w.seen["j1"].item.fields == OLD
            && CellAt(w, "m").item.value.fields == EDITED
            && CellAt(Next(w, a), "m").item.value.fields == FIRST
  {
    EditDies();
    assert EDITED + FIRST == FIRST;
  }

  lemma FirstWrites()
    ensures Exec(map[], BOTH_WRITE).Some?
    ensures Stands(Exec(map[], BOTH_WRITE).value,
                   Cell(Some(Guard(2, 0, None, Some(0), Some("j1"))), Some(Item(FIRST, 2, Some("j1")))),
                   map["j1" := Seen("m", Item(OLD, 1, None), true), "j2" := Seen("m", Item(EDITED, 2, None), false)],
                   map["j1" := WorkApplied("m", 2)])
  {
    EditDies();
    var seen := map["j1" := Seen("m", Item(OLD, 1, None), true)];
    ExtractedBy(EDIT_DIES, RESIDUE, seen, map[], "j2");
    var actions := EDIT_DIES + [Extract("j2", "m")];
    var w := Exec(map[], actions).value;
    assert w.seen == map["j1" := Seen("m", Item(OLD, 1, None), true), "j2" := Seen("m", Item(EDITED, 2, None), false)];
    assert EDITED + FIRST == FIRST;
    ExecSnoc(map[], actions, w, UpdateBy("j1", 1, FIRST));
    assert actions + [UpdateBy("j1", 1, FIRST)] == BOTH_WRITE;
  }

  /**
   * And extraction from what a dead edit left escapes the condition of `LostUpdateExactly`: guard and item
   * agree when the second job writes, but the item is the first job's and not the one it saw.
   */
  lemma ResidueLosesUpdate()
    ensures Exec(map[], BOTH_WRITE).Some?
    ensures var w, a := Exec(map[], BOTH_WRITE).value, UpdateBy("j2", 2, SECOND);
            var c := CellAt(w, "m");
            && Enabled(w, a) && Next(w, a).work["j2"] == WorkApplied("m", 3)
            && c.item.Some? && InStep(c) && c.item != Some(w.seen["j2"].item)
            && w.seen["j2"].item.fields == EDITED && c.item.value.fields == FIRST
            && CellAt(Next(w, a), "m").item.value.fields == SECOND
  {
    FirstWrites();
    assert FIRST + SECOND == SECOND;
  }

  function TextIs(text: string): map<string, string> {
    map["content" := text]
  }

  function RetriedWith(text: string): seq<Action> {
    JOBS + [UpdateManual("m", EDITED, AfterStore), Extract("j2", "m"), UpdateManual("m", TextIs(text), Committed)]
  }

  lemma ResidueSeen()
    ensures var actions := JOBS + [UpdateManual("m", EDITED, AfterStore), Extract("j2", "m")];
            && Exec(map[], actions).Some?
            && Stands(Exec(map[], actions).value, RESIDUE, map["j2" := Seen("m", Item(EDITED, 2, None), false)], map[])
  {
    JobsStand();
    assert OLD + EDITED == EDITED;
    var edit := UpdateManual("m", EDITED, AfterStore);
    ExecSnoc(map[], JOBS, Exec(map[], JOBS).value, edit);
    ExtractedBy(JOBS + [edit], RESIDUE, map[], map[], "j2");
    var seen := Seen("m", Item(EDITED, 2, None), false);
    assert map[]["j2" := seen] == map["j2" := seen];
    assert JOBS + [edit] + [Extract("j2", "m")] == JOBS + [edit, Extract("j2", "m")];
  }

  lemma RetriedReaches(text: string)
    ensures Exec(map[], RetriedWith(text)).Some?
    ensures Stands(Exec(map[], RetriedWith(text)).value,
                   Cell(Some(Guard(2, 0, None, Some(0), None)), Some(Item(TextIs(text), 2, None))),
                   map["j2" := Seen("m", Item(EDITED, 2, None), false)], map[])
  {
    ResidueSeen();
    var actions := JOBS + [UpdateManual("m", EDITED, AfterStore), Extract("j2", "m")];
    assert EDITED + TextIs(text) == TextIs(text);
    ExecSnoc(map[], actions, Exec(map[], actions).value, UpdateManual("m", TextIs(text), Committed));
    assert actions + [UpdateManual("m", TextIs(text), Committed)] == RetriedWith(text);
  }

  /**
   * Behind such an extraction only contents tell: whatever text the edit is retried with, guard, versions and marks
   * are the same and the update is accepted, and it overwrites what it saw if and only if the text is the same.
   */
  lemma OnlyContentsTell(text: string)
    ensures Exec(map[], RetriedWith(text)).Some?
    ensures var w, a := Exec(map[], RetriedWith(text)).value, UpdateBy("j2", 2, SECOND);
            var c := CellAt(w, "m");
            && Enabled(w, a) && Next(w, a).work["j2"] == WorkApplied("m", 3)
            && c.guard == Some(Guard(2, 0, None, Some(0), None))
            && c.item.Some? && c.item.value.version == w.seen["j2"].item.version && c.item.value.job == None
            && (c.item == Some(w.seen["j2"].item) <==> text == "edited")
  {
    RetriedReaches(text);
    assert TextIs(text)["content"] == text && EDITED["content"] == "edited";
  }

  const UNGUARDED := map["m" := Item(OLD, 1, None)]

  const DELETE_DIES := [
    Register("j1", "k1", 0), TakeJob("j1"), Extract("j1", "m"), DeleteManual("m", AfterStore)]

  function EditedBehind(text: string): seq<Action> {
    DELETE_DIES + [UpdateManual("m", TextIs(text), Committed)]
  }

  lemma UnguardedSeen(actions: seq<Action>)
    requires actions == [DELETE_DIES[0]] + [DELETE_DIES[1]] + [DELETE_DIES[2]]
    ensures Exec(UNGUARDED, actions).Some?
    ensures var w := Exec(UNGUARDED, actions).value;
            && CellAt(w, "m") == Cell(None, Some(Item(OLD, 1, None))) && w.now == 0 && w.work == map[]
            && w.jobs == map["j1" := Job("k1", 0, JobRunning, None)]
            && "j1" in w.seen && w.seen["j1"] == Seen("m", Item(OLD, 1, None), false)
  {
    OneTaken(UNGUARDED, [], Start(UNGUARDED), "j1", "k1");
    var two := [DELETE_DIES[0]] + [DELETE_DIES[1]];
    assert [] + [Register("j1", "k1", 0)] + [TakeJob("j1")] == two;
    ExecSnoc(UNGUARDED, two, Exec(UNGUARDED, two).value, DELETE_DIES[2]);
  }

  lemma DeleteThenEdit(w: World, w': World, text: string)
    requires CellAt(w, "m") == Cell(None, Some(Item(OLD, 1, None))) && w.now == 0
    requires Enabled(w, DELETE_DIES[3]) && w' == Next(w, DELETE_DIES[3])
    ensures var w'' := Next(w', UpdateManual("m", TextIs(text), Committed));
            && CellAt(w'', "m") == Cell(Some(Guard(1, 0, None, Some(0), None)), Some(Item(TextIs(text), 1, None)))
            && w''.jobs == w.jobs && w''.seen == w.seen && w''.work == w.work
  {
    assert CellAt(w', "m") == NO_CELL;
    assert map[] + TextIs(text) == TextIs(text);
  }

  lemma EditedBehindReaches(text: string)
    ensures Exec(UNGUARDED, EditedBehind(text)).Some?
    ensures var w := Exec(UNGUARDED, EditedBehind(text)).value;
            && CellAt(w, "m") == Cell(Some(Guard(1, 0, None, Some(0), None)), Some(Item(TextIs(text), 1, None)))
            && w.jobs == map["j1" := Job("k1", 0, JobRunning, None)] && w.work == map[]
            && "j1" in w.seen && w.seen["j1"] == Seen("m", Item(OLD, 1, None), false)
  {
    var three := [DELETE_DIES[0]] + [DELETE_DIES[1]] + [DELETE_DIES[2]];
    UnguardedSeen(three);
    var w := Exec(UNGUARDED, three).value;
    var w' := Next(w, DELETE_DIES[3]);
    DeleteThenEdit(w, w', text);
    ExecSnoc(UNGUARDED, three, w, DELETE_DIES[3]);
    ExecSnoc(UNGUARDED, three + [DELETE_DIES[3]], w', UpdateManual("m", TextIs(text), Committed));
    assert three + [DELETE_DIES[3]] == DELETE_DIES;
  }

  /**
   * The delete is no idle exception: for an item seen without a guard row, a delete that died behind the Store makes
   * versions start again. Whatever the text of an edit behind it, the update is accepted, and it overwrites what it
   * saw if and only if the text is the old one.
   */
  lemma DeadDeleteLosesUpdate(text: string)
    ensures Exec(UNGUARDED, EditedBehind(text)).Some?
    ensures var w, a := Exec(UNGUARDED, EditedBehind(text)).value, UpdateBy("j1", 1, FIRST);
            var c := CellAt(w, "m");
            && Enabled(w, a) && Next(w, a).work["j1"] == WorkApplied("m", 2)
            && c.item.Some? && InStep(c) && c.item.value.job == w.seen["j1"].item.job
            && (c.item == Some(w.seen["j1"].item) <==> text == "old")
  {
    EditedBehindReaches(text);
    assert TextIs(text)["content"] == text && OLD["content"] == "old";
  }
}
