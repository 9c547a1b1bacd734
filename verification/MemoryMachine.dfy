/**
 * One user's memories over time: manual edits, reflection jobs that are registered, taken, extracted,
 * applied and finished, and crashes between any two of these.
 */
module MemoryMachine {
  import opened Events
  import opened MemoryGuard

  datatype JobStatus = JobPending | JobRunning | JobSucceeded | JobSkipped | JobFailed

  /** `key` is the idempotency key; a finished job may name the memory and version it applied. */
  datatype Job = Job(key: string, captured: int, status: JobStatus, memory: Option<(string, nat)>)

  /**
   * What extraction saw of the item it wants to update, and whether a guard row of the same version stood
   * beside it.
   */
  datatype Seen = Seen(id: string, item: Item, solid: bool)

  /** What the worker knows after its call of `apply_automatic`. */
  datatype Work = WorkApplied(id: string, version: nat) | WorkStale | WorkBroken

  /**
   * `legacy` holds the items from before the guards existed, `cells` the memories touched since. `takes` and
   * `applied` record history: how often each job was taken, and which committed what.
   */
  datatype World = World(
    legacy: map<string, Item>, cells: map<string, Cell>, now: int,
    jobs: map<string, Job>, seen: map<string, Seen>, work: map<string, Work>,
    takes: map<string, nat>, applied: map<string, (string, nat)>)

  datatype Action =
    | Advance(to: int)
    | CreateManual(id: string, fields: map<string, string>, fate: Fate)
    | UpdateManual(id: string, fields: map<string, string>, fate: Fate)
    | DeleteManual(id: string, fate: Fate)
    | Register(job: string, key: string, captured: int)
    | TakeJob(job: string)
    | Extract(job: string, id: string)
    | Apply(job: string, proposal: Proposal, duplicate: bool, fate: Fate)
    | Finish(job: string)
    | Decline(job: string)
    | Fail(job: string)
    | Restart

  function CellAt(w: World, id: string): Cell {
    if id in w.cells then w.cells[id] else if id in w.legacy then Cell(None, Some(w.legacy[id])) else NO_CELL
  }

  /** Items from before the guards existed, and nothing else. */
  function Start(items: map<string, Item>): World {
    World(items, map[], 0, map[], map[], map[], map[], map[])
  }

  function Target(job: string, p: Proposal): string {
    if p.operation == Create then DeterministicId(job) else p.target
  }

  predicate IsRunning(w: World, job: string) {
    job in w.jobs && w.jobs[job].status == JobRunning
  }

  predicate Registered(w: World, key: string) {
    exists job :: job in w.jobs && w.jobs[job].key == key
  }

  predicate Enabled(w: World, a: Action) {
    match a
    case Advance(to) => to >= w.now
    case CreateManual(id, _, _) => id !in w.cells && id !in w.legacy
    case UpdateManual(_, _, _) => true
    case DeleteManual(_, _) => true
    case Register(job, key, captured) => captured <= w.now && (job !in w.jobs || Registered(w, key))
    case TakeJob(job) => job in w.jobs && w.jobs[job].status == JobPending
    case Extract(job, id) => IsRunning(w, job) && job !in w.work && CellAt(w, id).item.Some?
    case Apply(job, p, _, _) =>
      && IsRunning(w, job) && job !in w.work && p.operation != Noop && Target(job, p) != ""
      && (p.operation == Update ==>
            job in w.seen && p.target == w.seen[job].id && p.base == Some(w.seen[job].item.version))
    case Finish(job) => job in w.jobs && job in w.work && !w.work[job].WorkBroken?
    case Decline(job) => job in w.jobs && job !in w.work
    case Fail(job) => job in w.jobs
    case Restart => true
  }

  function WorkOf(id: string, r: Result): Work {
    match r
    case Applied(version) => WorkApplied(id, version)
    case Interrupted => WorkBroken
    case _ => WorkStale
  }

  /** `_finish` and `fail`: only a running job changes. */
  function Settle(w: World, job: string, status: JobStatus, memory: Option<(string, nat)>): World
    requires job in w.jobs
  {
    if w.jobs[job].status != JobRunning then w
    else w.(jobs := w.jobs[job := w.jobs[job].(status := status, memory := memory)])
  }

  function Next(w: World, a: Action): World
    requires Enabled(w, a)
  {
    match a
    case Advance(to) => w.(now := to)
    case CreateManual(id, fields, fate) => w.(cells := w.cells[id := CreateCell(CellAt(w, id), fields, w.now, fate)])
    case UpdateManual(id, fields, fate) => w.(cells := w.cells[id := UpdateCell(CellAt(w, id), fields, w.now, fate)])
    case DeleteManual(id, fate) => w.(cells := w.cells[id := DeleteCell(CellAt(w, id), w.now, fate)])
    case Register(job, key, captured) =>
      if Registered(w, key) then w
      else w.(jobs := w.jobs[job := Job(key, captured, JobPending, None)], takes := w.takes[job := 0])
    case TakeJob(job) =>
      w.(jobs := w.jobs[job := w.jobs[job].(status := JobRunning)],
         takes := w.takes[job := (if job in w.takes then w.takes[job] else 0) + 1])
    case Extract(job, id) =>
      var c := CellAt(w, id);
      w.(seen := w.seen[job := Seen(id, c.item.value, c.guard.Some? && c.guard.value.version == c.item.value.version)])
    case Apply(job, p, duplicate, fate) =>
      var id := Target(job, p);
      var (cell, result) := ApplyCell(CellAt(w, id), job, w.jobs[job].captured, p, duplicate, fate);
      w.(cells := w.cells[id := cell],
         work := w.work[job := WorkOf(id, result)],
         applied := if result.Applied? then w.applied[job := (id, result.version)] else w.applied)
    case Finish(job) =>
      match w.work[job] {
        case WorkApplied(id, version) => Settle(w, job, JobSucceeded, Some((id, version)))
        case _ => Settle(w, job, JobSkipped, None)
      }
    case Decline(job) => Settle(w, job, JobSkipped, None)
    case Fail(job) => Settle(w, job, JobFailed, None)
    case Restart =>
      w.(jobs := map job | job in w.jobs ::
           if w.jobs[job].status == JobRunning then w.jobs[job].(status := JobFailed) else w.jobs[job])
  }

  /** What an action does to one memory. */
  function CellAfter(w: World, a: Action, id: string): Cell
    requires Enabled(w, a)
  {
    var c := CellAt(w, id);
    match a
    case CreateManual(other, fields, fate) => if other == id then CreateCell(c, fields, w.now, fate) else c
    case UpdateManual(other, fields, fate) => if other == id then UpdateCell(c, fields, w.now, fate) else c
    case DeleteManual(other, fate) => if other == id then DeleteCell(c, w.now, fate) else c
    case Apply(job, p, duplicate, fate) =>
      if Target(job, p) == id then ApplyCell(c, job, w.jobs[job].captured, p, duplicate, fate).0 else c
    case _ => c
  }

  lemma CellAtNext(w: World, a: Action, id: string)
    requires Enabled(w, a)
    ensures CellAt(Next(w, a), id) == CellAfter(w, a, id)
  {
  }

  function Exec(items: map<string, Item>, actions: seq<Action>): Option<World> {
    if actions == [] then Some(Start(items))
    else
      match Exec(items, actions[..|actions| - 1])
      case None => None
      case Some(w) => if Enabled(w, actions[|actions| - 1]) then Some(Next(w, actions[|actions| - 1])) else None
  }

  // ----- manual edits win -----

  predicate NotBefore(w: World, job: Option<string>, time: int) {
    job.Some? ==> job.value in w.jobs && w.jobs[job.value].captured >= time
  }

  /**
   * A job that marks the guard or the item was captured no earlier than the last committed manual
   * mutation, and a tombstone carries no mark at all.
   */
  ghost predicate CellOk(w: World, c: Cell) {
    c.guard.Some? ==>
      var g := c.guard.value;
      && (g.manualAt.Some? ==> NotBefore(w, g.job, g.manualAt.value))
      && (g.manualAt.Some? && c.item.Some? ==> NotBefore(w, c.item.value.job, g.manualAt.value))
      && (g.deletedAt.Some? ==> g.job == None && (c.item.Some? ==> c.item.value.job == None))
  }

  ghost predicate CellsOk(w: World) {
    forall id :: id in w.cells ==> CellOk(w, w.cells[id])
  }

  lemma ManualKeepsCell(w: World, c: Cell, fields: map<string, string>, fate: Fate)
    requires CellOk(w, c)
    ensures CellOk(w, UpdateCell(c, fields, w.now, fate)) && CellOk(w, DeleteCell(c, w.now, fate))
    ensures c == NO_CELL ==> CellOk(w, CreateCell(c, fields, w.now, fate))
  {
  }

  lemma ApplyKeepsCell(w: World, c: Cell, job: string, p: Proposal, duplicate: bool, fate: Fate)
    requires CellOk(w, c) && job in w.jobs
    ensures CellOk(w, ApplyCell(c, job, w.jobs[job].captured, p, duplicate, fate).0)
  {
  }

  /** Jobs keep their capture times, so an unchanged cell stays in order. */
  lemma CellFrame(w: World, w': World, c: Cell)
    requires CellOk(w, c)
    requires forall job :: job in w.jobs ==> job in w'.jobs && w'.jobs[job].captured == w.jobs[job].captured
    ensures CellOk(w', c)
  {
  }

  lemma NextKeepsCell(w: World, a: Action, id: string)
    requires Enabled(w, a) && CellOk(w, CellAt(w, id))
    ensures CellOk(w, CellAfter(w, a, id))
  {
    var c := CellAt(w, id);
    match a {
      case CreateManual(_, fields, fate) => ManualKeepsCell(w, c, fields, fate);
      case UpdateManual(_, fields, fate) => ManualKeepsCell(w, c, fields, fate);
      case DeleteManual(_, fate) => ManualKeepsCell(w, c, map[], fate);
      case Apply(job, p, duplicate, fate) => ApplyKeepsCell(w, c, job, p, duplicate, fate);
      case _ =>
    }
  }

  /** Jobs stay, with their key and capture time; only a registration adds one. */
  ghost predicate SameJobs(jobs: map<string, Job>, jobs': map<string, Job>) {
    && (forall job :: job in jobs <==> job in jobs')
    && (forall job :: job in jobs ==> jobs'[job].captured == jobs[job].captured && jobs'[job].key == jobs[job].key)
  }

  lemma SettleKeepsJobs(w: World, job: string, status: JobStatus, memory: Option<(string, nat)>)
    requires job in w.jobs
    ensures SameJobs(w.jobs, Settle(w, job, status, memory).jobs)
  {
  }

  lemma NextKeepsJobSet(w: World, a: Action)
    requires Enabled(w, a) && !a.Register?
    ensures SameJobs(w.jobs, Next(w, a).jobs)
  {
    match a {
      case Finish(job) =>
        match w.work[job] {
          case WorkApplied(id, version) => SettleKeepsJobs(w, job, JobSucceeded, Some((id, version)));
          case _ => SettleKeepsJobs(w, job, JobSkipped, None);
        }
      case Decline(job) => SettleKeepsJobs(w, job, JobSkipped, None);
      case Fail(job) => SettleKeepsJobs(w, job, JobFailed, None);
      case _ =>
    }
  }

  lemma NextKeepsCells(w: World, a: Action)
    requires CellsOk(w) && Enabled(w, a)
    ensures CellsOk(Next(w, a))
  {
    var w' := Next(w, a);
    if !a.Register? {
      NextKeepsJobSet(w, a);
    }
    forall id | id in w'.cells ensures CellOk(w', w'.cells[id]) {
      assert CellOk(w, CellAt(w, id));
      NextKeepsCell(w, a, id);
      CellAtNext(w, a, id);
      CellFrame(w, w', CellAt(w', id));
    }
  }

  lemma {:induction false} ExecKeepsCells(items: map<string, Item>, actions: seq<Action>)
    requires Exec(items, actions).Some?
    ensures CellsOk(Exec(items, actions).value)
    decreases |actions|
  {
    if actions != [] {
      var front := actions[..|actions| - 1];
      ExecKeepsCells(items, front);
      NextKeepsCells(Exec(items, front).value, actions[|actions| - 1]);
    }
  }

  /** What happens to a job captured before the manual mutation that the guard records. */
  lemma {:induction false} EarlierJobIsRefused(items: map<string, Item>, actions: seq<Action>, a: Action)
    requires Exec(items, actions).Some? && a.Apply? && Enabled(Exec(items, actions).value, a)
    requires var w := Exec(items, actions).value;
             var g := CellAt(w, Target(a.job, a.proposal)).guard;
             g.Some? && g.value.manualAt.Some? && w.jobs[a.job].captured < g.value.manualAt.value
    ensures var w := Exec(items, actions).value;
            var w' := Next(w, a);
            && (forall id :: CellAt(w', id) == CellAt(w, id))
            && w'.applied == w.applied
            && !w'.work[a.job].WorkApplied?
  {
    ExecKeepsCells(items, actions);
    var w := Exec(items, actions).value;
    var id := Target(a.job, a.proposal);
    assert CellOk(w, w.cells[id]);
  }

  /** A manual mutation of this memory that reaches its commit. */
  predicate ManualCommit(a: Action, id: string) {
    match a
    case CreateManual(other, _, fate) => other == id && fate == Committed
    case UpdateManual(other, _, fate) => other == id && fate == Committed
    case DeleteManual(other, fate) => other == id && fate == Committed
    case _ => false
  }

  /** The guard records a manual mutation at this time or later. */
  predicate ManualSince(w: World, id: string, time: int) {
    && w.now >= time
    && CellAt(w, id).guard.Some?
    && CellAt(w, id).guard.value.manualAt.Some? && CellAt(w, id).guard.value.manualAt.value >= time
  }

  lemma ManualSinceStays(w: World, a: Action, id: string, time: int)
    requires Enabled(w, a) && w.now >= time && (ManualCommit(a, id) || ManualSince(w, id, time))
    ensures ManualSince(Next(w, a), id, time)
  {
    CellAtNext(w, a, id);
    ClockRuns(w, a);
  }

  lemma ClockRuns(w: World, a: Action)
    requires Enabled(w, a)
    ensures Next(w, a).now >= w.now
  {
  }

  lemma {:induction false} ManualStays(
      items: map<string, Item>, before: seq<Action>, m: Action, id: string, more: seq<Action>)
    requires Exec(items, before + [m] + more).Some? && ManualCommit(m, id)
    ensures Exec(items, before).Some?
    ensures ManualSince(Exec(items, before + [m] + more).value, id, Exec(items, before).value.now)
    decreases |more|
  {
    var start := before + [m];
    if more == [] {
      Neutral(start);
      assert start[..|start| - 1] == before;
      ManualSinceStays(Exec(items, before).value, m, id, Exec(items, before).value.now);
    } else {
      var front := more[..|more| - 1];
      assert (start + more)[..|start + more| - 1] == start + front;
      ManualStays(items, before, m, id, front);
      ManualSinceStays(Exec(items, start + front).value, more[|more| - 1], id, Exec(items, before).value.now);
    }
  }

  /**
   * Manual edits win forever: after a committed manual mutation of an id and any actions behind it, crashes
   * included, a job captured strictly before that mutation changes neither the item nor its guard, and is never
   * reported as applied.
   */
  lemma {:induction false} ManualEditsWin(
      items: map<string, Item>, before: seq<Action>, m: Action, id: string, more: seq<Action>, a: Action)
    requires Exec(items, before + [m] + more).Some? && ManualCommit(m, id)
    requires a.Apply? && Target(a.job, a.proposal) == id && Enabled(Exec(items, before + [m] + more).value, a)
    requires Exec(items, before).Some?
    requires Exec(items, before + [m] + more).value.jobs[a.job].captured < Exec(items, before).value.now
    ensures var w := Exec(items, before + [m] + more).value;
            var w' := Next(w, a);
            && (forall other :: CellAt(w', other) == CellAt(w, other))
            && w'.applied == w.applied
            && !w'.work[a.job].WorkApplied?
  {
    ManualStays(items, before, m, id, more);
    EarlierJobIsRefused(items, before + [m] + more, a);
  }

  predicate Buried(c: Cell) {
    c.guard.Some? && c.guard.value.deletedAt.Some? && c.item.None?
  }

  lemma BuriedStays(w: World, a: Action, id: string)
    requires CellsOk(w) && Enabled(w, a) && Buried(CellAt(w, id))
    requires a.UpdateManual? ==> a.id != id
    ensures Buried(CellAt(Next(w, a), id))
  {
    CellAtNext(w, a, id);
    assert CellOk(w, w.cells[id]);
  }

  /**
   * After a committed delete an item stays away until a manual update of the same id, whatever jobs and crashes
   * follow.
   */
  lemma {:induction false} TombstoneHolds(items: map<string, Item>, actions: seq<Action>, more: seq<Action>, id: string)
    requires Exec(items, actions).Some? && Buried(CellAt(Exec(items, actions).value, id))
    requires Exec(items, actions + more).Some?
    requires forall i :: 0 <= i < |more| && more[i].UpdateManual? ==> more[i].id != id
    ensures Buried(CellAt(Exec(items, actions + more).value, id))
    decreases |more|
  {
    if more == [] {
      assert actions + more == actions;
    } else {
      var front := more[..|more| - 1];
      assert (actions + more)[..|actions + more| - 1] == actions + front;
      TombstoneHolds(items, actions, front, id);
      ExecKeepsCells(items, actions + front);
      BuriedStays(Exec(items, actions + front).value, more[|more| - 1], id);
    }
  }

  // ----- job lifecycle -----

  predicate JobOk(w: World, job: string) {
    && (job in w.jobs ==> job in w.takes && w.takes[job] == if w.jobs[job].status == JobPending then 0 else 1)
    && (job in w.work ==> job in w.jobs && w.jobs[job].status != JobPending)
    && (job in w.applied <==> job in w.work && w.work[job].WorkApplied?)
    && (job in w.applied ==> w.applied[job] == (w.work[job].id, w.work[job].version))
    && (job in w.jobs && w.jobs[job].status == JobSucceeded ==>
          job in w.applied && w.jobs[job].memory == Some(w.applied[job]))
  }

  ghost predicate UniqueKeys(jobs: map<string, Job>) {
    forall i, j :: i in jobs && j in jobs && jobs[i].key == jobs[j].key ==> i == j
  }

  ghost predicate KeysOk(w: World) {
    UniqueKeys(w.jobs)
  }

  lemma NewKey(jobs: map<string, Job>, name: string, job: Job)
    requires UniqueKeys(jobs) && forall i :: i in jobs ==> jobs[i].key != job.key
    ensures UniqueKeys(jobs[name := job])
  {
  }

  lemma SameKeys(jobs: map<string, Job>, jobs': map<string, Job>)
    requires UniqueKeys(jobs) && forall i :: i in jobs' ==> i in jobs && jobs'[i].key == jobs[i].key
    ensures UniqueKeys(jobs')
  {
  }

  ghost predicate JobsOk(w: World) {
    KeysOk(w) && forall job :: JobOk(w, job)
  }

  lemma SettleKeepsJob(w: World, other: string, status: JobStatus, memory: Option<(string, nat)>, job: string)
    requires JobOk(w, job) && other in w.jobs && status !in {JobPending, JobRunning}
    requires status == JobSucceeded ==> other in w.applied && memory == Some(w.applied[other])
    ensures JobOk(Settle(w, other, status, memory), job)
  {
  }

  lemma TakeKeepsJob(w: World, other: string, job: string)
    requires JobOk(w, job) && JobOk(w, other) && Enabled(w, TakeJob(other))
    ensures JobOk(Next(w, TakeJob(other)), job)
  {
  }

  lemma RegisterKeepsJob(w: World, other: string, key: string, captured: int, job: string)
    requires JobOk(w, job) && Enabled(w, Register(other, key, captured))
    ensures JobOk(Next(w, Register(other, key, captured)), job)
  {
  }

  lemma ApplyKeepsJob(w: World, other: string, p: Proposal, duplicate: bool, fate: Fate, job: string)
    requires JobOk(w, job) && Enabled(w, Apply(other, p, duplicate, fate))
    ensures JobOk(Next(w, Apply(other, p, duplicate, fate)), job)
  {
  }

  lemma RestartKeepsJob(w: World, job: string)
    requires JobOk(w, job)
    ensures JobOk(Next(w, Restart), job)
  {
  }

  lemma NextKeepsJob(w: World, a: Action, job: string)
    requires JobsOk(w) && Enabled(w, a)
    ensures JobOk(Next(w, a), job)
  {
    assert JobOk(w, job);
    match a {
      case Register(other, key, captured) => RegisterKeepsJob(w, other, key, captured, job);
      case TakeJob(other) =>
        assert JobOk(w, other);
        TakeKeepsJob(w, other, job);
      case Apply(other, p, duplicate, fate) => ApplyKeepsJob(w, other, p, duplicate, fate, job);
      case Finish(other) =>
        assert JobOk(w, other);
        match w.work[other] {
          case WorkApplied(id, version) => SettleKeepsJob(w, other, JobSucceeded, Some((id, version)), job);
          case _ => SettleKeepsJob(w, other, JobSkipped, None, job);
        }
      case Decline(other) => SettleKeepsJob(w, other, JobSkipped, None, job);
      case Fail(other) => SettleKeepsJob(w, other, JobFailed, None, job);
      case Restart => RestartKeepsJob(w, job);
      case _ =>
    }
  }

  lemma NextKeepsKeys(w: World, a: Action)
    requires KeysOk(w) && Enabled(w, a)
    ensures KeysOk(Next(w, a))
  {
    var w' := Next(w, a);
    if a.Register? {
      if !Registered(w, a.key) {
        NewKey(w.jobs, a.job, w'.jobs[a.job]);
      }
    } else {
      NextKeepsJobSet(w, a);
      SameKeys(w.jobs, w'.jobs);
    }
  }

  lemma NextKeepsJobs(w: World, a: Action)
    requires JobsOk(w) && Enabled(w, a)
    ensures JobsOk(Next(w, a))
  {
    NextKeepsKeys(w, a);
    forall job ensures JobOk(Next(w, a), job) {
      NextKeepsJob(w, a, job);
    }
  }

  lemma {:induction false} ExecKeepsJobs(items: map<string, Item>, actions: seq<Action>)
    requires Exec(items, actions).Some?
    ensures JobsOk(Exec(items, actions).value)
    decreases |actions|
  {
    if actions != [] {
      var front := actions[..|actions| - 1];
      ExecKeepsJobs(items, front);
      NextKeepsJobs(Exec(items, front).value, actions[|actions| - 1]);
    }
  }

  /**
   * A job is taken at most once, its key belongs to it alone, and if it succeeded it names a write that was
   * committed.
   */
  lemma {:induction false} JobLifecycle(items: map<string, Item>, actions: seq<Action>, job: string)
    requires Exec(items, actions).Some? && job in Exec(items, actions).value.jobs
    ensures var w := Exec(items, actions).value;
            && job in w.takes && w.takes[job] <= 1
            && (forall other :: other in w.jobs && w.jobs[other].key == w.jobs[job].key ==> other == job)
            && (w.jobs[job].status == JobSucceeded ==> job in w.applied && w.jobs[job].memory == Some(w.applied[job]))
  {
    ExecKeepsJobs(items, actions);
    var w := Exec(items, actions).value;
    assert JobOk(w, job);
    forall other | other in w.jobs && w.jobs[other].key == w.jobs[job].key ensures other == job {
    }
  }

  /** How often a history takes a job. */
  function Takes(actions: seq<Action>, job: string): nat {
    if actions == [] then 0
    else Takes(actions[..|actions| - 1], job) + if actions[|actions| - 1] == TakeJob(job) then 1 else 0
  }

  lemma TakeIsCounted(w: World, other: string, job: string)
    requires Enabled(w, TakeJob(other)) && job in w.jobs && job in w.takes
    ensures job in Next(w, TakeJob(other)).takes
    ensures Next(w, TakeJob(other)).takes[job] == w.takes[job] + if other == job then 1 else 0
  {
  }

  lemma NothingElseCounts(w: World, a: Action, job: string)
    requires Enabled(w, a) && !a.TakeJob? && !a.Register?
    ensures Next(w, a).takes == w.takes
  {
    match a {
      case Finish(other) =>
        match w.work[other] {
          case WorkApplied(id, version) => assert Settle(w, other, JobSucceeded, Some((id, version))).takes == w.takes;
          case WorkStale => assert Settle(w, other, JobSkipped, None).takes == w.takes;
          case WorkBroken =>
        }
      case _ =>
    }
  }

  lemma RegistrationCounts(w: World, other: string, key: string, captured: int, job: string)
    requires Enabled(w, Register(other, key, captured))
    ensures job in w.jobs && job in w.takes ==>
              && job in Next(w, Register(other, key, captured)).takes
              && Next(w, Register(other, key, captured)).takes[job] == w.takes[job]
    ensures job !in w.jobs && job in Next(w, Register(other, key, captured)).jobs ==>
              && job in Next(w, Register(other, key, captured)).takes
              && Next(w, Register(other, key, captured)).takes[job] == 0
  {
  }

  lemma TakesStep(w: World, a: Action, job: string)
    requires JobsOk(w) && Enabled(w, a)
    ensures job in w.takes && job in w.jobs ==>
              job in Next(w, a).takes && Next(w, a).takes[job] == w.takes[job] + if a == TakeJob(job) then 1 else 0
    ensures job !in w.jobs ==> a != TakeJob(job)
    ensures job !in w.jobs && job in Next(w, a).jobs ==> job in Next(w, a).takes && Next(w, a).takes[job] == 0
  {
    if a.Register? {
      RegistrationCounts(w, a.job, a.key, a.captured, job);
    } else {
      NextKeepsJobSet(w, a);
      if a.TakeJob? {
        if job in w.jobs && job in w.takes {
          TakeIsCounted(w, a.job, job);
        }
      } else {
        NothingElseCounts(w, a, job);
      }
    }
  }

  lemma {:induction false} TakesAreCounted(items: map<string, Item>, actions: seq<Action>, job: string)
    requires Exec(items, actions).Some?
    ensures var w := Exec(items, actions).value;
            if job in w.jobs then job in w.takes && w.takes[job] == Takes(actions, job) else Takes(actions, job) == 0
    decreases |actions|
  {
    if actions != [] {
      var front := actions[..|actions| - 1];
      TakesAreCounted(items, front, job);
      ExecKeepsJobs(items, front);
      assert JobOk(Exec(items, front).value, job);
      TakesStep(Exec(items, front).value, actions[|actions| - 1], job);
      if !actions[|actions| - 1].Register? {
        NextKeepsJobSet(Exec(items, front).value, actions[|actions| - 1]);
      }
    }
  }

  /** No history takes a job twice, and it takes every job that is not pending any more. */
  lemma {:induction false} TakenOnce(items: map<string, Item>, actions: seq<Action>, job: string)
    requires Exec(items, actions).Some?
    ensures Takes(actions, job) <= 1
    ensures var w := Exec(items, actions).value;
            Takes(actions, job) == 1 <==> job in w.jobs && w.jobs[job].status != JobPending
  {
    TakesAreCounted(items, actions, job);
    ExecKeepsJobs(items, actions);
    assert JobOk(Exec(items, actions).value, job);
  }

  /** What `applied` records: at that step the guard was committed with the job's mark and the reported version. */
  lemma AppliedMeansCommitted(w: World, a: Action)
    requires a.Apply? && Enabled(w, a) && Next(w, a).work[a.job].WorkApplied?
    ensures var w' := Next(w, a);
            var id := Target(a.job, a.proposal);
            var g := CellAt(w', id).guard;
            && g.Some? && g.value.job == Some(a.job)
            && w'.applied[a.job] == (id, g.value.version)
  {
  }

  // ----- what an applied job leaves -----

  /** A mark on the item that the guard does not carry stands for a write that is still to be committed. */
  predicate MarkOk(c: Cell) {
    c.guard.Some? && c.item.Some? && c.item.value.job.Some? && c.item.value.job != c.guard.value.job ==>
      c.item.value.version > c.guard.value.version
  }

  /** The guard has reached the version, and at that version carries the job's mark. */
  predicate Marked(c: Cell, job: string, version: nat) {
    && c.guard.Some? && c.guard.value.version >= version
    && (c.guard.value.version == version ==> c.guard.value.job == Some(job))
  }

  lemma MarksStay(w: World, a: Action, id: string)
    requires Enabled(w, a) && MarkOk(CellAt(w, id))
    ensures MarkOk(CellAfter(w, a, id))
  {
  }

  lemma MarkedStays(w: World, a: Action, id: string, job: string, version: nat)
    requires Enabled(w, a) && MarkOk(CellAt(w, id)) && Marked(CellAt(w, id), job, version)
    ensures Marked(CellAfter(w, a, id), job, version)
  {
  }

  ghost predicate Durable(w: World) {
    && (forall id :: MarkOk(CellAt(w, id)))
    && (forall job :: job in w.applied ==> Marked(CellAt(w, w.applied[job].0), job, w.applied[job].1))
  }

  lemma SettleKeepsApplied(w: World, job: string, status: JobStatus, memory: Option<(string, nat)>)
    requires job in w.jobs
    ensures Settle(w, job, status, memory).applied == w.applied
  {
  }

  /** Only a call for the job itself adds to what was applied. */
  lemma AppliedAtNext(w: World, a: Action, job: string)
    requires Enabled(w, a) && !(a.Apply? && a.job == job)
    ensures job in Next(w, a).applied <==> job in w.applied
    ensures job in w.applied ==> Next(w, a).applied[job] == w.applied[job]
  {
    match a {
      case Finish(other) =>
        match w.work[other] {
          case WorkApplied(id, version) => SettleKeepsApplied(w, other, JobSucceeded, Some((id, version)));
          case WorkStale => SettleKeepsApplied(w, other, JobSkipped, None);
          case WorkBroken =>
        }
      case Decline(other) => SettleKeepsApplied(w, other, JobSkipped, None);
      case Fail(other) => SettleKeepsApplied(w, other, JobFailed, None);
      case _ =>
    }
  }

  lemma OwnApplied(w: World, job: string, p: Proposal, duplicate: bool, fate: Fate)
    requires Enabled(w, Apply(job, p, duplicate, fate))
    ensures var w' := Next(w, Apply(job, p, duplicate, fate));
            w'.work[job].WorkApplied? || w'.applied == w.applied
  {
  }

  lemma AppliedBefore(w: World, a: Action, job: string)
    requires Enabled(w, a) && job in Next(w, a).applied
    requires !(a.Apply? && a.job == job && Next(w, a).work[job].WorkApplied?)
    ensures job in w.applied && Next(w, a).applied[job] == w.applied[job]
  {
    if a.Apply? && a.job == job {
      OwnApplied(w, job, a.proposal, a.duplicate, a.fate);
    } else {
      AppliedAtNext(w, a, job);
    }
  }

  lemma NextIsDurable(w: World, a: Action)
    requires Durable(w) && Enabled(w, a)
    ensures Durable(Next(w, a))
  {
    var w' := Next(w, a);
    forall id ensures MarkOk(CellAt(w', id)) {
      CellAtNext(w, a, id);
      MarksStay(w, a, id);
    }
    forall job | job in w'.applied ensures Marked(CellAt(w', w'.applied[job].0), job, w'.applied[job].1) {
      CellAtNext(w, a, w'.applied[job].0);
      if a.Apply? && a.job == job && w'.work[job].WorkApplied? {
        AppliedMeansCommitted(w, a);
      } else {
        AppliedBefore(w, a, job);
        MarkedStays(w, a, w.applied[job].0, job, w.applied[job].1);
      }
    }
  }

  lemma {:induction false} ExecIsDurable(items: map<string, Item>, actions: seq<Action>)
    requires Exec(items, actions).Some?
    ensures Durable(Exec(items, actions).value)
    decreases |actions|
  {
    if actions != [] {
      var front := actions[..|actions| - 1];
      ExecIsDurable(items, front);
      NextIsDurable(Exec(items, front).value, actions[|actions| - 1]);
    }
  }

  /**
   * An applied job stays applied: in every reachable world, crashes included, the guard of the memory it
   * wrote has reached the reported version, and as long as it stands there carries the job's mark. A job that
   * succeeded is one of them.
   */
  lemma {:induction false} SucceededIsDurable(items: map<string, Item>, actions: seq<Action>, job: string)
    requires Exec(items, actions).Some? && job in Exec(items, actions).value.jobs
    requires Exec(items, actions).value.jobs[job].status == JobSucceeded
    ensures var w := Exec(items, actions).value;
            w.jobs[job].memory.Some? &&
            var (id, version) := w.jobs[job].memory.value;
            Marked(CellAt(w, id), job, version)
  {
    ExecKeepsJobs(items, actions);
    ExecIsDurable(items, actions);
    var w := Exec(items, actions).value;
    assert JobOk(w, job);
  }

  // ----- how a job goes -----

  /** What can happen to a job: it is taken once, extracts and calls while it runs, and its call comes once. */
  lemma JobChoices(w: World, job: string, id: string, p: Proposal, duplicate: bool, fate: Fate)
    ensures Enabled(w, TakeJob(job)) <==> job in w.jobs && w.jobs[job].status == JobPending
    ensures Enabled(w, Extract(job, id)) <==>
              job in w.jobs && w.jobs[job].status == JobRunning && job !in w.work && CellAt(w, id).item != None
    ensures p.operation == Create ==>
              (Enabled(w, Apply(job, p, duplicate, fate)) <==>
               job in w.jobs && w.jobs[job].status == JobRunning && job !in w.work)
    ensures p.operation == Update ==>
              (Enabled(w, Apply(job, p, duplicate, fate)) <==>
               && job in w.jobs && w.jobs[job].status == JobRunning && job !in w.work && p.target != ""
               && job in w.seen && p.target == w.seen[job].id && p.base == Some(w.seen[job].item.version))
    ensures p.operation == Noop ==> !Enabled(w, Apply(job, p, duplicate, fate))
    ensures Enabled(w, Finish(job)) <==> job in w.jobs && job in w.work && w.work[job] != WorkBroken
    ensures Enabled(w, Decline(job)) <==> job in w.jobs && job !in w.work
    ensures Enabled(w, Fail(job)) <==> job in w.jobs
  {
  }

  /** Whatever the jobs do, time passes, the owner may edit, delete, and create under fresh ids, and runs leave jobs. */
  lemma OwnerChoices(w: World, id: string, fields: map<string, string>, fate: Fate, to: int, job: string, key: string)
    ensures Enabled(w, UpdateManual(id, fields, fate)) && Enabled(w, DeleteManual(id, fate)) && Enabled(w, Restart)
    ensures Enabled(w, CreateManual(id, fields, fate)) <==> id !in w.cells && id !in w.legacy
    ensures Enabled(w, Advance(to)) <==> to >= w.now
    ensures to >= w.now ==> Next(w, Advance(to)) == w.(now := to)
    ensures job !in w.jobs ==> (Enabled(w, Register(job, key, to)) <==> to <= w.now)
    ensures job in w.jobs && to <= w.now ==>
              (Enabled(w, Register(job, key, to)) <==>
               exists other :: other in w.jobs && w.jobs[other].key == key)
  {
  }

  /** A job that is not running is settled by nobody. */
  lemma SettledStays(w: World, job: string, status: JobStatus, memory: Option<(string, nat)>, other: string)
    requires job in w.jobs && other in w.jobs
    ensures other in Settle(w, job, status, memory).jobs
    ensures Settle(w, job, status, memory).jobs[other] ==
            if other == job && w.jobs[job].status == JobRunning then w.jobs[job].(status := status, memory := memory)
            else w.jobs[other]
  {
  }

  /** The record of a finished call: an applied one succeeded under the memory it names, a stale one is skipped. */
  lemma FinishStep(w: World, job: string, other: string)
    requires Enabled(w, Finish(job)) && other in w.jobs
    ensures var w' := Next(w, Finish(job));
            other in w'.jobs &&
            if other != job || w.jobs[job].status != JobRunning then w'.jobs[other] == w.jobs[other]
            else if w.work[job].WorkApplied?
            then w'.jobs[job] == w.jobs[job].(status := JobSucceeded,
                                              memory := Some((w.work[job].id, w.work[job].version)))
            else w'.jobs[job] == w.jobs[job].(status := JobSkipped, memory := None)
  {
    match w.work[job] {
      case WorkApplied(id, version) => SettledStays(w, job, JobSucceeded, Some((id, version)), other);
      case _ => SettledStays(w, job, JobSkipped, None, other);
    }
  }

  /** Declined work is skipped, and an error fails it, as long as the job runs. */
  lemma StopStep(w: World, job: string, other: string)
    requires other in w.jobs
    ensures Enabled(w, Decline(job)) ==>
              other in Next(w, Decline(job)).jobs &&
              Next(w, Decline(job)).jobs[other] ==
              if other == job && w.jobs[job].status == JobRunning
              then w.jobs[job].(status := JobSkipped, memory := None) else w.jobs[other]
    ensures Enabled(w, Fail(job)) ==>
              other in Next(w, Fail(job)).jobs &&
              Next(w, Fail(job)).jobs[other] ==
              if other == job && w.jobs[job].status == JobRunning
              then w.jobs[job].(status := JobFailed, memory := None) else w.jobs[other]
  {
    if job in w.jobs {
      SettledStays(w, job, JobSkipped, None, other);
      SettledStays(w, job, JobFailed, None, other);
    }
  }

  /** A restart fails whatever was running. */
  lemma RestartStep(w: World, job: string)
    requires job in w.jobs
    ensures job in Next(w, Restart).jobs
    ensures Next(w, Restart).jobs[job] ==
            if w.jobs[job].status == JobRunning then w.jobs[job].(status := JobFailed) else w.jobs[job]
  {
  }

  /** Only a pending job can be taken; nothing else touches a job. */
  lemma OtherStep(w: World, a: Action, job: string)
    requires Enabled(w, a) && job in w.jobs && !a.Decline? && !a.Fail? && !a.Restart? && !a.Finish? && !a.Register?
    ensures job in Next(w, a).jobs
    ensures a == TakeJob(job) ==>
              w.jobs[job].status == JobPending && Next(w, a).jobs[job] == w.jobs[job].(status := JobRunning)
    ensures a != TakeJob(job) ==> Next(w, a).jobs[job] == w.jobs[job]
  {
  }

  /** A registration adds a pending job under a key that no job has yet, and is nothing when one has it. */
  lemma RegistrationStep(w: World, job: string, key: string, captured: int)
    requires Enabled(w, Register(job, key, captured))
    ensures var w' := Next(w, Register(job, key, captured));
            if exists other :: other in w.jobs && w.jobs[other].key == key then w' == w
            else
              && job !in w.jobs && w'.jobs == w.jobs[job := Job(key, captured, JobPending, None)]
              && w' == w.(jobs := w'.jobs, takes := w'.takes) && job in w'.takes && w'.takes[job] == 0
  {
  }

  /** What the worker remembers of its call, for the record it makes afterwards. */
  lemma CallStep(w: World, job: string, p: Proposal, duplicate: bool)
    requires Enabled(w, Apply(job, p, duplicate, Committed))
    ensures var w' := Next(w, Apply(job, p, duplicate, Committed));
            var id := if p.operation == Create then DeterministicId(job) else p.target;
            var (cell, answer) := ApplyCell(CellAt(w, id), job, w.jobs[job].captured, p, duplicate, Committed);
            && CellAt(w', id) == cell && (forall other :: other != id ==> CellAt(w', other) == CellAt(w, other))
            && job in w'.work && w'.jobs == w.jobs && w'.seen == w.seen && w'.now == w.now
            && w'.work[job] == (if answer.Applied? then WorkApplied(id, answer.version) else WorkStale)
  {
  }

  /** A job from its registration to the end of its work. */
  function JobRun(job: string, key: string, middle: seq<Action>): seq<Action> {
    [Register(job, key, 0), TakeJob(job)] + middle + [Finish(job)]
  }

  lemma ExecOne(items: map<string, Item>, actions: seq<Action>, w: World, a: Action)
    requires Exec(items, actions) == Some(w) && Enabled(w, a)
    ensures Exec(items, actions + [a]) == Some(Next(w, a))
  {
    assert (actions + [a])[..|actions|] == actions;
  }

  lemma {:induction false} JobStarts(items: map<string, Item>, job: string, key: string)
    ensures Exec(items, [Register(job, key, 0), TakeJob(job)]).Some?
    ensures var w := Exec(items, [Register(job, key, 0), TakeJob(job)]).value;
            && w.jobs == map[job := Job(key, 0, JobRunning, None)] && w.legacy == items && w.cells == map[]
            && w.work == map[] && w.seen == map[] && w.now == 0
  {
    var start := Start(items);
    ExecOne(items, [], start, Register(job, key, 0));
    Neutral([Register(job, key, 0)]);
    assert [] + [Register(job, key, 0)] == [Register(job, key, 0)];
    ExecOne(items, [Register(job, key, 0)], Next(start, Register(job, key, 0)), TakeJob(job));
    assert [Register(job, key, 0)] + [TakeJob(job)] == [Register(job, key, 0), TakeJob(job)];
  }

  lemma {:induction false} JobEnds(
      items: map<string, Item>, job: string, key: string, middle: seq<Action>, w: World, id: string, version: nat)
    requires Exec(items, [Register(job, key, 0), TakeJob(job)] + middle) == Some(w)
    requires job in w.jobs && w.jobs[job].status == JobRunning
    requires job in w.work && w.work[job] == WorkApplied(id, version)
    ensures Exec(items, JobRun(job, key, middle)) == Some(Next(w, Finish(job)))
    ensures var w' := Next(w, Finish(job));
            && w'.jobs[job].status == JobSucceeded && w'.jobs[job].memory == Some((id, version))
            && CellAt(w', id) == CellAt(w, id)
  {
    ExecOne(items, [Register(job, key, 0), TakeJob(job)] + middle, w, Finish(job));
    FinishStep(w, job, job);
    CellAtNext(w, Finish(job), id);
  }

  lemma CreationCalls(w: World, job: string, key: string, fields: map<string, string>)
    requires w.jobs == map[job := Job(key, 0, JobRunning, None)] && w.work == map[]
    requires CellAt(w, DeterministicId(job)) == NO_CELL
    ensures var call := Apply(job, Proposal(Create, "", None, fields), false, Committed);
            Enabled(w, call) &&
            var w' := Next(w, call);
            && w'.jobs == w.jobs && job in w'.work && w'.work[job] == WorkApplied(DeterministicId(job), 1)
            && CellAt(w', DeterministicId(job)).item == Some(Item(fields, 1, Some(job)))
  {
    CallStep(w, job, Proposal(Create, "", None, fields), false);
    assert map[] + fields == fields;
  }

  /**
   * An undisturbed job that creates a memory succeeds: whatever it proposes, without a twin, is stored with version 1
   * under an id of its own, and the job names it.
   */
  lemma {:induction false} CreationSucceeds(
      items: map<string, Item>, job: string, key: string, fields: map<string, string>)
    requires DeterministicId(job) !in items
    ensures var id := DeterministicId(job);
            var call := Apply(job, Proposal(Create, "", None, fields), false, Committed);
            var done := Exec(items, JobRun(job, key, [call]));
            && done.Some? && job in done.value.jobs
            && done.value.jobs[job].status == JobSucceeded && done.value.jobs[job].memory == Some((id, 1))
            && CellAt(done.value, id).item == Some(Item(fields, 1, Some(job)))
  {
    var id, a := DeterministicId(job), Apply(job, Proposal(Create, "", None, fields), false, Committed);
    var two := [Register(job, key, 0), TakeJob(job)];
    JobStarts(items, job, key);
    var w := Exec(items, two).value;
    CreationCalls(w, job, key, fields);
    ExecOne(items, two, w, a);
    JobEnds(items, job, key, [a], Next(w, a), id, 1);
  }

  lemma UpdateCalls(w: World, job: string, key: string, id: string, had: Item, fields: map<string, string>)
    requires w.jobs == map[job := Job(key, 0, JobRunning, None)] && w.work == map[]
    requires CellAt(w, id) == Cell(None, Some(had)) && id != "" && had.job != Some(job)
    ensures var call := Apply(job, Proposal(Update, id, Some(had.version), fields), false, Committed);
            Enabled(w, Extract(job, id)) && Enabled(Next(w, Extract(job, id)), call) &&
            var w' := Next(Next(w, Extract(job, id)), call);
            && w'.jobs == w.jobs && job in w'.work && w'.work[job] == WorkApplied(id, had.version + 1)
            && CellAt(w', id).item == Some(Item(had.fields + fields, had.version + 1, Some(job)))
  {
    CellAtNext(w, Extract(job, id), id);
    CallStep(Next(w, Extract(job, id)), job, Proposal(Update, id, Some(had.version), fields), false);
  }

  /** So does one that updates a memory it has seen: its fields over the old ones, one version further. */
  lemma {:induction false} UpdateSucceeds(
      items: map<string, Item>, job: string, key: string, id: string, fields: map<string, string>)
    requires id in items && id != "" && items[id].job != Some(job)
    ensures var had := items[id];
            var call := Apply(job, Proposal(Update, id, Some(had.version), fields), false, Committed);
            var done := Exec(items, JobRun(job, key, [Extract(job, id)] + [call]));
            && done.Some? && job in done.value.jobs
            && done.value.jobs[job].status == JobSucceeded
            && done.value.jobs[job].memory == Some((id, had.version + 1))
            && CellAt(done.value, id).item == Some(Item(had.fields + fields, had.version + 1, Some(job)))
  {
    var had, two := items[id], [Register(job, key, 0), TakeJob(job)];
    var call := Apply(job, Proposal(Update, id, Some(had.version), fields), false, Committed);
    JobStarts(items, job, key);
    var w := Exec(items, two).value;
    UpdateCalls(w, job, key, id, had, fields);
    ExecOne(items, two, w, Extract(job, id));
    var w' := Next(w, Extract(job, id));
    ExecOne(items, two + [Extract(job, id)], w', call);
    Assoc(two, [Extract(job, id)], [call]);
    JobEnds(items, job, key, [Extract(job, id)] + [call], Next(w', call), id, had.version + 1);
  }
}
