/**
 * All runs of all threads, and the reflection jobs that finished runs leave behind: creation under the
 * session lock, the two status transactions, and the registration that shares the finishing transaction.
 */
module RunTable {
  import opened Events
  import opened RunLifecycle

  /** A row with the fields that never change after creation. */
  datatype Run = Run(thread: string, user: nat, message: string, resumed: bool, row: Row)

  datatype JobKind = Profile | Experience

  datatype Stage = StageOf(status: Status) | ArtifactRevision | TeachingOutcome

  /** The idempotency key of a job; its extractor version is a constant. */
  datatype Key = Key(user: nat, run: string, kind: JobKind, stage: Stage)

  /** What a checkpoint tells about a finished round. */
  datatype Checkpoint = Checkpoint(intent: string, ready: bool, revision: bool, plan: string)

  datatype Table = Table(runs: map<string, Run>, jobs: map<Key, int>)

  const NO_RUNS := Table(map[], map[])

  datatype Created = Accepted | NotFound | Conflict(run: string)

  predicate ActiveIn(runs: map<string, Run>, id: string, thread: string, user: nat) {
    id in runs && runs[id].thread == thread && runs[id].user == user && !Finished(runs[id].row.status)
  }

  predicate Busy(runs: map<string, Run>, thread: string, user: nat) {
    exists id :: id in runs && ActiveIn(runs, id, thread, user)
  }

  function Create(t: Table, id: string, thread: string, user: nat, message: string, resumed: bool, owned: bool): Table {
    if !owned || Busy(t.runs, thread, user) then t
    else t.(runs := t.runs[id := Run(thread, user, message, resumed, QUEUED_ROW)])
  }

  /** `build_reflection_job_candidates`; `strip` removes the white space around a string. */
  function Candidates(id: string, run: Run, status: Status, checkpoint: Option<Checkpoint>,
                      strip: string -> string): seq<Key>
  {
    if status !in {WaitingApproval, Succeeded} then []
    else
      var profile :=
        if strip(run.message) != "" && !run.resumed then [Key(run.user, id, Profile, StageOf(status))] else [];
      if || status != Succeeded || checkpoint.None?
         || checkpoint.value.intent !in {"teaching_plan", "artifact_revision"} then profile
      else
        var c := checkpoint.value;
        if c.ready || (c.intent == "teaching_plan" && strip(c.plan) != "")
        then profile + [Key(run.user, id, Experience, if c.revision then ArtifactRevision else TeachingOutcome)]
        else profile
  }

  /** Jobs under keys that are not taken yet, in order. */
  function Register(jobs: map<Key, int>, keys: seq<Key>, captured: int): map<Key, int> {
    if keys == [] then jobs
    else
      var front := Register(jobs, keys[..|keys| - 1], captured);
      if keys[|keys| - 1] in front then front else front[keys[|keys| - 1] := captured]
  }

  /** One transaction: an active run is finished and its candidates registered, or nothing happens. */
  function Finalize(t: Table, id: string, plan: Plan, keys: seq<Key>, captured: int): Table {
    if id !in t.runs || Finished(t.runs[id].row.status) then t
    else
      var run := t.runs[id];
      Table(t.runs[id := run.(row := FinalizeRow(run.row, plan.status, plan.output, plan.sequence))],
            Register(t.jobs, keys, captured))
  }

  /** Restarts and rejected schedules finalize without candidates: `reflect` is false. */
  datatype Action =
    | DoCreate(id: string, thread: string, user: nat, message: string, resumed: bool, owned: bool)
    | DoMark(id: string)
    | DoFinalize(id: string, plan: Plan, reflect: bool, checkpoint: Option<Checkpoint>, captured: int)

  predicate Enabled(t: Table, a: Action) {
    match a
    case DoCreate(id, _, _, _, _, _) => id !in t.runs
    case DoMark(_) => true
    case DoFinalize(_, plan, _, _, _) => Finished(plan.status)
  }

  function KeysFor(t: Table, a: Action, strip: string -> string): seq<Key>
    requires a.DoFinalize?
  {
    if a.reflect && a.id in t.runs then Candidates(a.id, t.runs[a.id], a.plan.status, a.checkpoint, strip) else []
  }

  function Next(t: Table, a: Action, strip: string -> string): Table {
    match a
    case DoCreate(id, thread, user, message, resumed, owned) => Create(t, id, thread, user, message, resumed, owned)
    case DoMark(id) =>
      if id in t.runs then t.(runs := t.runs[id := t.runs[id].(row := MarkRow(t.runs[id].row))]) else t
    case DoFinalize(id, plan, _, _, captured) => Finalize(t, id, plan, KeysFor(t, a, strip), captured)
  }

  function Exec(actions: seq<Action>, strip: string -> string): Option<Table> {
    if actions == [] then Some(NO_RUNS)
    else
      match Exec(actions[..|actions| - 1], strip)
      case None => None
      case Some(t) =>
        if Enabled(t, actions[|actions| - 1]) then Some(Next(t, actions[|actions| - 1], strip)) else None
  }

  // ----- what is kept -----

  ghost predicate OneActive(runs: map<string, Run>) {
    forall i, j, thread, user :: ActiveIn(runs, i, thread, user) && ActiveIn(runs, j, thread, user) ==> i == j
  }

  /** The job belongs to a finished run of the same user and tells how that run ended. */
  predicate JobFits(runs: map<string, Run>, key: Key) {
    && key.run in runs
    && key.user == runs[key.run].user
    && Finished(runs[key.run].row.status)
    && (match key.kind
        case Profile =>
          && runs[key.run].row.status in {WaitingApproval, Succeeded}
          && key.stage == StageOf(runs[key.run].row.status)
        case Experience => runs[key.run].row.status == Succeeded)
  }

  ghost predicate TableOk(t: Table) {
    OneActive(t.runs) && forall key :: key in t.jobs ==> JobFits(t.runs, key)
  }

  /** Registration adds exactly the new keys and touches no old job. */
  lemma {:induction false} RegisterAdds(jobs: map<Key, int>, keys: seq<Key>, captured: int)
    ensures forall key :: key in Register(jobs, keys, captured) <==> key in jobs || key in keys
    ensures forall key :: key in jobs ==> Register(jobs, keys, captured)[key] == jobs[key]
    ensures forall key :: key in keys && key !in jobs ==> Register(jobs, keys, captured)[key] == captured
    decreases |keys|
  {
    if keys != [] {
      RegisterAdds(jobs, keys[..|keys| - 1], captured);
      Unsnoc(keys);
    }
  }

  lemma CandidatesFit(id: string, run: Run, status: Status, checkpoint: Option<Checkpoint>, strip: string -> string,
                      key: Key)
    requires key in Candidates(id, run, status, checkpoint, strip)
    ensures key.run == id && key.user == run.user
    ensures if key.kind == Profile then status in {WaitingApproval, Succeeded} && key.stage == StageOf(status)
            else status == Succeeded
  {
  }

  /** Status changes that never reopen a run keep at most one active run. */
  lemma OneActiveShrinks(runs: map<string, Run>, id: string, run: Run)
    requires OneActive(runs) && id in runs
    requires run.thread == runs[id].thread && run.user == runs[id].user
    requires Finished(runs[id].row.status) ==> Finished(run.row.status)
    ensures OneActive(runs[id := run])
  {
    var runs' := runs[id := run];
    forall i, j, thread, user | ActiveIn(runs', i, thread, user) && ActiveIn(runs', j, thread, user)
      ensures i == j
    {
      assert ActiveIn(runs, i, thread, user) && ActiveIn(runs, j, thread, user);
    }
  }

  lemma OneActiveGrows(runs: map<string, Run>, id: string, run: Run)
    requires OneActive(runs) && id !in runs && !Busy(runs, run.thread, run.user)
    ensures OneActive(runs[id := run])
  {
    var runs' := runs[id := run];
    forall i, j, thread, user | ActiveIn(runs', i, thread, user) && ActiveIn(runs', j, thread, user)
      ensures i == j
    {
      assert i != id ==> ActiveIn(runs, i, thread, user);
      assert j != id ==> ActiveIn(runs, j, thread, user);
    }
  }

  lemma FinalizeKeeps(t: Table, a: Action, strip: string -> string)
    requires TableOk(t) && a.DoFinalize? && Enabled(t, a)
    ensures TableOk(Next(t, a, strip))
  {
    var t' := Next(t, a, strip);
    if t' != t {
      var keys := KeysFor(t, a, strip);
      OneActiveShrinks(t.runs, a.id, t'.runs[a.id]);
      RegisterAdds(t.jobs, keys, a.captured);
      forall key | key in t'.jobs ensures JobFits(t'.runs, key) {
        if key in t.jobs {
          assert JobFits(t.runs, key);
        } else {
          CandidatesFit(a.id, t.runs[a.id], a.plan.status, a.checkpoint, strip, key);
        }
      }
    }
  }

  lemma NextKeeps(t: Table, a: Action, strip: string -> string)
    requires TableOk(t) && Enabled(t, a)
    ensures TableOk(Next(t, a, strip))
  {
    var t' := Next(t, a, strip);
    match a {
      case DoCreate(id, thread, user, _, _, _) =>
        if t' != t {
          OneActiveGrows(t.runs, id, t'.runs[id]);
        }
        assert forall key :: key in t.jobs ==> JobFits(t.runs, key) && JobFits(t'.runs, key);
      case DoMark(id) =>
        if id in t.runs {
          OneActiveShrinks(t.runs, id, t'.runs[id]);
        }
        assert forall key :: key in t.jobs ==> JobFits(t.runs, key) && JobFits(t'.runs, key);
      case DoFinalize(_, _, _, _, _) =>
        FinalizeKeeps(t, a, strip);
    }
  }

  lemma {:induction false} ExecKeeps(actions: seq<Action>, strip: string -> string)
    requires Exec(actions, strip).Some?
    ensures TableOk(Exec(actions, strip).value)
    decreases |actions|
  {
    if actions != [] {
      var front := actions[..|actions| - 1];
      ExecKeeps(front, strip);
      NextKeeps(Exec(front, strip).value, actions[|actions| - 1], strip);
    }
  }

  /** In every interleaving a thread of a user has at most one active run. */
  lemma {:induction false} AtMostOneActiveRun(actions: seq<Action>, strip: string -> string, i: string, j: string,
                                              thread: string, user: nat)
    requires Exec(actions, strip).Some?
    requires var runs := Exec(actions, strip).value.runs;
             ActiveIn(runs, i, thread, user) && ActiveIn(runs, j, thread, user)
    ensures i == j
  {
    ExecKeeps(actions, strip);
  }

  /**
   * A job tells how its run ended, even when finalizations raced: a cancelled or failed run has none, a
   * profile job names the very status its run was finished with, an experience job stands for a success.
   */
  lemma {:induction false} JobsMatchOutcome(actions: seq<Action>, strip: string -> string, key: Key)
    requires Exec(actions, strip).Some? && key in Exec(actions, strip).value.jobs
    ensures var runs := Exec(actions, strip).value.runs;
            && key.run in runs && key.user == runs[key.run].user
            && runs[key.run].row.status in {WaitingApproval, Succeeded}
            && (key.kind == Profile ==> key.stage == StageOf(runs[key.run].row.status))
            && (key.kind == Experience ==> runs[key.run].row.status == Succeeded)
  {
    ExecKeeps(actions, strip);
    assert JobFits(Exec(actions, strip).value.runs, key);
  }

  /** A job appears exactly in the step that finishes its run, and only if that step's own candidates name it. */
  lemma JobAppearsExactly(t: Table, a: Action, strip: string -> string, key: Key)
    requires TableOk(t) && Enabled(t, a)
    ensures key !in t.jobs && key in Next(t, a, strip).jobs <==>
            && a.DoFinalize? && a.id == key.run
            && a.id in t.runs && !Finished(t.runs[a.id].row.status)
            && key in KeysFor(t, a, strip)
    ensures key in t.jobs ==> key in Next(t, a, strip).jobs && Next(t, a, strip).jobs[key] == t.jobs[key]
  {
    assert key in t.jobs ==> JobFits(t.runs, key);
    if a.DoFinalize? {
      var keys := KeysFor(t, a, strip);
      RegisterAdds(t.jobs, keys, a.captured);
      if key in keys {
        CandidatesFit(a.id, t.runs[a.id], a.plan.status, a.checkpoint, strip, key);
      }
    }
  }

  lemma FinishedStaysOneStep(t: Table, a: Action, strip: string -> string, id: string)
    requires TableOk(t) && Enabled(t, a) && id in t.runs && Finished(t.runs[id].row.status)
    ensures var t' := Next(t, a, strip);
            && id in t'.runs && t'.runs[id] == t.runs[id]
            && forall key: Key :: key.run == id ==> (key in t'.jobs <==> key in t.jobs)
  {
    forall key: Key | key.run == id ensures key in Next(t, a, strip).jobs <==> key in t.jobs {
      JobAppearsExactly(t, a, strip, key);
    }
  }

  /** A finished run is frozen for good: its row never changes, and no job of it is ever registered again. */
  lemma {:induction false} FinishedRunIsFrozen(actions: seq<Action>, more: seq<Action>, strip: string -> string,
                                               id: string)
    requires Exec(actions, strip).Some? && Exec(actions + more, strip).Some?
    requires var runs := Exec(actions, strip).value.runs; id in runs && Finished(runs[id].row.status)
    ensures var t, t' := Exec(actions, strip).value, Exec(actions + more, strip).value;
            && id in t'.runs && t'.runs[id] == t.runs[id]
            && forall key: Key :: key.run == id ==> (key in t'.jobs <==> key in t.jobs)
    decreases |more|
  {
    if more == [] {
      Neutral(actions);
    } else {
      var front := more[..|more| - 1];
      assert (actions + more)[..|actions + more| - 1] == actions + front;
      FinishedRunIsFrozen(actions, front, strip, id);
      ExecKeeps(actions + front, strip);
      FinishedStaysOneStep(Exec(actions + front, strip).value, more[|more| - 1], strip, id);
    }
  }

  // ----- what a finished run leaves, and when a run is accepted -----

  /** A checkpoint that is worth an experience job: results of a round, or at least a plan when a plan was asked for. */
  predicate Fruitful(c: Checkpoint, strip: string -> string) {
    || (c.intent == "teaching_plan" && (c.ready || strip(c.plan) != ""))
    || (c.intent == "artifact_revision" && c.ready)
  }

  /** What a finishing transaction with this status has to say about a run. */
  predicate Due(
      id: string, run: Run, status: Status, checkpoint: Option<Checkpoint>, strip: string -> string, key: Key)
  {
    && key.run == id && key.user == run.user
    && match key.kind
       case Profile =>
         && (status == WaitingApproval || status == Succeeded) && key.stage == StageOf(status)
         && strip(run.message) != "" && !run.resumed
       case Experience =>
         && status == Succeeded && checkpoint.Some? && Fruitful(checkpoint.value, strip)
         && key.stage == if checkpoint.value.revision then ArtifactRevision else TeachingOutcome
  }

  lemma CandidatesAreDue(id: string, run: Run, status: Status, checkpoint: Option<Checkpoint>, strip: string -> string,
                         key: Key)
    ensures key in Candidates(id, run, status, checkpoint, strip) <==> Due(id, run, status, checkpoint, strip, key)
  {
  }

  /**
   * The jobs that a finishing transaction leaves: a profile job for a run that waits or succeeded, whose message is
   * not blank and which resumes no approval; and an experience job for a success with a fruitful checkpoint.
   */
  lemma JobsOfFinish(t: Table, a: Action, strip: string -> string, key: Key)
    requires Enabled(t, a) && a.DoFinalize? && a.reflect
    requires a.id in t.runs && t.runs[a.id].row.status in {Queued, Running}
    ensures key in Next(t, a, strip).jobs <==>
              key in t.jobs || Due(a.id, t.runs[a.id], a.plan.status, a.checkpoint, strip, key)
    ensures key in Next(t, a, strip).jobs ==>
              Next(t, a, strip).jobs[key] == if key in t.jobs then t.jobs[key] else a.captured
  {
    FinishedExactly(t.runs[a.id].row.status);
    RegisterAdds(t.jobs, KeysFor(t, a, strip), a.captured);
    CandidatesAreDue(a.id, t.runs[a.id], a.plan.status, a.checkpoint, strip, key);
  }

  /** Without reflection a finishing transaction leaves no job. */
  lemma NoReflectionNoJobs(t: Table, a: Action, strip: string -> string)
    requires TableOk(t) && Enabled(t, a) && a.DoFinalize? && !a.reflect
    ensures Next(t, a, strip).jobs == t.jobs
  {
  }

  /** A run is accepted, queued and empty, exactly for an owned thread of the user in which no run is under way. */
  lemma AcceptedExactly(t: Table, a: Action, strip: string -> string)
    requires Enabled(t, a) && a.DoCreate?
    ensures var t' := Next(t, a, strip);
            && t'.jobs == t.jobs
            && if a.owned && forall id :: id in t.runs && t.runs[id].thread == a.thread && t.runs[id].user == a.user ==>
                                t.runs[id].row.status !in {Queued, Running}
               then t'.runs == t.runs[a.id := Run(a.thread, a.user, a.message, a.resumed, Row(Queued, "", 0))]
               else t'.runs == t.runs
  {
    forall id | id in t.runs ensures Finished(t.runs[id].row.status) <==> t.runs[id].row.status !in {Queued, Running} {
      FinishedExactly(t.runs[id].row.status);
    }
    if !Busy(t.runs, a.thread, a.user) {
      assert forall id :: id in t.runs ==> !ActiveIn(t.runs, id, a.thread, a.user);
    }
  }

  /** Ids are fresh, plans are terminal, and nothing else stands against a transaction. */
  lemma Choices(t: Table, a: Action)
    ensures Enabled(t, a) <==>
              && (a.DoCreate? ==> a.id !in t.runs)
              && (a.DoFinalize? ==> a.plan.status != Queued && a.plan.status != Running)
  {
  }

  /** Starting a run makes a queued one run, and changes nothing else. */
  lemma MarkedExactly(t: Table, id: string, strip: string -> string)
    ensures var t' := Next(t, DoMark(id), strip);
            && t'.jobs == t.jobs && t'.runs.Keys == t.runs.Keys
            && (forall other :: other in t.runs && (other != id || t.runs[other].row.status != Queued) ==>
                  t'.runs[other] == t.runs[other])
            && (id in t.runs && t.runs[id].row.status == Queued ==>
                  t'.runs[id] == t.runs[id].(row := t.runs[id].row.(status := Running)))
  {
  }

  /** A finishing transaction gives an active run the plan's status and output and the number behind the plan's. */
  lemma FinishedExactlyOnce(t: Table, a: Action, strip: string -> string)
    requires Enabled(t, a) && a.DoFinalize?
    ensures var t' := Next(t, a, strip);
            && t'.runs.Keys == t.runs.Keys
            && (forall other :: other in t.runs && (other != a.id || t.runs[other].row.status !in {Queued, Running}) ==>
                  t'.runs[other] == t.runs[other])
            && (a.id in t.runs && t.runs[a.id].row.status in {Queued, Running} ==>
                  t'.runs[a.id] == t.runs[a.id].(row := Row(a.plan.status, a.plan.output, a.plan.sequence + 1)))
            && (a.id !in t.runs || t.runs[a.id].row.status !in {Queued, Running} ==> t' == t)
  {
    if a.id in t.runs {
      FinishedExactly(t.runs[a.id].row.status);
    }
  }

  // ----- the tables as an object -----

  class ChatRunTables {
    var runs: map<string, Run>
    var jobs: map<Key, int>

    constructor ()
      ensures View() == NO_RUNS
    {
      runs, jobs := map[], map[];
    }

    function View(): Table
      reads this
    {
      Table(runs, jobs)
    }

    /** `create_chat_run`; `owned` says whether the session of this thread and user exists. */
    method CreateChatRun(id: string, thread: string, user: nat, message: string, resumed: bool, owned: bool)
      returns (outcome: Created)
      requires id !in runs
      modifies this
      ensures View() == Create(old(View()), id, thread, user, message, resumed, owned)
      ensures outcome.NotFound? <==> !owned
      ensures outcome.Conflict? <==> owned && Busy(old(runs), thread, user)
      ensures outcome.Conflict? ==> ActiveIn(old(runs), outcome.run, thread, user)
      ensures outcome.Accepted? ==> id in runs && runs[id].row == QUEUED_ROW && ActiveIn(runs, id, thread, user)
    {
      if !owned {
        return NotFound;
      }
      var active := set other | other in runs && ActiveIn(runs, other, thread, user);
      if active != {} {
        var other :| other in active;
        return Conflict(other);
      }
      assert forall other :: other in runs && ActiveIn(runs, other, thread, user) ==> other in active;
      runs := runs[id := Run(thread, user, message, resumed, QUEUED_ROW)];
      outcome := Accepted;
    }

    /** `register_reflection_candidates`. */
    method RegisterCandidates(keys: seq<Key>, captured: int)
      modifies this`jobs
      ensures jobs == Register(old(jobs), keys, captured)
    {
      var i := 0;
      while i < |keys|
        invariant 0 <= i <= |keys|
        invariant jobs == Register(old(jobs), keys[..i], captured)
      {
        assert keys[..i + 1][..i] == keys[..i];
        if keys[i] !in jobs {
          jobs := jobs[keys[i] := captured];
        }
        i := i + 1;
      }
      assert keys[..i] == keys;
    }

    /** `finalize_chat_run` over the whole table, for a terminal status. */
    method FinalizeChatRun(id: string, plan: Plan, keys: seq<Key>, captured: int) returns (row: Option<Row>)
      requires Finished(plan.status)
      modifies this
      ensures View() == Finalize(old(View()), id, plan, keys, captured)
      ensures row == if id in runs then Some(runs[id].row) else None
      ensures row.Some? ==> Finished(row.value.status)
    {
      if id !in runs {
        return None;
      }
      var run := runs[id];
      if Finished(run.row.status) {
        return Some(run.row);
      }
      var finished := Row(plan.status, plan.output, plan.sequence + 1);
      runs := runs[id := run.(row := finished)];
      if keys != [] {
        RegisterCandidates(keys, captured);
      }
      row := Some(finished);
    }
  }
}
