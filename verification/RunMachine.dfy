/**
 * All interleavings of one run: the scheduled worker, the timer of its token buffer, cancellations that found no
 * live worker, a restart, retried done events, crashes and the expiry of the Redis keys.
 */
module RunMachine {
  import opened Events
  import opened EventStore
  import opened RunLifecycle

  /**
   * Who owns the run. `Planned` holds a finalization between its snapshot read and its SQL commit; `count` is
   * what the publisher of its worker has counted, and None when a restart made the plan.
   */
  datatype Phase =
    | Waiting
    | Working(last: nat)
    | Planned(plan: Plan, exact: bool, count: Option<nat>)
    | Settled
    | Orphaned

  /** One cancel request that found no live worker: before its snapshot read, after it, and after its commit. */
  datatype Canceller = Found | Ready(plan: Plan, exact: bool) | Gone

  /**
   * `timer` is the text that a timer flush is publishing: the timer is a task of its own and outlives the worker.
   * `exact` remembers whether the committed plan was made from an answered snapshot of a quiet store.
   */
  datatype World = World(
    store: Store, row: Row, phase: Phase, cancellers: seq<Canceller>, timer: Option<string>,
    exact: bool, expired: bool)

  const START := World(EMPTY, QUEUED_ROW, Waiting, [], None, false, false)

  /**
   * `Resume`: a cancellation or an SQL error strikes inside a worker's finalization and sends it back to its
   * handlers, which may publish and plan again. `Drop`: it strikes inside a handler, and the worker is gone; so
   * does a second cancellation while the handler waits for a timer flush, which goes on. `DropCancel`: a cancel
   * request fails. `TimerSends` is one attempt of the timer's publication, which ends with an answer or when it
   * gives up.
   */
  datatype Action =
    | Schedule
    | RejectSchedule
    | Publish(event: Event, network: seq<Exchange>)
    | TimerFires(text: string)
    | TimerSends(exchange: Exchange)
    | TimerGivesUp
    | EndWork(status: Status, text: string, preferText: bool, snapshot: Exchange)
    | Resume
    | Drop
    | Reconcile(snapshot: Exchange, network: seq<Exchange>)
    | Commit
    | LookUp
    | PlanCancel(request: nat, snapshot: Exchange)
    | CommitCancel(request: nat)
    | DropCancel(request: nat)
    | SendDone(exchange: Exchange)
    | Crash
    | Expire

  predicate Active(row: Row) {
    !Finished(row.status)
  }

  /** No cancel request is between its look-up and its commit. */
  predicate Quiet(w: World) {
    forall i :: 0 <= i < |w.cancellers| ==> w.cancellers[i] == Gone
  }

  /** A worker of this process holds the run. */
  predicate Held(phase: Phase) {
    phase.Working? || (phase.Planned? && phase.count.Some?)
  }

  predicate Enabled(w: World, a: Action) {
    match a
    case Schedule => w.phase == Waiting
    case RejectSchedule => w.phase == Waiting
    case Publish(e, _) => w.phase.Working? && e.kind != Done
    case TimerFires(_) => w.phase.Working? && w.timer.None?
    case TimerSends(_) => w.timer.Some?
    case TimerGivesUp => w.timer.Some?
    // Every finalization of a worker stands behind a close, which waits for the timer's lock.
    case EndWork(status, _, _, _) => w.phase.Working? && w.timer.None? && Finished(status)
    case Resume => w.phase.Planned? && w.phase.count.Some?
    case Drop => Held(w.phase)
    case Reconcile(_, _) => w.phase == Orphaned && Quiet(w) && Active(w.row)
    case Commit => w.phase.Planned?
    case LookUp => !w.phase.Working? && !w.phase.Planned? && Active(w.row)
    case PlanCancel(i, _) => i < |w.cancellers| && w.cancellers[i] == Found
    case CommitCancel(i) => i < |w.cancellers| && w.cancellers[i].Ready?
    case DropCancel(i) => i < |w.cancellers|
    case SendDone(_) => !Active(w.row)
    case Crash => true
    case Expire => !Active(w.row)
  }

  function CommitPlan(w: World, plan: Plan, exact: bool): World {
    w.(row := FinalizeRow(w.row, plan.status, plan.output, plan.sequence),
       exact := if Active(w.row) then exact else w.exact)
  }

  function TokenOf(text: string): Event {
    Event(Token, Text(text))
  }

  /** The publisher counts what was acknowledged; a worker that is gone has no use for it. */
  function Counted(phase: Phase, last: nat): Phase {
    if phase.Working? then Working(last) else phase
  }

  function Next(w: World, a: Action): World
    requires Enabled(w, a)
  {
    match a
    case Schedule =>
      var row := MarkRow(w.row);
      w.(row := row, phase := if row.status == Running then Working(0) else Settled)
    case RejectSchedule => CommitPlan(w, Plan(Failed, "", 0), true).(phase := Settled)
    case Publish(e, network) =>
      var (store, reply) := AppendCall(w.store, e, network);
      w.(store := store, phase := if reply.Ok? then Working(reply.value) else w.phase)
    case TimerFires(text) => w.(timer := Some(text))
    case TimerSends(exchange) =>
      var (store, reply) := AppendCall(w.store, TokenOf(w.timer.value), [exchange]);
      if reply.Ok? then w.(store := store, timer := None, phase := Counted(w.phase, reply.value))
      else w.(store := store)
    case TimerGivesUp => w.(timer := None)
    case EndWork(status, text, preferText, snapshot) =>
      var plan := MakePlan(w.store, status, text, w.phase.last, preferText, snapshot);
      w.(phase := Planned(plan, snapshot == Answered, Some(w.phase.last)))
    case Resume => w.(phase := Working(w.phase.count.value))
    case Drop => w.(phase := Settled)
    case Reconcile(snapshot, network) =>
      var (store, plan) := ReconcilePlan(w.store, w.row, snapshot, network);
      var exact := snapshot == Answered && (Acknowledged(network) || Executions(network) == 0);
      w.(store := store, phase := Planned(plan, exact, None))
    case Commit => CommitPlan(w, w.phase.plan, w.phase.exact).(phase := Settled)
    case LookUp => w.(cancellers := w.cancellers + [Found])
    case PlanCancel(i, snapshot) =>
      var plan := MakePlan(w.store, Cancelled, w.row.output, w.row.sequence, false, snapshot);
      w.(cancellers := w.cancellers[i := Ready(plan, snapshot == Answered)])
    case CommitCancel(i) =>
      CommitPlan(w, w.cancellers[i].plan, w.cancellers[i].exact).(cancellers := w.cancellers[i := Gone])
    case DropCancel(i) => w.(cancellers := w.cancellers[i := Gone])
    case SendDone(exchange) => w.(store := WriteDone(w.store, w.row, exchange))
    case Crash => w.(phase := Orphaned, cancellers := [], timer := None)
    case Expire => w.(store := EMPTY, expired := true)
  }

  /**
   * A caller's discipline: `schedule` is not entered while a cancel request is between look-up and commit, and no
   * cancel request looks up a run whose worker is gone while a timer flush of that worker is still publishing.
   */
  predicate Disciplined(w: World, a: Action) {
    && (a.Schedule? || a.RejectSchedule? ==> Quiet(w))
    && (a.LookUp? ==> w.timer.None?)
  }

  /** The world after a list of actions, if all of them were possible (and disciplined, when asked for). */
  function Exec(actions: seq<Action>, disciplined: bool): Option<World> {
    if actions == [] then Some(START)
    else
      var a := actions[|actions| - 1];
      match Exec(actions[..|actions| - 1], disciplined)
      case None => None
      case Some(w) => if Enabled(w, a) && (disciplined ==> Disciplined(w, a)) then Some(Next(w, a)) else None
  }

  // ----- agreement of stream and row, in every interleaving -----

  ghost predicate DonesAgree(store: Store, row: Row) {
    forall i :: 0 <= i < |store.stream| && store.stream[i].event.kind == Done ==>
      Finished(row.status) && store.stream[i] == Entry(row.sequence, DoneEvent(row.status))
  }

  ghost predicate Agreed(w: World) {
    && WellFormed(w.store)
    && DonesAgree(w.store, w.row)
    && (!Active(w.row) ==> w.row.sequence >= 1)
    && (w.phase.Planned? ==> Finished(w.phase.plan.status))
    && (forall i :: 0 <= i < |w.cancellers| && w.cancellers[i].Ready? ==> Finished(w.cancellers[i].plan.status))
  }

  lemma AppendAgrees(store: Store, row: Row, e: Event, network: seq<Exchange>)
    requires WellFormed(store) && DonesAgree(store, row) && e.kind != Done
    ensures WellFormed(AppendCall(store, e, network).0) && DonesAgree(AppendCall(store, e, network).0, row)
    ensures NoDone(store) ==> NoDone(AppendCall(store, e, network).0)
  {
    AppendCallCopies(store, e, network);
    AppendAllKeeps(store, Repeat(e, Executions(network)));
  }

  lemma WriteDoneAgrees(store: Store, row: Row, exchange: Exchange)
    requires WellFormed(store) && DonesAgree(store, row) && Finished(row.status) && row.sequence >= 1
    ensures WellFormed(WriteDone(store, row, exchange)) && DonesAgree(WriteDone(store, row, exchange), row)
  {
    TerminalScriptKeeps(store, row.sequence, row.status);
  }

  /** Steps of cancel requests. */
  predicate OfRequest(a: Action) {
    a.LookUp? || a.PlanCancel? || a.CommitCancel? || a.DropCancel?
  }

  /** Steps that send to Redis. */
  predicate Sends(a: Action) {
    a.Publish? || a.TimerSends? || a.Reconcile? || a.SendDone?
  }

  lemma RequestAgrees(w: World, a: Action)
    requires Agreed(w) && Enabled(w, a) && OfRequest(a)
    ensures Agreed(Next(w, a))
  {
  }

  lemma SendAgrees(w: World, a: Action)
    requires Agreed(w) && Enabled(w, a) && Sends(a)
    ensures Agreed(Next(w, a))
  {
    match a {
      case Publish(e, network) => AppendAgrees(w.store, w.row, e, network);
      case TimerSends(exchange) => AppendAgrees(w.store, w.row, TokenOf(w.timer.value), [exchange]);
      case Reconcile(snapshot, network) => AppendAgrees(w.store, w.row, STALE_MESSAGE, network);
      case SendDone(exchange) => WriteDoneAgrees(w.store, w.row, exchange);
    }
  }

  lemma NextAgrees(w: World, a: Action)
    requires Agreed(w) && Enabled(w, a)
    ensures Agreed(Next(w, a))
  {
    if OfRequest(a) {
      RequestAgrees(w, a);
    } else if Sends(a) {
      SendAgrees(w, a);
    }
  }

  lemma {:induction false} ExecAgrees(actions: seq<Action>, disciplined: bool)
    requires Exec(actions, disciplined).Some?
    ensures Agreed(Exec(actions, disciplined).value)
    decreases |actions|
  {
    if actions != [] {
      var front := actions[..|actions| - 1];
      ExecAgrees(front, disciplined);
      NextAgrees(Exec(front, disciplined).value, actions[|actions| - 1]);
    }
  }

  /**
   * Terminal agreement, with no discipline asked for: whatever is crashed, retried, raced or expired, a
   * stream holds at most one done entry, and it stands at the number and carries the status of a finished row.
   */
  lemma {:induction false} TerminalAgreement(actions: seq<Action>, i: nat, j: nat)
    requires Exec(actions, false).Some?
    requires var stream := Exec(actions, false).value.store.stream;
             i < |stream| && j < |stream| && stream[i].event.kind == Done && stream[j].event.kind == Done
    ensures var w := Exec(actions, false).value;
            && i == j
            && Finished(w.row.status)
            && w.store.stream[i] == Entry(w.row.sequence, DoneEvent(w.row.status))
  {
    ExecAgrees(actions, false);
  }

  /** A finished row is never written again. */
  lemma FinishedRowIsFrozen(w: World, a: Action)
    requires Enabled(w, a) && !Active(w.row)
    ensures Next(w, a).row == w.row
  {
  }

  lemma {:induction false} FinishedRowStays(actions: seq<Action>, more: seq<Action>)
    requires Exec(actions, false).Some? && !Active(Exec(actions, false).value.row)
    requires Exec(actions + more, false).Some?
    ensures Exec(actions + more, false).value.row == Exec(actions, false).value.row
    decreases |more|
  {
    if more == [] {
      assert actions + more == actions;
    } else {
      var front := more[..|more| - 1];
      assert (actions + more)[..|actions + more| - 1] == actions + front;
      FinishedRowStays(actions, front);
      FinishedRowIsFrozen(Exec(actions + front, false).value, more[|more| - 1]);
    }
  }

  // ----- nothing follows a done, under the discipline -----

  ghost predicate DoneIsLast(store: Store) {
    forall i :: 0 <= i < |store.stream| && store.stream[i].event.kind == Done ==> i == |store.stream| - 1
  }

  /** A plan that does not claim more than the store holds, and exactly what it holds when it says so. */
  predicate Fitting(store: Store, plan: Plan, exact: bool) {
    plan.sequence <= store.counter && (exact ==> plan.sequence == store.counter)
  }

  predicate CancelsFit(w: World) {
    forall i :: 0 <= i < |w.cancellers| && w.cancellers[i].Ready? ==>
      Fitting(w.store, w.cancellers[i].plan, w.cancellers[i].exact)
  }

  ghost predicate Orderly(w: World) {
    && Agreed(w)
    && DoneIsLast(w.store)
    && (Active(w.row) ==> NoDone(w.store) && FromOne(w.store) && !w.expired && w.row.sequence == 0)
    && (w.phase == Waiting ==> (w.row.status == Queued || !Active(w.row)))
    && (w.phase == Waiting && Active(w.row) ==> w.store == EMPTY)
    && (w.phase.Working? ==> Active(w.row) && Quiet(w) && w.phase.last <= w.store.counter)
    && (w.timer.Some? ==> Active(w.row) && Quiet(w) && (w.phase.Working? || w.phase == Settled))
    && (w.phase.Planned? ==>
          && Active(w.row) && Quiet(w) && Fitting(w.store, w.phase.plan, w.phase.exact)
          && (w.phase.count.Some? ==> w.phase.count.value <= w.store.counter))
    && (Active(w.row) ==> CancelsFit(w))
    && (!Active(w.row) && w.exact && !w.expired ==>
          && FromOne(w.store)
          && (if HasDone(w.store) then w.row.sequence == w.store.counter && EndsWithDone(w.store, w.row)
              else w.row.sequence == w.store.counter + 1))
  }

  lemma OpenStreamGrows(store: Store, row: Row, e: Event, network: seq<Exchange>, store': Store)
    requires WellFormed(store) && DonesAgree(store, row) && NoDone(store) && FromOne(store) && e.kind != Done
    requires store' == AppendCall(store, e, network).0
    ensures WellFormed(store') && DonesAgree(store', row) && NoDone(store') && FromOne(store')
    ensures store.counter <= store'.counter
    ensures AppendCall(store, e, network).1.Ok? ==> AppendCall(store, e, network).1.value == store'.counter
  {
    AppendCallCopies(store, e, network);
    AppendAllKeeps(store, Repeat(e, Executions(network)));
    AppendAgrees(store, row, e, network);
  }

  lemma PublishIsOrderly(w: World, e: Event, network: seq<Exchange>)
    requires Orderly(w) && Enabled(w, Publish(e, network))
    ensures Orderly(Next(w, Publish(e, network)))
  {
    OpenStreamGrows(w.store, w.row, e, network, AppendCall(w.store, e, network).0);
  }

  lemma TimerIsOrderly(w: World, exchange: Exchange)
    requires Orderly(w) && Enabled(w, TimerSends(exchange))
    ensures Orderly(Next(w, TimerSends(exchange)))
  {
    var e := TokenOf(w.timer.value);
    OpenStreamGrows(w.store, w.row, e, [exchange], AppendCall(w.store, e, [exchange]).0);
  }

  lemma ReconcileIsOrderly(w: World, snapshot: Exchange, network: seq<Exchange>)
    requires Orderly(w) && Enabled(w, Reconcile(snapshot, network))
    ensures Orderly(Next(w, Reconcile(snapshot, network)))
  {
    AppendCallCopies(w.store, STALE_MESSAGE, network);
    AppendAllKeeps(w.store, Repeat(STALE_MESSAGE, Executions(network)));
    AppendAgrees(w.store, w.row, STALE_MESSAGE, network);
    assert w.store.counter == 0 ==> w.store.stream == [] && Tokens(Bodies(w.store.stream)) == "";
  }

  lemma SendDoneIsOrderly(w: World, exchange: Exchange)
    requires Orderly(w) && Enabled(w, SendDone(exchange))
    ensures Orderly(Next(w, SendDone(exchange)))
  {
    WriteDoneAgrees(w.store, w.row, exchange);
    TerminalScriptKeeps(w.store, w.row.sequence, w.row.status);
    if WriteDone(w.store, w.row, exchange) != w.store {
      assert w.store.counter < w.row.sequence;
      assert NoDone(w.store);
    }
  }

  lemma EndWorkIsOrderly(w: World, status: Status, text: string, preferText: bool, snapshot: Exchange)
    requires Orderly(w) && Enabled(w, EndWork(status, text, preferText, snapshot))
    ensures Orderly(Next(w, EndWork(status, text, preferText, snapshot)))
  {
  }

  lemma CommitIsOrderly(w: World)
    requires Orderly(w) && Enabled(w, Commit)
    ensures Orderly(Next(w, Commit))
  {
  }

  lemma PlanCancelIsOrderly(w: World, request: nat, snapshot: Exchange)
    requires Orderly(w) && Enabled(w, PlanCancel(request, snapshot))
    ensures Orderly(Next(w, PlanCancel(request, snapshot)))
  {
  }

  lemma CommitCancelIsOrderly(w: World, request: nat)
    requires Orderly(w) && Enabled(w, CommitCancel(request))
    ensures Orderly(Next(w, CommitCancel(request)))
  {
  }

  lemma LookUpIsOrderly(w: World)
    requires Orderly(w) && Enabled(w, LookUp) && Disciplined(w, LookUp)
    ensures Orderly(Next(w, LookUp))
  {
  }

  lemma DropCancelIsOrderly(w: World, request: nat)
    requires Orderly(w) && Enabled(w, DropCancel(request))
    ensures Orderly(Next(w, DropCancel(request)))
  {
  }

  lemma RequestIsOrderly(w: World, a: Action)
    requires Orderly(w) && Enabled(w, a) && Disciplined(w, a) && OfRequest(a)
    ensures Orderly(Next(w, a))
  {
    match a {
      case LookUp => LookUpIsOrderly(w);
      case PlanCancel(request, snapshot) => PlanCancelIsOrderly(w, request, snapshot);
      case CommitCancel(request) => CommitCancelIsOrderly(w, request);
      case DropCancel(request) => DropCancelIsOrderly(w, request);
    }
  }

  lemma SendIsOrderly(w: World, a: Action)
    requires Orderly(w) && Enabled(w, a) && Sends(a)
    ensures Orderly(Next(w, a))
  {
    match a {
      case Publish(e, network) => PublishIsOrderly(w, e, network);
      case TimerSends(exchange) => TimerIsOrderly(w, exchange);
      case Reconcile(snapshot, network) => ReconcileIsOrderly(w, snapshot, network);
      case SendDone(exchange) => SendDoneIsOrderly(w, exchange);
    }
  }

  lemma ScheduleIsOrderly(w: World, a: Action)
    requires Orderly(w) && (a.Schedule? || a.RejectSchedule?) && Enabled(w, a) && Disciplined(w, a)
    ensures Orderly(Next(w, a))
  {
  }

  lemma CrashIsOrderly(w: World, a: Action)
    requires Orderly(w) && (a.Crash? || a.Expire?) && Enabled(w, a)
    ensures Orderly(Next(w, a))
  {
  }

  /** A worker is interrupted, or its timer starts or stops to publish. */
  lemma WorkerIsOrderly(w: World, a: Action)
    requires Orderly(w) && (a.Resume? || a.Drop? || a.TimerFires? || a.TimerGivesUp?) && Enabled(w, a)
    ensures Orderly(Next(w, a))
  {
  }

  lemma NextIsOrderly(w: World, a: Action)
    requires Orderly(w) && Enabled(w, a) && Disciplined(w, a)
    ensures Orderly(Next(w, a))
  {
    if OfRequest(a) {
      RequestIsOrderly(w, a);
    } else if Sends(a) {
      SendIsOrderly(w, a);
    } else if a.Schedule? || a.RejectSchedule? {
      ScheduleIsOrderly(w, a);
    } else if a.Crash? || a.Expire? {
      CrashIsOrderly(w, a);
    } else if a.EndWork? {
      EndWorkIsOrderly(w, a.status, a.text, a.preferText, a.snapshot);
    } else if a.Commit? {
      CommitIsOrderly(w);
    } else {
      WorkerIsOrderly(w, a);
    }
  }

  lemma {:induction false} ExecIsOrderly(actions: seq<Action>)
    requires Exec(actions, true).Some?
    ensures Orderly(Exec(actions, true).value)
    decreases |actions|
  {
    if actions != [] {
      var front := actions[..|actions| - 1];
      ExecIsOrderly(front);
      NextIsOrderly(Exec(front, true).value, actions[|actions| - 1]);
    }
  }

  /** Under the discipline nothing ever follows a done entry. */
  lemma {:induction false} NothingFollowsDone(actions: seq<Action>)
    requires Exec(actions, true).Some?
    ensures DoneIsLast(Exec(actions, true).value.store)
  {
    ExecIsOrderly(actions);
  }

  /**
   * Under the discipline, a row finished from an answered snapshot names the next number of its store, or
   * the number at which the done entry already ends the stream; one more answered done call settles it,
   * and any further one changes nothing.
   */
  lemma {:induction false} TerminalNumberFits(actions: seq<Action>)
    requires Exec(actions, true).Some?
    requires var w := Exec(actions, true).value; !Active(w.row) && w.exact && !w.expired
    ensures var w := Exec(actions, true).value;
            var settled := Next(w, SendDone(Answered));
            && w.row.sequence == (if HasDone(w.store) then w.store.counter else w.store.counter + 1)
            && EndsWithDone(settled.store, w.row)
            && Next(settled, SendDone(Answered)) == settled
  {
    ExecIsOrderly(actions);
    var w := Exec(actions, true).value;
    TerminalScriptKeeps(w.store, w.row.sequence, w.row.status);
    SendDoneIsOrderly(w, Answered);
    var settled := Next(w, SendDone(Answered));
    TerminalScriptKeeps(settled.store, w.row.sequence, w.row.status);
    if EndsWithDone(w.store, w.row) {
      assert w.store.stream[|w.store.stream| - 1].event.kind == Done;
    }
  }

  // ----- without the discipline: exactly when the order is lost -----

  /** A publication that reaches Redis although the stream is closed already. */
  predicate Spoils(w: World, a: Action) {
    HasDone(w.store) && ((a.Publish? && Executions(a.network) > 0) || (a.TimerSends? && a.exchange != NotReached))
  }

  /** Some action of the history was such a publication. */
  predicate Spoiled(actions: seq<Action>) {
    actions != [] &&
    var front := actions[..|actions| - 1];
    Spoiled(front) || (Exec(front, false).Some? && Spoils(Exec(front, false).value, actions[|actions| - 1]))
  }

  /** At no time of the history did anything stand behind a done entry. */
  ghost predicate OrderKept(actions: seq<Action>)
    requires Exec(actions, false).Some?
  {
    DoneIsLast(Exec(actions, false).value.store) && (actions == [] || OrderKept(actions[..|actions| - 1]))
  }

  lemma NothingAppended(store: Store, e: Event, network: seq<Exchange>)
    requires WellFormed(store) && Executions(network) == 0
    ensures AppendCall(store, e, network).0 == store
  {
    AppendCallCopies(store, e, network);
    AppendAllNothing(store);
    RepeatCons(e, 0);
  }

  lemma AppendKeepsOrder(store: Store, e: Event, network: seq<Exchange>)
    requires WellFormed(store) && DoneIsLast(store) && e.kind != Done
    ensures DoneIsLast(AppendCall(store, e, network).0) <==> !(HasDone(store) && Executions(network) > 0)
  {
    AppendCallCopies(store, e, network);
    var s' := AppendCall(store, e, network).0;
    if Executions(network) == 0 {
      NothingAppended(store, e, network);
    } else if HasDone(store) {
      var i :| 0 <= i < |store.stream| && store.stream[i].event.kind == Done;
      assert s'.stream[i].event.kind == Done;
    }
  }

  lemma SendDoneKeepsOrder(w: World, exchange: Exchange)
    requires Agreed(w) && DoneIsLast(w.store) && !Active(w.row)
    ensures DoneIsLast(WriteDone(w.store, w.row, exchange))
  {
    TerminalScriptKeeps(w.store, w.row.sequence, w.row.status);
  }

  lemma ReconcileKeepsOrder(w: World, snapshot: Exchange, network: seq<Exchange>)
    requires Agreed(w) && Enabled(w, Reconcile(snapshot, network))
    ensures DoneIsLast(Next(w, Reconcile(snapshot, network)).store)
  {
    assert NoDone(w.store);
    AppendAgrees(w.store, w.row, STALE_MESSAGE, network);
  }

  lemma OneExecution(exchange: Exchange)
    ensures Executions([exchange]) == if exchange == NotReached then 0 else 1
  {
  }

  /** Only such a publication can put something behind a done entry, and it always does. */
  lemma NextKeepsOrder(w: World, a: Action)
    requires Agreed(w) && DoneIsLast(w.store) && Enabled(w, a)
    ensures DoneIsLast(Next(w, a).store) <==> !Spoils(w, a)
  {
    match a {
      case Publish(e, network) => AppendKeepsOrder(w.store, e, network);
      case TimerSends(exchange) =>
        AppendKeepsOrder(w.store, TokenOf(w.timer.value), [exchange]);
        OneExecution(exchange);
      case Reconcile(snapshot, network) => ReconcileKeepsOrder(w, snapshot, network);
      case SendDone(exchange) => SendDoneKeepsOrder(w, exchange);
      case _ =>
    }
  }

  /** One more action of a history that has gone through n steps of a race. */
  function Overtakes(n: nat, a: Action): nat {
    if (n == 0 && a.LookUp?) || (n == 1 && a.Schedule?) || (n == 2 && a.CommitCancel?) then n + 1 else n
  }

  function Outlives(n: nat, a: Action): nat {
    if (n == 0 && a.TimerFires?) || (n == 1 && a.Drop?) || (n == 2 && a.LookUp?) || (n == 3 && a.CommitCancel?)
    then n + 1 else n
  }

  /** How far the actions LookUp, Schedule and CommitCancel have happened in this order. */
  function Overtaking(actions: seq<Action>): nat {
    if actions == [] then 0 else Overtakes(Overtaking(actions[..|actions| - 1]), actions[|actions| - 1])
  }

  /** How far the actions TimerFires, Drop, LookUp and CommitCancel have happened in this order. */
  function Outliving(actions: seq<Action>): nat {
    if actions == [] then 0 else Outlives(Outliving(actions[..|actions| - 1]), actions[|actions| - 1])
  }

  /**
   * A worker whose run a cancel request is about to finish, or has finished, was scheduled behind its look-up; a
   * timer flush of such a run belongs to such a worker, or to one that was gone before the look-up.
   */
  ghost predicate Traced(w: World, n: nat, k: nat) {
    && (w.phase == Waiting && !Quiet(w) ==> n >= 1)
    && (Held(w.phase) && !Quiet(w) ==> n >= 2)
    && (Held(w.phase) && !Active(w.row) ==> n >= 3)
    && (w.phase.Planned? && w.phase.count.None? ==> Quiet(w))
    && (w.timer.Some? ==> (w.phase.Working? && k >= 1) || (w.phase == Settled && k >= 2))
    && (w.timer.Some? && !Quiet(w) ==> n >= 2 || k >= 3)
    && (w.timer.Some? && !Active(w.row) ==> n >= 3 || k >= 4)
  }

  lemma NextIsTraced(w: World, a: Action, n: nat, k: nat)
    requires Traced(w, n, k) && Enabled(w, a)
    ensures Traced(Next(w, a), Overtakes(n, a), Outlives(k, a))
  {
  }

  lemma {:induction false} ExecIsTraced(actions: seq<Action>)
    requires Exec(actions, false).Some?
    ensures Traced(Exec(actions, false).value, Overtaking(actions), Outliving(actions))
    decreases |actions|
  {
    if actions != [] {
      var front := actions[..|actions| - 1];
      ExecIsTraced(front);
      NextIsTraced(Exec(front, false).value, actions[|actions| - 1], Overtaking(front), Outliving(front));
    }
  }

  /**
   * Over every history, disciplined or not: nothing ever stands behind a done entry if and only if no
   * publication reaches a closed stream. And such a publication takes one of two races: a cancel request that
   * looked up the run before it was scheduled and committed after that, or one that looked it up and committed
   * after the worker had gone and left a timer flush behind.
   */
  lemma {:induction false} OrderKeptExactly(actions: seq<Action>)
    requires Exec(actions, false).Some?
    ensures OrderKept(actions) <==> !Spoiled(actions)
    ensures Spoiled(actions) ==> Overtaking(actions) == 3 || Outliving(actions) == 4
    decreases |actions|
  {
    if actions != [] {
      var front, a := actions[..|actions| - 1], actions[|actions| - 1];
      var w := Exec(front, false).value;
      OrderKeptExactly(front);
      ExecAgrees(front, false);
      ExecIsTraced(front);
      RacesEnd(front);
      if OrderKept(front) {
        NextKeepsOrder(w, a);
      }
      if Spoils(w, a) {
        assert !Active(w.row);
      }
    }
  }

  lemma {:induction false} RacesEnd(actions: seq<Action>)
    ensures Overtaking(actions) <= 3 && Outliving(actions) <= 4
    decreases |actions|
  {
    if actions != [] {
      RacesEnd(actions[..|actions| - 1]);
    }
  }

  lemma ExecStep(actions: seq<Action>, w: World, a: Action)
    requires Exec(actions, false) == Some(w) && Enabled(w, a)
    ensures Exec(actions + [a], false) == Some(Next(w, a))
  {
    assert (actions + [a])[..|actions|] == actions;
  }

  const OVERTAKEN := [LookUp, Schedule, PlanCancel(0, Answered), CommitCancel(0)]

  const CANCELLED_UNDER_WORKER := World(EMPTY, Row(Cancelled, "", 1), Working(0), [Gone], None, true, false)

  const RUNNING_UNDER_CANCEL := World(EMPTY, Row(Running, "", 0), Working(0), [Found], None, false, false)

  lemma ScheduledUnderCancel()
    ensures Exec([LookUp, Schedule], false) == Some(RUNNING_UNDER_CANCEL)
  {
    var w := START.(cancellers := [Found]);
    Neutral([Found]);
    ExecStep([], START, LookUp);
    Neutral([LookUp]);
    ExecStep([LookUp], w, Schedule);
    assert [LookUp] + [Schedule] == [LookUp, Schedule];
  }

  lemma OvertakenReaches()
    ensures Exec(OVERTAKEN, false) == Some(CANCELLED_UNDER_WORKER)
  {
    ScheduledUnderCancel();
    var w := RUNNING_UNDER_CANCEL.(cancellers := [Ready(Plan(Cancelled, "", 0), true)]);
    assert Next(RUNNING_UNDER_CANCEL, PlanCancel(0, Answered)) == w;
    ExecStep([LookUp, Schedule], RUNNING_UNDER_CANCEL, PlanCancel(0, Answered));
    assert [LookUp, Schedule] + [PlanCancel(0, Answered)] == [LookUp, Schedule, PlanCancel(0, Answered)];
    assert Next(w, CommitCancel(0)) == CANCELLED_UNDER_WORKER;
    ExecStep([LookUp, Schedule, PlanCancel(0, Answered)], w, CommitCancel(0));
    assert [LookUp, Schedule, PlanCancel(0, Answered)] + [CommitCancel(0)] == OVERTAKEN;
  }

  /**
   * The discipline is needed: a cancellation that found no worker, overtaken by `schedule`, finishes the
   * run under a live worker, and the worker's next event follows the done entry.
   */
  lemma CancellationOvertaken(e: Event)
    requires e.kind != Done
    ensures var actions := OVERTAKEN + [SendDone(Answered), Publish(e, [Answered])];
            && Exec(actions, false).Some?
            && Exec(actions, false).value.store.stream == [Entry(1, DoneEvent(Cancelled)), Entry(2, e)]
  {
    OvertakenReaches();
    var w := CANCELLED_UNDER_WORKER;
    var s := Store([Entry(1, DoneEvent(Cancelled))], 1, "");
    assert TerminalScript(EMPTY, 1, Cancelled).0.stream == s.stream;
    ExecStep(OVERTAKEN, w, SendDone(Answered));
    ExecStep(OVERTAKEN + [SendDone(Answered)], w.(store := s), Publish(e, [Answered]));
    assert AppendScript(s, e).0.stream == [Entry(1, DoneEvent(Cancelled)), Entry(2, e)];
    assert (OVERTAKEN + [SendDone(Answered)]) + [Publish(e, [Answered])] ==
             OVERTAKEN + [SendDone(Answered), Publish(e, [Answered])];
  }

  const OUTLIVED := [Schedule, TimerFires("a"), Drop, LookUp, PlanCancel(0, Answered), CommitCancel(0)]

  const CANCELLED_UNDER_TIMER := World(EMPTY, Row(Cancelled, "", 1), Settled, [Gone], Some("a"), true, false)

  const LOOKED_UP_UNDER_TIMER := World(EMPTY, Row(Running, "", 0), Settled, [Found], Some("a"), false, false)

  lemma LookedUpUnderTimer()
    ensures Exec([Schedule, TimerFires("a"), Drop, LookUp], false) == Some(LOOKED_UP_UNDER_TIMER)
  {
    var working := START.(row := Row(Running, "", 0), phase := Working(0));
    Neutral([Schedule]);
    ExecStep([], START, Schedule);
    ExecStep([Schedule], working, TimerFires("a"));
    ExecStep([Schedule] + [TimerFires("a")], working.(timer := Some("a")), Drop);
    Neutral([Found]);
    ExecStep([Schedule] + [TimerFires("a")] + [Drop], working.(timer := Some("a"), phase := Settled), LookUp);
    assert [Schedule] + [TimerFires("a")] + [Drop] + [LookUp] == [Schedule, TimerFires("a"), Drop, LookUp];
  }

  lemma OutlivedReaches()
    ensures Exec(OUTLIVED, false) == Some(CANCELLED_UNDER_TIMER)
  {
    LookedUpUnderTimer();
    var front := [Schedule, TimerFires("a"), Drop, LookUp];
    var w := LOOKED_UP_UNDER_TIMER.(cancellers := [Ready(Plan(Cancelled, "", 0), true)]);
    assert Next(LOOKED_UP_UNDER_TIMER, PlanCancel(0, Answered)) == w;
    ExecStep(front, LOOKED_UP_UNDER_TIMER, PlanCancel(0, Answered));
    assert Next(w, CommitCancel(0)) == CANCELLED_UNDER_TIMER;
    ExecStep(front + [PlanCancel(0, Answered)], w, CommitCancel(0));
    assert front + [PlanCancel(0, Answered)] + [CommitCancel(0)] == OUTLIVED;
  }

  /** So is the second half of the discipline: the timer's token follows the done entry of the cancellation. */
  lemma TimerOutlivesRun()
    ensures var actions := OUTLIVED + [SendDone(Answered), TimerSends(Answered)];
            && Exec(actions, false).Some?
            && Exec(actions, false).value.store.stream == [Entry(1, DoneEvent(Cancelled)), Entry(2, TokenOf("a"))]
  {
    OutlivedReaches();
    var w := CANCELLED_UNDER_TIMER;
    var s := Store([Entry(1, DoneEvent(Cancelled))], 1, "");
    assert TerminalScript(EMPTY, 1, Cancelled).0.stream == s.stream;
    ExecStep(OUTLIVED, w, SendDone(Answered));
    ExecStep(OUTLIVED + [SendDone(Answered)], w.(store := s), TimerSends(Answered));
    assert AppendScript(s, TokenOf("a")).0.stream == [Entry(1, DoneEvent(Cancelled)), Entry(2, TokenOf("a"))];
    assert (OUTLIVED + [SendDone(Answered)]) + [TimerSends(Answered)] ==
             OUTLIVED + [SendDone(Answered), TimerSends(Answered)];
  }

  /** Or the token comes first and takes the number of the done, which then is never written. */
  lemma TimerTakesNumber()
    ensures var actions := OUTLIVED + [TimerSends(Answered), SendDone(Answered)];
            && Exec(actions, false).Some?
            && Exec(actions, false).value.row == Row(Cancelled, "", 1) && Exec(actions, false).value.exact
            && Exec(actions, false).value.store.stream == [Entry(1, TokenOf("a"))]
  {
    OutlivedReaches();
    var w := CANCELLED_UNDER_TIMER;
    var w' := Next(w, TimerSends(Answered));
    assert w'.store.stream == [Entry(1, TokenOf("a"))];
    ExecStep(OUTLIVED, w, TimerSends(Answered));
    ExecStep(OUTLIVED + [TimerSends(Answered)], w', SendDone(Answered));
    assert (OUTLIVED + [TimerSends(Answered)]) + [SendDone(Answered)] ==
             OUTLIVED + [TimerSends(Answered), SendDone(Answered)];
  }

  // ----- what a step does, and how histories end -----

  /** The row moves in four kinds of steps, and only as long as the run is under way. */
  lemma RowStep(w: World, a: Action)
    requires Enabled(w, a)
    ensures var row, row' := w.row, Next(w, a).row;
            && (!Active(row) ==> row' == row)
            && (Active(row) && a == Schedule ==>
                  row' == if row.status == Queued then Row(Running, row.output, row.sequence) else row)
            && (Active(row) && a == RejectSchedule ==> row' == Row(Failed, "", 1))
            && (Active(row) && a == Commit ==>
                  row' == Row(w.phase.plan.status, w.phase.plan.output, w.phase.plan.sequence + 1))
            && (Active(row) && a.CommitCancel? ==>
                  var plan := w.cancellers[a.request].plan; row' == Row(plan.status, plan.output, plan.sequence + 1))
            && (a != Schedule && a != RejectSchedule && a != Commit && !a.CommitCancel? ==> row' == row)
  {
  }

  /** The store moves by publications, by an error event of a restart, by done events and by expiry. */
  lemma StoreStep(w: World, a: Action)
    requires Enabled(w, a) && WellFormed(w.store)
    ensures var s, s' := w.store, Next(w, a).store;
            match a
            case Publish(e, network) => s' == AppendAll(s, Repeat(e, Executions(network)))
            case TimerSends(exchange) =>
              s' == if exchange == NotReached then s else AppendAll(s, [Event(Token, Text(w.timer.value))])
            case Reconcile(snapshot, network) =>
              s' == if snapshot == Answered then AppendAll(s, Repeat(STALE_MESSAGE, Executions(network))) else s
            case SendDone(exchange) =>
              s' == if exchange == NotReached || w.row.sequence < 1 then s
                    else TerminalScript(s, w.row.sequence, w.row.status).0
            case Expire => s' == EMPTY
            case _ => s' == s
  {
    match a {
      case Publish(e, network) => AppendCallCopies(w.store, e, network);
      case TimerSends(exchange) => SendsOnce(w.store, TokenOf(w.timer.value), exchange);
      case Reconcile(_, network) => AppendCallCopies(w.store, STALE_MESSAGE, network);
      case _ =>
    }
  }

  lemma SendsOnce(store: Store, e: Event, exchange: Exchange)
    requires WellFormed(store)
    ensures AppendCall(store, e, [exchange]).0 == if exchange == NotReached then store else AppendAll(store, [e])
    ensures AppendCall(store, e, [exchange]).1.Ok? <==> exchange == Answered
  {
    OneExecution(exchange);
    AppendCallCopies(store, e, [exchange]);
    AppendAllNothing(store);
    RepeatCons(e, 0);
  }

  /** What the holder of a run may do next; done events wait for the row, and the process may crash at any time. */
  lemma Choices(w: World, a: Action)
    requires !OfRequest(a) && !a.SendDone? && !a.Crash? && !a.Expire? && !a.TimerSends? && !a.TimerGivesUp?
    requires a.Publish? ==> a.event.kind != Done
    requires a.EndWork? ==> a.status in {WaitingApproval, Succeeded, Failed, Cancelled}
    ensures Enabled(w, a) <==>
              match w.phase
              case Waiting => a.Schedule? || a.RejectSchedule?
              case Working(_) =>
                a.Publish? || a.Drop? || (w.timer == None && (a.TimerFires? || a.EndWork?))
              case Planned(_, _, count) => a.Commit? || (count != None && (a.Resume? || a.Drop?))
              case Settled => false
              case Orphaned =>
                && a.Reconcile? && w.row.status in {Queued, Running}
                && forall i :: 0 <= i < |w.cancellers| ==> w.cancellers[i] == Gone
  {
    FinishedExactly(w.row.status);
  }

  /** Cancel requests look up a run without a worker, plan what they found, and commit what they planned. */
  lemma RequestChoices(w: World, i: nat, snapshot: Exchange)
    ensures Enabled(w, LookUp) <==> w.row.status in {Queued, Running} && !w.phase.Working? && !w.phase.Planned?
    ensures Enabled(w, PlanCancel(i, snapshot)) <==> i < |w.cancellers| && w.cancellers[i] == Found
    ensures Enabled(w, CommitCancel(i)) <==> i < |w.cancellers| && w.cancellers[i].Ready?
    ensures Enabled(w, DropCancel(i)) <==> i < |w.cancellers|
    ensures Enabled(w, SendDone(snapshot)) <==> w.row.status !in {Queued, Running}
    ensures Enabled(w, Expire) <==> w.row.status !in {Queued, Running}
    ensures Enabled(w, TimerSends(snapshot)) <==> w.timer != None
    ensures Enabled(w, TimerGivesUp) <==> w.timer != None
  {
    FinishedExactly(w.row.status);
  }

  /** Who holds the run after a step. */
  lemma PhaseStep(w: World, a: Action)
    requires Enabled(w, a)
    ensures var phase, phase' := w.phase, Next(w, a).phase;
            && (a == Schedule ==> phase' == if w.row.status in {Queued, Running} then Working(0) else Settled)
            && (a in {RejectSchedule, Drop, Commit} ==> phase' == Settled)
            && (a == Crash ==> phase' == Orphaned)
            && (a == Resume ==> phase' == Working(phase.count.value))
            && (a.EndWork? ==>
                  && phase'.Planned? && phase'.count == Some(phase.last) && (phase'.exact <==> a.snapshot == Answered)
                  && phase'.plan == MakePlan(w.store, a.status, a.text, phase.last, a.preferText, a.snapshot))
            && (a.Reconcile? ==>
                  && phase'.Planned? && phase'.count == None && phase'.plan.status == Failed
                  && phase'.plan == ReconcilePlan(w.store, w.row, a.snapshot, a.network).1)
            && (phase'.Working? && (a.Publish? || a.TimerSends?) ==> phase.Working?)
            && (a.TimerFires? || a.TimerGivesUp? || OfRequest(a) || a.SendDone? || a.Expire? ==> phase' == phase)
  {
  }

  /** An acknowledged publication is counted by a worker, and by nobody else. */
  lemma CountStep(w: World, e: Event, network: seq<Exchange>, exchange: Exchange)
    requires WellFormed(w.store)
    ensures Enabled(w, Publish(e, network)) ==>
              Next(w, Publish(e, network)).phase ==
              if Acknowledged(network) then Working(Next(w, Publish(e, network)).store.counter) else w.phase
    ensures Enabled(w, TimerSends(exchange)) ==>
              var w' := Next(w, TimerSends(exchange));
              && w'.phase == (if exchange == Answered && w.phase.Working? then Working(w'.store.counter) else w.phase)
              && w'.timer == (if exchange == Answered then None else w.timer)
  {
    AppendCallCopies(w.store, e, network);
    if w.timer.Some? {
      SendsOnce(w.store, TokenOf(w.timer.value), exchange);
    }
  }

  /** A cancel request plans to finish the run as cancelled, with the text and number of the row or of the snapshot. */
  lemma RequestStep(w: World, a: Action)
    requires Enabled(w, a)
    ensures var before, after := w.cancellers, Next(w, a).cancellers;
            && (a == LookUp ==> after == before + [Found])
            && (a.PlanCancel? ==>
                  var plan := MakePlan(w.store, Cancelled, w.row.output, w.row.sequence, false, a.snapshot);
                  after == before[a.request := Ready(plan, a.snapshot == Answered)])
            && (a.CommitCancel? || a.DropCancel? ==> after == before[a.request := Gone])
            && (a == Crash ==> after == [])
            && (!OfRequest(a) && a != Crash ==> after == before)
  {
  }

  lemma Grows(actions: seq<Action>, disciplined: bool, w: World, a: Action)
    requires Exec(actions, disciplined) == Some(w) && Enabled(w, a) && (disciplined ==> Disciplined(w, a))
    ensures Exec(actions + [a], disciplined) == Some(Next(w, a))
  {
    assert (actions + [a])[..|actions|] == actions;
  }

  lemma OneEvent(e: Event)
    requires e.kind != Done
    ensures AppendCall(EMPTY, e, [Answered]) == (AppendAll(EMPTY, [e]), Ok(1))
    ensures AppendAll(EMPTY, [e]).counter == 1 && AppendAll(EMPTY, [e]).stream == [Entry(1, e)]
    ensures AppendAll(EMPTY, [e]).output == TokenText(e) && WellFormed(AppendAll(EMPTY, [e]))
  {
    SendsOnce(EMPTY, e, Answered);
    AppendCallCopies(EMPTY, e, [Answered]);
    OneExecution(Answered);
    AppendAllKeeps(EMPTY, [e]);
    TokensOne(e);
    Neutral(TokenText(e));
    assert AppendAll(EMPTY, [e]).stream == [Entry(1, e)];
  }

  lemma DoneBehind(store: Store, row: Row)
    requires WellFormed(store) && NoDone(store) && Finished(row.status) && row.sequence == store.counter + 1
    ensures WriteDone(store, row, Answered).stream == store.stream + [Entry(row.sequence, DoneEvent(row.status))]
  {
    TerminalScriptKeeps(store, row.sequence, row.status);
  }

  /** The undisturbed run: scheduled, one event, finished as it ends, with the stored text and both entries. */
  function Plain(e: Event, status: Status, text: string): seq<Action> {
    [Schedule] + [Publish(e, [Answered])] + [EndWork(status, text, false, Answered)] + [Commit] + [SendDone(Answered)]
  }

  lemma PlainRun(e: Event, status: Status, text: string)
    requires e.kind != Done && Finished(status)
    ensures Exec(Plain(e, status, text), true).Some?
    ensures var w := Exec(Plain(e, status, text), true).value;
            && w.row == Row(status, TokenText(e), 2)
            && w.store.stream == [Entry(1, e), Entry(2, DoneEvent(status))]
  {
    OneEvent(e);
    EventHeard(e);
    var two, heard := [Schedule] + [Publish(e, [Answered])],
      START.(row := HEARD, store := AppendAll(EMPTY, [e]), phase := Working(1));
    var planned := heard.(phase := Planned(Plan(status, TokenText(e), 1), true, Some(1)));
    assert Next(heard, EndWork(status, text, false, Answered)) == planned;
    Grows(two, true, heard, EndWork(status, text, false, Answered));
    CommittedAndDone(two + [EndWork(status, text, false, Answered)], planned);
  }

  /** A run that could not be scheduled: failed, empty, and its done event the only entry. */
  lemma RejectedRun()
    ensures Exec([RejectSchedule] + [SendDone(Answered)], true).Some?
    ensures var w := Exec([RejectSchedule] + [SendDone(Answered)], true).value;
            w.row == Row(Failed, "", 1) && w.store.stream == [Entry(1, DoneEvent(Failed))]
  {
    var over := START.(row := Row(Failed, "", 1), phase := Settled, exact := true);
    Neutral([RejectSchedule]);
    Grows([], true, START, RejectSchedule);
    Grows([RejectSchedule], true, over, SendDone(Answered));
    DoneBehind(EMPTY, over.row);
  }

  const READY_TO_CANCEL := START.(cancellers := [Gone, Ready(Plan(Cancelled, "", 0), true)])

  lemma SecondRequestPlans(actions: seq<Action>)
    requires actions == [LookUp] + [DropCancel(0)] + [LookUp] + [PlanCancel(1, Answered)]
    ensures Exec(actions, true) == Some(READY_TO_CANCEL)
  {
    Neutral([LookUp]);
    Neutral([Found]);
    var one := [LookUp] + [DropCancel(0)];
    Grows([], true, START, LookUp);
    Grows([LookUp], true, START.(cancellers := [Found]), DropCancel(0));
    assert [Found][0 := Gone] == [Gone];
    Grows(one, true, START.(cancellers := [Gone]), LookUp);
    assert ([Gone] + [Found])[1 := Ready(Plan(Cancelled, "", 0), true)] == READY_TO_CANCEL.cancellers;
    Grows(one + [LookUp], true, START.(cancellers := [Gone] + [Found]), PlanCancel(1, Answered));
  }

  /** A run cancelled before it was scheduled, by a second request after the first one failed; then its keys expire. */
  lemma CancelledRun(actions: seq<Action>)
    requires actions == [LookUp] + [DropCancel(0)] + [LookUp] + [PlanCancel(1, Answered)]
    ensures var done := actions + [CommitCancel(1)] + [SendDone(Answered)];
            && Exec(done, true).Some? && Exec(done + [Expire], true).Some?
            && Exec(done, true).value.row == Row(Cancelled, "", 1)
            && Exec(done, true).value.store.stream == [Entry(1, DoneEvent(Cancelled))]
            && Exec(done + [Expire], true).value.store == EMPTY
  {
    SecondRequestPlans(actions);
    var over := Next(READY_TO_CANCEL, CommitCancel(1));
    assert over.row == Row(Cancelled, "", 1) && over.store == EMPTY;
    Grows(actions, true, READY_TO_CANCEL, CommitCancel(1));
    DoneBehind(EMPTY, over.row);
    var told := Next(over, SendDone(Answered));
    Grows(actions + [CommitCancel(1)], true, over, SendDone(Answered));
    Grows(actions + [CommitCancel(1)] + [SendDone(Answered)], true, told, Expire);
  }

  const HEARD := Row(Running, "", 0)

  lemma EventHeard(e: Event)
    requires e.kind != Done
    ensures Exec([Schedule] + [Publish(e, [Answered])], true) ==
            Some(START.(row := HEARD, store := AppendAll(EMPTY, [e]), phase := Working(1)))
  {
    OneEvent(e);
    var working := START.(row := HEARD, phase := Working(0));
    Neutral([Schedule]);
    Grows([], true, START, Schedule);
    Grows([Schedule], true, working, Publish(e, [Answered]));
  }

  lemma CrashedAndReported(e: Event, actions: seq<Action>, planned: World)
    requires e.kind != Done
    requires actions == [Schedule] + [Publish(e, [Answered])] + [Crash] + [Reconcile(Answered, [Answered])]
    requires planned.phase == Planned(Plan(Failed, TokenText(e), 2), true, None)
    requires planned.store == AppendAll(AppendAll(EMPTY, [e]), [STALE_MESSAGE])
    requires planned == START.(row := HEARD, store := planned.store, phase := planned.phase)
    ensures Exec(actions, true) == Some(planned)
    ensures planned.store.stream == [Entry(1, e), Entry(2, STALE_MESSAGE)] && planned.store.counter == 2
    ensures WellFormed(planned.store) && NoDone(planned.store)
  {
    EventHeard(e);
    var two, heard := [Schedule] + [Publish(e, [Answered])],
      START.(row := HEARD, store := AppendAll(EMPTY, [e]), phase := Working(1));
    var crashed := heard.(phase := Orphaned);
    Grows(two, true, heard, Crash);
    StaleBehind(heard.store, e, crashed, Next(crashed, Reconcile(Answered, [Answered])));
    Grows(two + [Crash], true, crashed, Reconcile(Answered, [Answered]));
  }

  /** The world behind a commit of a running run. */
  function Over(planned: World): World
    requires planned.phase.Planned?
  {
    var plan := planned.phase.plan;
    planned.(row := Row(plan.status, plan.output, plan.sequence + 1), exact := planned.phase.exact, phase := Settled)
  }

  lemma CommittedAndDone(actions: seq<Action>, planned: World)
    requires Exec(actions, true) == Some(planned) && planned.phase.Planned? && planned.row == HEARD
    requires WellFormed(planned.store) && NoDone(planned.store) && Finished(planned.phase.plan.status)
    requires planned.phase.plan.sequence == planned.store.counter
    ensures Exec(actions + [Commit] + [SendDone(Answered)], true).Some?
    ensures var w, plan := Exec(actions + [Commit] + [SendDone(Answered)], true).value, planned.phase.plan;
            && w.row == Row(plan.status, plan.output, plan.sequence + 1)
            && w.store.stream == planned.store.stream + [Entry(plan.sequence + 1, DoneEvent(plan.status))]
  {
    CommitOf(planned);
    Grows(actions, true, planned, Commit);
    DoneTold(actions + [Commit], Over(planned));
  }

  lemma DoneTold(actions: seq<Action>, over: World)
    requires Exec(actions, true) == Some(over) && WellFormed(over.store) && NoDone(over.store)
    requires Finished(over.row.status) && over.row.sequence == over.store.counter + 1
    ensures Exec(actions + [SendDone(Answered)], true) ==
            Some(over.(store := WriteDone(over.store, over.row, Answered)))
    ensures WriteDone(over.store, over.row, Answered).stream ==
            over.store.stream + [Entry(over.row.sequence, DoneEvent(over.row.status))]
  {
    Grows(actions, true, over, SendDone(Answered));
    DoneBehind(over.store, over.row);
  }

  lemma CommitOf(planned: World)
    requires planned.phase.Planned? && planned.row == HEARD
    ensures Enabled(planned, Commit) && Next(planned, Commit) == Over(planned)
  {
  }

  /** A run that a crash interrupts: the restart reports it and finishes it as failed, with the text that was stored. */
  lemma RestartedRun(e: Event)
    requires e.kind != Done
    ensures var actions := [Schedule] + [Publish(e, [Answered])] + [Crash] + [Reconcile(Answered, [Answered])]
                           + [Commit] + [SendDone(Answered)];
            && Exec(actions, true).Some?
            && Exec(actions, true).value.row == Row(Failed, TokenText(e), 3)
            && Exec(actions, true).value.store.stream ==
               [Entry(1, e), Entry(2, STALE_MESSAGE), Entry(3, DoneEvent(Failed))]
  {
    var actions := [Schedule] + [Publish(e, [Answered])] + [Crash] + [Reconcile(Answered, [Answered])];
    var planned := START.(row := HEARD, store := AppendAll(AppendAll(EMPTY, [e]), [STALE_MESSAGE]),
                          phase := Planned(Plan(Failed, TokenText(e), 2), true, None));
    CrashedAndReported(e, actions, planned);
    CommittedAndDone(actions, planned);
  }

  lemma StaleBehind(store: Store, e: Event, crashed: World, planned: World)
    requires e.kind != Done && store == AppendAll(EMPTY, [e]) && Enabled(crashed, Reconcile(Answered, [Answered]))
    requires crashed.store == store && planned == Next(crashed, Reconcile(Answered, [Answered]))
    ensures planned.phase == Planned(Plan(Failed, TokenText(e), 2), true, None)
    ensures planned.store == AppendAll(store, [STALE_MESSAGE])
    ensures planned.store.stream == [Entry(1, e), Entry(2, STALE_MESSAGE)] && planned.store.counter == 2
    ensures WellFormed(planned.store) && NoDone(planned.store)
    ensures planned == crashed.(store := planned.store, phase := planned.phase)
  {
    OneEvent(e);
    SendsOnce(store, STALE_MESSAGE, Answered);
    AppendCallCopies(store, STALE_MESSAGE, [Answered]);
    OneExecution(Answered);
    AppendAllKeeps(store, [STALE_MESSAGE]);
    assert EntriesAbove(1, [STALE_MESSAGE]) == [Entry(2, STALE_MESSAGE)];
  }

  /** A cancellation inside the finalization: the worker resumes, plans again, and the second plan is committed. */
  lemma ReplannedRun(text: string)
    ensures var actions := [Schedule] + [TimerFires(text)] + [TimerGivesUp]
                           + [EndWork(Succeeded, text, false, Answered)] + [Resume]
                           + [EndWork(Cancelled, text, false, Answered)] + [Commit] + [SendDone(Answered)];
            && Exec(actions, true).Some?
            && Exec(actions, true).value.row == Row(Cancelled, text, 1)
            && Exec(actions, true).value.store.stream == [Entry(1, DoneEvent(Cancelled))]
  {
    var working := START.(row := HEARD, phase := Working(0));
    Neutral([Schedule]);
    Grows([], true, START, Schedule);
    Grows([Schedule], true, working, TimerFires(text));
    var two := [Schedule] + [TimerFires(text)];
    Grows(two, true, working.(timer := Some(text)), TimerGivesUp);
    Grows(two + [TimerGivesUp], true, working, EndWork(Succeeded, text, false, Answered));
    var four := two + [TimerGivesUp] + [EndWork(Succeeded, text, false, Answered)];
    var planned := working.(phase := Planned(Plan(Succeeded, text, 0), true, Some(0)));
    Grows(four, true, planned, Resume);
    Grows(four + [Resume], true, working, EndWork(Cancelled, text, false, Answered));
    var again := working.(phase := Planned(Plan(Cancelled, text, 0), true, Some(0)));
    CommittedAndDone(four + [Resume] + [EndWork(Cancelled, text, false, Answered)], again);
  }
}
