/**
 * The life of one run: its SQL row, the ways a finalization chooses number and text, and the objects that
 * carry them out.
 */
module RunLifecycle {
  import opened Events
  import opened EventStore
  import opened TokenBuffer

  datatype Row = Row(status: Status, output: string, sequence: nat)

  const QUEUED_ROW := Row(Queued, "", 0)

  const STALE_MESSAGE := Event(Error, Opaque("restarted"))
  const FAILURE_MESSAGE := Event(Error, Opaque("failed"))

  function Max(a: nat, b: nat): nat {
    if a > b then a else b
  }

  function MarkRow(row: Row): Row {
    if row.status == Queued then row.(status := Running) else row
  }

  /** One SQL transaction: an active row is finished one number above `last`, a finished row is returned as it is. */
  function FinalizeRow(row: Row, status: Status, output: string, last: int): Row {
    if Finished(row.status) then row else Row(status, output, (if last > 0 then last else 0) + 1)
  }

  /** What a finalization is about to commit. */
  datatype Plan = Plan(status: Status, output: string, sequence: nat)

  /** The snapshot read of a finalization; without an answer the caller's own values are kept. */
  function MakePlan(store: Store, status: Status, fallback: string, last: nat, preferFallback: bool,
                    exchange: Exchange): Plan
  {
    if exchange != Answered || SnapshotOf(store, store).None? then Plan(status, fallback, last)
    else Plan(status, if preferFallback then fallback else store.output, Max(last, store.counter))
  }

  /** The restart path: snapshot, then an error event; failing either way it goes on with what it has. */
  function ReconcilePlan(store: Store, row: Row, exchange: Exchange, network: seq<Exchange>): (Store, Plan) {
    if exchange != Answered then (store, Plan(Failed, row.output, row.sequence))
    else
      var (after, reply) := AppendCall(store, STALE_MESSAGE, network);
      var output := if SnapshotOf(store, store).None? then row.output else store.output;
      var seen := if SnapshotOf(store, store).None? then row.sequence else store.counter;
      (after, Plan(Failed, output, if reply.Ok? then reply.value else seen))
  }

  function WriteDone(store: Store, row: Row, exchange: Exchange): Store {
    if exchange == NotReached || row.sequence < 1 then store
    else TerminalScript(store, row.sequence, row.status).0
  }

  /** Row and store after a plan is committed and its done event sent. */
  function Conclude(store: Store, row: Row, plan: Plan, exchange: Exchange): (Row, Store) {
    var row' := FinalizeRow(row, plan.status, plan.output, plan.sequence);
    (row', WriteDone(store, row', exchange))
  }

  predicate EndsWithDone(store: Store, row: Row) {
    store.stream != [] && store.stream[|store.stream| - 1] == Entry(row.sequence, DoneEvent(row.status))
  }

  ghost predicate NoDone(store: Store) {
    forall i :: 0 <= i < |store.stream| ==> store.stream[i].event.kind != Done
  }

  // ----- what the steps of a finalization decide -----

  /** Starting a run: a queued row runs, any other row stays. */
  lemma MarkedRow(row: Row)
    ensures row.status == Queued ==> MarkRow(row) == Row(Running, row.output, row.sequence)
    ensures row.status != Queued ==> MarkRow(row) == row
  {
  }

  /** The status transaction: a row under way is finished, with the number above `last` or 1; a finished one stays. */
  lemma FinalizedRow(row: Row, status: Status, output: string, last: int)
    ensures var row' := FinalizeRow(row, status, output, last);
            if row.status in {Queued, Running}
            then && row'.status == status && row'.output == output
                 && row'.sequence >= 1 && row'.sequence > last && (row'.sequence == 1 || row'.sequence == last + 1)
            else row' == row
  {
  }

  /** Redis has something of the run: a number, or text. */
  predicate Known(store: Store) {
    store.counter > 0 || store.output != ""
  }

  /**
   * Text and number of a finalization: from an answered snapshot of a known run the stored text, unless the caller's
   * own is preferred, and the higher of both numbers; otherwise the caller's.
   */
  lemma PlannedFrom(store: Store, status: Status, fallback: string, last: nat, prefer: bool, exchange: Exchange)
    ensures var plan := MakePlan(store, status, fallback, last, prefer, exchange);
            && plan.status == status
            && plan.output == (if exchange == Answered && Known(store) && !prefer then store.output else fallback)
            && plan.sequence >= last
            && (exchange == Answered && Known(store) ==>
                  plan.sequence >= store.counter && (plan.sequence == last || plan.sequence == store.counter))
            && (exchange != Answered || !Known(store) ==> plan.sequence == last)
  {
  }

  /**
   * A restart finishes the run as failed and keeps the text it finds: the stored one of a known run, or the row's
   * when the snapshot does not answer or knows nothing. It tells the subscribers by one error event, at least, when
   * that is acknowledged.
   */
  lemma RestartKeepsText(store: Store, row: Row, exchange: Exchange, network: seq<Exchange>, done: Exchange)
    requires WellFormed(store) && row.status in {Queued, Running}
    ensures var (after, plan) := ReconcilePlan(store, row, exchange, network);
            var row' := Conclude(after, row, plan, done).0;
            && row'.status == Failed
            && row'.output == (if exchange == Answered && Known(store) then store.output else row.output)
            && after == (if exchange == Answered
                         then AppendAll(store, Repeat(STALE_MESSAGE, Executions(network))) else store)
            && row'.sequence == 1 + if exchange == Answered && Acknowledged(network) then after.counter
                                    else if exchange == Answered && Known(store) then store.counter else row.sequence
  {
    AppendCallCopies(store, STALE_MESSAGE, network);
  }

  // ----- when the terminal number fits -----

  lemma ConcludeFitsExactly(store: Store, row: Row, plan: Plan)
    requires WellFormed(store) && NoDone(store) && !Finished(row.status) && Finished(plan.status)
    requires plan.sequence <= store.counter
    ensures var (row', store') := Conclude(store, row, plan, Answered);
            && (EndsWithDone(store', row') <==> plan.sequence == store.counter)
            && (plan.sequence == store.counter ==>
                  && row'.sequence == store.counter + 1
                  && TerminalScript(store, row'.sequence, row'.status).1 == Written
                  && store'.stream == store.stream + [Entry(store.counter + 1, DoneEvent(plan.status))]
                  && TerminalScript(store', row'.sequence, row'.status) == (store', AlreadyThere))
            && (plan.sequence != store.counter ==> store' == store)
  {
    TerminalScriptKeeps(store, plan.sequence + 1, plan.status);
    var (row', store') := Conclude(store, row, plan, Answered);
    TerminalScriptKeeps(store', row'.sequence, row'.status);
  }

  /**
   * A finalization by the last appender: its done event lands one above the counter, exactly once, if and
   * only if the snapshot answered or the publisher's own count was current.
   */
  lemma FinalizationFitsExactly(store: Store, row: Row, status: Status, fallback: string, last: nat, prefer: bool,
                                exchange: Exchange)
    requires WellFormed(store) && NoDone(store) && !Finished(row.status) && Finished(status)
    requires last <= store.counter
    ensures var plan := MakePlan(store, status, fallback, last, prefer, exchange);
            var (row', store') := Conclude(store, row, plan, Answered);
            && (EndsWithDone(store', row') <==> exchange == Answered || last == store.counter)
            && (exchange == Answered || last == store.counter ==>
                  row'.sequence == store.counter + 1
                  && TerminalScript(store', row'.sequence, row'.status) == (store', AlreadyThere))
  {
    ConcludeFitsExactly(store, row, MakePlan(store, status, fallback, last, prefer, exchange));
  }

  /**
   * A restart: its done event lands if and only if the error event was acknowledged or left no trace (with
   * the snapshot answered), or nothing at all was in the store. An error event that was written
   * without an acknowledgement takes the number the done event needed.
   */
  lemma ReconcileFitsExactly(store: Store, row: Row, exchange: Exchange, network: seq<Exchange>)
    requires WellFormed(store) && NoDone(store) && !Finished(row.status) && row.sequence == 0
    ensures var (after, plan) := ReconcilePlan(store, row, exchange, network);
            var (row', store') := Conclude(after, row, plan, Answered);
            EndsWithDone(store', row') <==>
              if exchange == Answered then Acknowledged(network) || Executions(network) == 0 else store.counter == 0
  {
    var (after, plan) := ReconcilePlan(store, row, exchange, network);
    AppendCallCopies(store, STALE_MESSAGE, network);
    AppendAllKeeps(store, Repeat(STALE_MESSAGE, Executions(network)));
    AppendAllNothing(store);
    assert Repeat(STALE_MESSAGE, 0) == [];
    assert store.counter == 0 ==> store.stream == [] && Tokens(Bodies(store.stream)) == "";
    ConcludeFitsExactly(after, row, plan);
  }

  /**
   * The worst case of the lemma above: the stream ends in an error event that stands at the number the row
   * calls terminal.
   */
  lemma UnacknowledgedErrorHidesDone()
    ensures var (after, plan) := ReconcilePlan(EMPTY, QUEUED_ROW, Answered, [ReplyLost]);
            var (row', store') := Conclude(after, QUEUED_ROW, plan, Answered);
            && row' == Row(Failed, "", 1)
            && store'.stream == [Entry(1, STALE_MESSAGE)]
            && TerminalScript(after, row'.sequence, row'.status).1 == AlreadyThere
  {
    var network := [ReplyLost];
    assert network[1..] == [];
    AppendScriptFits(EMPTY, STALE_MESSAGE);
    assert AppendCall(EMPTY, STALE_MESSAGE, network) == (AppendScript(EMPTY, STALE_MESSAGE).0, StoreError);
    assert AppendScript(EMPTY, STALE_MESSAGE).0.stream == [Entry(1, STALE_MESSAGE)];
    var after := AppendScript(EMPTY, STALE_MESSAGE).0;
    assert after.stream[0].id == 1;
  }

  // ----- the worker from start to finish -----

  /** How the event loop ends: by itself or an exception, by a user's cancellation, or because the server stops. */
  datatype Ending = Natural | CancelRequested | ServerStops

  /** What happens to the finalization of a loop that ended by itself, up to its commit. */
  datatype Trial = Undisturbed | SqlFails | CancelHits | StopHits

  /**
   * What the closing calls of a worker meet. `first` is the finalization behind a normal close; `commits`
   * says whether the SQL transaction of a handler's finalization succeeds.
   */
  datatype Closing = Closing(
    close: seq<Exchange>, first: Trial, closeAgain: seq<Exchange>, error: seq<Exchange>,
    snapshot: Exchange, commits: bool, done: Exchange)

  function LoopStatus(w: Worker): Status {
    if w.sawApproval then WaitingApproval else if w.sawError then Failed else Succeeded
  }

  /** A finalization: a plan committed and its done event sent, or an SQL error and nothing at all. */
  function Finalization(store: Store, row: Row, plan: Plan, commits: bool, exchange: Exchange): (Row, Store) {
    if commits then Conclude(store, row, plan, exchange) else (row, store)
  }

  /** The exception handler: close again, publish an error, keep the worker's own text. */
  function ConcludeFailure(line: Line, local: string, row: Row, c: Closing): (Row, Store) {
    var closed := CloseOn(line, c.closeAgain).line;
    var published := PublishOn(closed, FAILURE_MESSAGE, c.error).line;
    var plan := MakePlan(published.store, Failed, local, published.last, true, c.snapshot);
    Finalization(published.store, row, plan, c.commits, c.done)
  }

  /** The handler of a user's cancellation: close, then finalize with the text of the snapshot. */
  function ConcludeCancel(line: Line, local: string, row: Row, network: seq<Exchange>, c: Closing): (Row, Store) {
    var closed := CloseOn(line, network).line;
    var plan := MakePlan(closed.store, Cancelled, local, closed.last, false, c.snapshot);
    Finalization(closed.store, row, plan, c.commits, c.done)
  }

  function ConcludeWorker(w: Worker, row: Row, ending: Ending, c: Closing): (Row, Store) {
    if ending == ServerStops then (row, CloseOn(w.line, c.close).line.store)
    else if ending == CancelRequested then ConcludeCancel(w.line, w.local, row, c.close, c)
    else if w.stopped then ConcludeFailure(w.line, w.local, row, c)
    else
      var o := CloseOn(w.line, c.close);
      if !o.ok || c.first == SqlFails then ConcludeFailure(o.line, w.local, row, c)
      else if c.first == CancelHits then ConcludeCancel(o.line, w.local, row, c.closeAgain, c)
      else if c.first == StopHits then (row, CloseOn(o.line, c.closeAgain).line.store)
      else
        var plan := MakePlan(o.line.store, LoopStatus(w), w.local, o.line.last, false, c.snapshot);
        Conclude(o.line.store, row, plan, c.done)
  }

  /** The whole of a scheduled run; the metadata event is the first one its schedule receives. */
  function Execute(row: Row, store: Store, maxChars: nat, steps: seq<Step>, ending: Ending, c: Closing): (Row, Store) {
    var marked := MarkRow(row);
    if marked.status != Running then (marked, store)
    else ConcludeWorker(Run(store, maxChars, steps).worker, marked, ending, c)
  }

  const STEP := Event(Progress, Opaque("step"))

  /** Its last reply is lost, and no later call of the worker is answered until the done event is sent. */
  const UNHEARD := Closing([], Undisturbed, [], [], NotReached, true, Answered)

  lemma UnheardStep()
    ensures Advance(Fresh(EMPTY), 1, Receive(STEP, [], [ReplyLost])).worker ==
            Worker(Line(Pending([], false, false), 0, AppendAll(EMPTY, [STEP])), "", true, false, false)
  {
    AppendScriptFits(EMPTY, STEP);
    assert [ReplyLost][1..] == [];
    assert AppendCall(EMPTY, STEP, [ReplyLost]) == (AppendAll(EMPTY, [STEP]), StoreError);
  }

  /**
   * A finalization whose snapshot is not answered may miss the same way: the publisher's count is behind by
   * the event whose reply was lost, and that event stands at the number the row calls terminal.
   */
  lemma StaleCountHidesDone()
    ensures var (row, store) := Execute(QUEUED_ROW, EMPTY, 1, [Receive(STEP, [], [ReplyLost])], Natural, UNHEARD);
            && row == Row(Failed, "", 1)
            && store.stream == [Entry(1, STEP)]
            && TerminalScript(store, row.sequence, row.status).1 == AlreadyThere
  {
    var step := Receive(STEP, [], [ReplyLost]);
    UnheardStep();
    assert [step][..0] == [];
    var l := Line(Pending([], false, false), 0, AppendAll(EMPTY, [STEP]));
    assert l.store.stream == [Entry(1, STEP)];
    assert l.store.stream[0].id == 1;
    assert PublishOn(l, FAILURE_MESSAGE, []).line == l;
    assert ConcludeFailure(l, "", Row(Running, "", 0), UNHEARD) == (Row(Failed, "", 1), l.store);
    assert Run(EMPTY, 1, [step]).worker == Worker(l, "", true, false, false);
  }

  lemma {:induction false} AckedLogIsVisible(log: seq<Publication>)
    requires Sound(log) && forall i :: 0 <= i < |log| ==> log[i].acked
    ensures |Expand(log)| >= |log|
  {
    if log != [] {
      LogStep(log);
      AckedLogIsVisible(log[..|log| - 1]);
    }
  }

  /** The facts about a store that a normally closed worker leaves behind. */
  lemma AfterNormalClose(maxChars: nat, steps: seq<Step>, network: seq<Exchange>)
    requires !Run(EMPTY, maxChars, steps).worker.stopped && CloseOn(Run(EMPTY, maxChars, steps).worker.line, network).ok
    ensures var t := Run(EMPTY, maxChars, steps);
            var o := CloseOn(t.worker.line, network);
            && LineOk(o.line) && NoDone(o.line.store)
            && (o.line.store.output == t.worker.local <==> TokenClean(t.log + o.log))
            && (o.line.store.counter == 0 ==> o.line.store.output == "" == t.worker.local)
  {
    var t := Run(EMPTY, maxChars, steps);
    var o := CloseOn(t.worker.line, network);
    var log := t.log + o.log;
    CloseDrains(EMPTY, maxChars, steps, network);
    CloseMoves(EMPTY, maxChars, steps, network);
    OutputAgainstLocal(maxChars, steps, network);
    LogInStore(o.line.store, log);
  }

  /** A store filled from empty by an acknowledged log: no done entry, and nothing in it means an empty log. */
  lemma LogInStore(store: Store, log: seq<Publication>)
    requires Sound(log) && forall i :: 0 <= i < |log| ==> log[i].acked
    requires store == AppendAll(EMPTY, Expand(log))
    ensures NoDone(store)
    ensures store.counter == 0 ==> log == [] && store.output == ""
  {
    NoDoneInLog(log);
    AckedLogIsVisible(log);
  }

  lemma {:induction false} NoDoneInLog(log: seq<Publication>)
    requires Sound(log)
    ensures forall i :: 0 <= i < |Expand(log)| ==> Expand(log)[i].kind != Done
  {
    if log != [] {
      LogStep(log);
      NoDoneInLog(log[..|log| - 1]);
    }
  }

  lemma LogKeepsOpen(store: Store, log: seq<Publication>)
    requires NoDone(store) && Sound(log)
    ensures NoDone(AppendAll(store, Expand(log)))
  {
    NoDoneInLog(log);
  }

  /** A line with no done entry in its store. */
  ghost predicate Open(l: Line) {
    LineOk(l) && NoDone(l.store)
  }

  lemma CloseKeepsOpen(l: Line, network: seq<Exchange>)
    requires Open(l)
    ensures Open(CloseOn(l, network).line)
  {
    CloseStep(l, network);
    LogKeepsOpen(l.store, CloseOn(l, network).log);
  }

  lemma PublishKeepsOpen(l: Line, e: Event, network: seq<Exchange>)
    requires Open(l) && e.kind != Done && Atoms(e) != []
    ensures Open(PublishOn(l, e, network).line)
  {
    PublishMoves(l, e, network);
    LogKeepsOpen(l.store, PublishOn(l, e, network).log);
  }

  lemma RunIsOpen(maxChars: nat, steps: seq<Step>)
    ensures Open(Run(EMPTY, maxChars, steps).worker.line)
  {
    RunFaithful(EMPTY, maxChars, steps);
    LogKeepsOpen(EMPTY, Run(EMPTY, maxChars, steps).log);
  }

  /**
   * Number and done event of a finalization behind this line: one above the last entry if the snapshot answered,
   * and the done event ends the stream exactly when it was sent and the number is that one.
   */
  ghost predicate Concluded(l: Line, row: Row, store: Store, c: Closing) {
    && (c.snapshot == Answered ==> row.sequence == l.store.counter + 1)
    && (EndsWithDone(store, row) <==> c.done != NotReached && (c.snapshot == Answered || l.last == l.store.counter))
  }

  lemma OpenConcludes(l: Line, status: Status, text: string, prefer: bool, c: Closing)
    requires Open(l) && Finished(status)
    ensures var plan := MakePlan(l.store, status, text, l.last, prefer, c.snapshot);
            var (row, store) := Conclude(l.store, Row(Running, "", 0), plan, c.done);
            row.status == status && Concluded(l, row, store, c)
  {
    FinalizationFitsExactly(l.store, Row(Running, "", 0), status, text, l.last, prefer, c.snapshot);
  }

  /** A finalization of a closed line, whose output string shows the worker's text exactly when `clean`. */
  lemma ClosedPersistsOutput(l: Line, local: string, clean: bool, status: Status, c: Closing)
    requires Open(l) && Finished(status)
    requires l.store.output == local <==> clean
    requires l.store.counter == 0 ==> l.store.output == "" == local
    ensures var plan := MakePlan(l.store, status, local, l.last, false, c.snapshot);
            var (row, store) := Conclude(l.store, Row(Running, "", 0), plan, c.done);
            && row.status == status && Concluded(l, row, store, c)
            && (row.output == local <==> c.snapshot != Answered || clean)
  {
    OpenConcludes(l, status, local, false, c);
  }

  /** The loop ended by itself, and the close behind it returned. */
  predicate ClosesNormally(maxChars: nat, steps: seq<Step>, c: Closing) {
    !Run(EMPTY, maxChars, steps).worker.stopped && CloseOn(Run(EMPTY, maxChars, steps).worker.line, c.close).ok
  }

  /** Waiting when an approval was asked for, else failed when an error was reported, else succeeded. */
  predicate StatusTells(status: Status, received: seq<Event>) {
    && (status == WaitingApproval <==> Contains(received, Approval))
    && (status == Failed <==> Contains(received, Error) && !Contains(received, Approval))
    && (status == Succeeded <==> !Contains(received, Approval) && !Contains(received, Error))
  }

  /** What the finalization behind a normal close commits and sends, as success or as a late cancellation. */
  function NormalEnd(maxChars: nat, steps: seq<Step>, c: Closing, status: Status): (Row, Store) {
    var w := Run(EMPTY, maxChars, steps).worker;
    var l := CloseOn(w.line, c.close).line;
    Conclude(l.store, Row(Running, "", 0), MakePlan(l.store, status, w.local, l.last, false, c.snapshot), c.done)
  }

  lemma {:induction false} NormalEndPersists(maxChars: nat, steps: seq<Step>, c: Closing, status: Status)
    requires ClosesNormally(maxChars, steps, c) && Finished(status)
    ensures var t := Run(EMPTY, maxChars, steps);
            var o := CloseOn(t.worker.line, c.close);
            var (row, store) := NormalEnd(maxChars, steps, c, status);
            && row.status == status && Concluded(o.line, row, store, c)
            && (row.output == Tokens(Received(steps)) <==> c.snapshot != Answered || TokenClean(t.log + o.log))
  {
    AfterNormalClose(maxChars, steps, c.close);
    LocalIsHeard(EMPTY, maxChars, steps);
    var t := Run(EMPTY, maxChars, steps);
    var o := CloseOn(t.worker.line, c.close);
    ClosedPersistsOutput(o.line, t.worker.local, TokenClean(t.log + o.log), status, c);
  }

  lemma SuccessEnds(maxChars: nat, steps: seq<Step>, c: Closing)
    requires ClosesNormally(maxChars, steps, c) && c.first == Undisturbed
    ensures Execute(QUEUED_ROW, EMPTY, maxChars, steps, Natural, c) ==
            NormalEnd(maxChars, steps, c, LoopStatus(Run(EMPTY, maxChars, steps).worker))
  {
  }

  lemma LateCancellationEnds(maxChars: nat, steps: seq<Step>, c: Closing)
    requires ClosesNormally(maxChars, steps, c) && c.first == CancelHits && c.commits
    ensures Execute(QUEUED_ROW, EMPTY, maxChars, steps, Natural, c) == NormalEnd(maxChars, steps, c, Cancelled)
  {
    ClosedStaysClosed(maxChars, steps, c);
  }

  /**
   * Persisted output of a run that left its loop normally and closed its buffer: the row carries the text of
   * all events received if and only if the snapshot was not answered or no publication with text ran twice.
   * Its number is one above the last event, and the done event stands there once sent. Its status tells what
   * was received.
   */
  lemma {:induction false} SuccessPersistsOutput(maxChars: nat, steps: seq<Step>, c: Closing)
    requires ClosesNormally(maxChars, steps, c) && c.first == Undisturbed
    ensures var t := Run(EMPTY, maxChars, steps);
            var o := CloseOn(t.worker.line, c.close);
            var (row, store) := Execute(QUEUED_ROW, EMPTY, maxChars, steps, Natural, c);
            && StatusTells(row.status, Received(steps))
            && (row.output == Tokens(Received(steps)) <==> c.snapshot != Answered || TokenClean(t.log + o.log))
            && Concluded(o.line, row, store, c)
  {
    SuccessEnds(maxChars, steps, c);
    FlagsTell(EMPTY, maxChars, steps);
    NormalEndPersists(maxChars, steps, c, LoopStatus(Run(EMPTY, maxChars, steps).worker));
  }

  /** The line behind the exception handler's close and error event. */
  function FailureLine(line: Line, c: Closing): Line {
    PublishOn(CloseOn(line, c.closeAgain).line, FAILURE_MESSAGE, c.error).line
  }

  /** The line that an exception leaves to its handler: as the loop left it, or as the first close did. */
  function BrokenLine(maxChars: nat, steps: seq<Step>, c: Closing): Line {
    var w := Run(EMPTY, maxChars, steps).worker;
    if w.stopped then w.line else CloseOn(w.line, c.close).line
  }

  lemma BrokenIsOpen(maxChars: nat, steps: seq<Step>, c: Closing)
    ensures Open(FailureLine(BrokenLine(maxChars, steps, c), c))
  {
    RunIsOpen(maxChars, steps);
    CloseKeepsOpen(Run(EMPTY, maxChars, steps).worker.line, c.close);
    var l := BrokenLine(maxChars, steps, c);
    CloseKeepsOpen(l, c.closeAgain);
    PublishKeepsOpen(CloseOn(l, c.closeAgain).line, FAILURE_MESSAGE, c.error);
  }

  /**
   * After an exception in the loop, the close or the finalization the row carries the text of all events that
   * were handed to the worker, whatever Redis holds; number and done event are those behind the error event.
   */
  lemma {:induction false} FailurePersistsOutput(maxChars: nat, steps: seq<Step>, c: Closing)
    requires !ClosesNormally(maxChars, steps, c) || c.first == SqlFails
    ensures var (row, store) := Execute(QUEUED_ROW, EMPTY, maxChars, steps, Natural, c);
            var l := FailureLine(BrokenLine(maxChars, steps, c), c);
            if c.commits
            then row.status == Failed && row.output == Tokens(Heard(EMPTY, maxChars, steps))
                 && Concluded(l, row, store, c)
            else row == MarkRow(QUEUED_ROW) && store == l.store
  {
    LocalIsHeard(EMPTY, maxChars, steps);
    BrokenIsOpen(maxChars, steps, c);
    var w := Run(EMPTY, maxChars, steps).worker;
    OpenConcludes(FailureLine(BrokenLine(maxChars, steps, c), c), Failed, w.local, true, c);
  }

  /**
   * After a user's cancellation, on clean replies, the row carries a prefix of the text of all events handed to the
   * worker; it is all of it exactly when the snapshot was not answered or nothing was left behind in the buffer or
   * on the way to it. Number and done event are those behind the handler's close.
   */
  lemma {:induction false} CancellationPersistsPrefix(maxChars: nat, steps: seq<Step>, c: Closing)
    requires c.commits
    ensures var t := Run(EMPTY, maxChars, steps);
            var o := CloseOn(t.worker.line, c.close);
            var text := Tokens(Heard(EMPTY, maxChars, steps));
            var (row, store) := Execute(QUEUED_ROW, EMPTY, maxChars, steps, CancelRequested, c);
            && row.status == Cancelled && Concluded(o.line, row, store, c)
            && (TokenClean(t.log + o.log) ==>
                  && row.output <= text
                  && (SnapshotOf(o.line.store, o.line.store).Some? && c.snapshot == Answered ==>
                        (row.output == text <==>
                         Joined(o.line.pending.fragments) == "" && Tokens(t.accepted) == text))
                  && (c.snapshot != Answered ==> row.output == text))
  {
    OutputAgainstLocal(maxChars, steps, c.close);
    LocalIsHeard(EMPTY, maxChars, steps);
    RunIsOpen(maxChars, steps);
    var w := Run(EMPTY, maxChars, steps).worker;
    CloseKeepsOpen(w.line, c.close);
    OpenConcludes(CloseOn(w.line, c.close).line, Cancelled, w.local, false, c);
  }

  /** The handler of an exception tells the subscribers: its error event, once acknowledged, is the last one. */
  lemma FailureIsTold(maxChars: nat, steps: seq<Step>, c: Closing)
    requires Acknowledged(c.error)
    ensures var stream := FailureLine(BrokenLine(maxChars, steps, c), c).store.stream;
            stream != [] && stream[|stream| - 1].event == FAILURE_MESSAGE
  {
    BrokenIsOpen(maxChars, steps, c);
    RunIsOpen(maxChars, steps);
    CloseKeepsOpen(Run(EMPTY, maxChars, steps).worker.line, c.close);
    CloseKeepsOpen(BrokenLine(maxChars, steps, c), c.closeAgain);
    AppendCallCopies(CloseOn(BrokenLine(maxChars, steps, c), c.closeAgain).line.store, FAILURE_MESSAGE, c.error);
  }

  /** A stop of the server only closes the buffer: the row stays running for the restart to find. */
  lemma StopLeavesRunning(maxChars: nat, steps: seq<Step>, c: Closing)
    ensures Execute(QUEUED_ROW, EMPTY, maxChars, steps, ServerStops, c) ==
            (Row(Running, "", 0), CloseOn(Run(EMPTY, maxChars, steps).worker.line, c.close).line.store)
    ensures ClosesNormally(maxChars, steps, c) && c.first == StopHits ==>
              Execute(QUEUED_ROW, EMPTY, maxChars, steps, Natural, c) ==
              (Row(Running, "", 0), CloseOn(Run(EMPTY, maxChars, steps).worker.line, c.close).line.store)
  {
    if ClosesNormally(maxChars, steps, c) && c.first == StopHits {
      ClosedStaysClosed(maxChars, steps, c);
    }
  }

  /** A run that is over is not executed again. */
  lemma FinishedIsNotRun(row: Row, store: Store, maxChars: nat, steps: seq<Step>, ending: Ending, c: Closing)
    requires row.status !in {Queued, Running}
    ensures Execute(row, store, maxChars, steps, ending, c) == (row, store)
  {
  }

  /** A handler whose commit fails leaves the row running, whatever ended the run. */
  lemma FailedCommitLeavesRunning(maxChars: nat, steps: seq<Step>, ending: Ending, c: Closing)
    requires !c.commits && (ending == Natural ==> !ClosesNormally(maxChars, steps, c) || c.first != Undisturbed)
    ensures Execute(QUEUED_ROW, EMPTY, maxChars, steps, ending, c).0 == Row(Running, "", 0)
  {
  }

  lemma {:induction false} ClosedStaysClosed(maxChars: nat, steps: seq<Step>, c: Closing)
    requires ClosesNormally(maxChars, steps, c)
    ensures var l := CloseOn(Run(EMPTY, maxChars, steps).worker.line, c.close).line; CloseOn(l, c.closeAgain).line == l
  {
    CloseDrains(EMPTY, maxChars, steps, c.close);
    EmptyCloseIsIdle(CloseOn(Run(EMPTY, maxChars, steps).worker.line, c.close).line, c.closeAgain);
  }

  lemma EmptyCloseIsIdle(l: Line, network: seq<Exchange>)
    requires l.pending == Pending([], false, false)
    ensures CloseOn(l, network).line == l
  {
  }

  /** A cancellation that strikes only inside the finalization loses no text that a success would have kept. */
  lemma {:induction false} LateCancellationPersistsOutput(maxChars: nat, steps: seq<Step>, c: Closing)
    requires ClosesNormally(maxChars, steps, c) && c.first == CancelHits && c.commits
    ensures var t := Run(EMPTY, maxChars, steps);
            var o := CloseOn(t.worker.line, c.close);
            var (row, store) := Execute(QUEUED_ROW, EMPTY, maxChars, steps, Natural, c);
            && row.status == Cancelled
            && (row.output == Tokens(Received(steps)) <==> c.snapshot != Answered || TokenClean(t.log + o.log))
            && Concluded(o.line, row, store, c)
  {
    LateCancellationEnds(maxChars, steps, c);
    NormalEndPersists(maxChars, steps, c, Cancelled);
  }

  // ----- the objects -----

  class AgentRun {
    var status: Status
    var output: string
    var sequence: nat

    constructor ()
      ensures View() == QUEUED_ROW
    {
      status, output, sequence := Queued, "", 0;
    }

    function View(): Row
      reads this
    {
      Row(status, output, sequence)
    }

    method MarkRunning() returns (running: bool)
      modifies this
      ensures View() == MarkRow(old(View())) && running == (View().status == Running)
    {
      if status == Queued {
        status := Running;
      }
      running := status == Running;
    }

    /** `finalize_chat_run`; a status that is not terminal is refused. */
    method FinalizeChatRun(newStatus: Status, text: string, last: int) returns (valid: bool)
      modifies this
      ensures valid == Finished(newStatus)
      ensures View() == if valid then FinalizeRow(old(View()), newStatus, text, last) else old(View())
    {
      if !Finished(newStatus) {
        return false;
      }
      if !Finished(status) {
        status := newStatus;
        output := text;
        sequence := (if last > 0 then last else 0) + 1;
      }
      valid := true;
    }
  }

  class ChatRunManager {
    const redis: ChatRunRedis
    const run: AgentRun

    constructor (redis: ChatRunRedis, run: AgentRun)
      ensures this.redis == redis && this.run == run
    {
      this.redis, this.run := redis, run;
    }

    /** `_finalize_run`; without a commit it raises and nothing is changed. */
    method Finalize(status: Status, fallback: string, last: nat, preferFallback: bool,
                    snapshot: Exchange, commits: bool, done: Exchange)
      returns (ok: bool)
      requires Finished(status)
      modifies redis, run
      ensures ok == commits
      ensures (run.View(), redis.State()) ==
              Finalization(old(redis.State()), old(run.View()),
                           MakePlan(old(redis.State()), status, fallback, last, preferFallback, snapshot),
                           commits, done)
    {
      var output, sequence := fallback, last;
      var reply := redis.GetSnapshot(snapshot, redis.State());
      if reply.Ok? && reply.value.Some? {
        if !preferFallback {
          output := reply.value.value.text;
        }
        sequence := Max(sequence, reply.value.value.sequence);
      }
      if !commits {
        return false;
      }
      var _ := run.FinalizeChatRun(status, output, sequence);
      var _ := redis.AppendDone(run.sequence, run.status, done);
      ok := true;
    }

    /** One round of the loop in `start`, for a run found active after a restart. */
    method Reconcile(snapshot: Exchange, network: seq<Exchange>, done: Exchange)
      modifies redis, run
      ensures var (store, plan) := ReconcilePlan(old(redis.State()), old(run.View()), snapshot, network);
              (run.View(), redis.State()) == Conclude(store, old(run.View()), plan, done)
    {
      var output, last := run.output, run.sequence;
      var reply := redis.GetSnapshot(snapshot, redis.State());
      if reply.Ok? {
        if reply.value.Some? {
          output := reply.value.value.text;
          last := reply.value.value.sequence;
        }
        var appended := redis.Append(STALE_MESSAGE, network);
        if appended.Ok? {
          last := appended.value;
        }
      }
      var _ := run.FinalizeChatRun(Failed, output, last);
      var _ := redis.AppendDone(run.sequence, run.status, done);
    }

    method FinishFailure(worker: RunWorker, closing: Closing)
      requires worker.buffer.Valid() && worker.buffer.publisher.store == redis
      modifies redis, run, worker.buffer, worker.buffer.publisher
      ensures worker.localOutput == old(worker.localOutput)
      ensures (run.View(), redis.State()) ==
              ConcludeFailure(old(worker.buffer.View()), worker.localOutput, old(run.View()), closing)
    {
      var _ := worker.buffer.Close(closing.closeAgain);
      var _ := worker.buffer.publisher.Publish(FAILURE_MESSAGE, closing.error);
      var _ := Finalize(Failed, worker.localOutput, worker.buffer.publisher.lastSequence, true,
                        closing.snapshot, closing.commits, closing.done);
    }

    method FinishCancelled(worker: RunWorker, network: seq<Exchange>, closing: Closing)
      requires worker.buffer.Valid() && worker.buffer.publisher.store == redis
      modifies redis, run, worker.buffer, worker.buffer.publisher
      ensures worker.localOutput == old(worker.localOutput)
      ensures (run.View(), redis.State()) ==
              ConcludeCancel(old(worker.buffer.View()), worker.localOutput, old(run.View()), network, closing)
    {
      var _ := worker.buffer.Close(network);
      var _ := Finalize(Cancelled, worker.localOutput, worker.buffer.publisher.lastSequence, false,
                        closing.snapshot, closing.commits, closing.done);
    }

    /** `_execute_run`. */
    method ExecuteRun(worker: RunWorker, steps: seq<Step>, ending: Ending, closing: Closing)
      requires worker.buffer.Valid() && worker.buffer.publisher.store == redis
      requires worker.View() == Fresh(redis.State())
      modifies redis, run, worker, worker.buffer, worker.buffer.publisher
      ensures (run.View(), redis.State()) ==
              Execute(old(run.View()), old(redis.State()), worker.buffer.maxChars, steps, ending, closing)
    {
      var running := run.MarkRunning();
      if !running {
        return;
      }
      worker.Consume(steps);
      if ending == CancelRequested {
        FinishCancelled(worker, closing.close, closing);
        return;
      }
      if ending == Natural && worker.stopped {
        FinishFailure(worker, closing);
        return;
      }
      var closed := worker.buffer.Close(closing.close);
      if ending == ServerStops {
        return;
      }
      if !closed {
        FinishFailure(worker, closing);
        return;
      }
      var status := if worker.sawApproval then WaitingApproval else if worker.sawError then Failed else Succeeded;
      var finalized := Finalize(status, worker.localOutput, worker.buffer.publisher.lastSequence, false,
                                closing.snapshot, closing.first == Undisturbed, closing.done);
      match closing.first {
        case Undisturbed =>
        case SqlFails => FinishFailure(worker, closing);
        case CancelHits => FinishCancelled(worker, closing.closeAgain, closing);
        case StopHits => var _ := worker.buffer.Close(closing.closeAgain);
      }
    }
  }
}
