/**
 * Token coalescing: a publisher that numbers events, a buffer that joins token fragments, and the loop
 * that feeds it. The model keeps what the network did to every publication, so that the published
 * stream can be compared with the events received under every pattern of lost replies.
 */
module TokenBuffer {
  import opened Events
  import opened EventStore

  /** One publication: the event, how often the append script ran for it, and whether the caller was told. */
  datatype Publication = Publication(event: Event, copies: nat, acked: bool)

  /** The buffer proper: held fragments, a sleeping timer, and a failure a timer flush left behind. */
  datatype Pending = Pending(fragments: seq<string>, armed: bool, failed: bool)

  /** Everything one buffer call may touch. */
  datatype Line = Line(pending: Pending, last: nat, store: Store)

  /** Result of a buffer call: the new state, whether it returned normally, and what it published. */
  datatype Outcome = Outcome(line: Line, ok: bool, log: seq<Publication>)

  function Joined(fragments: seq<string>): string {
    if fragments == [] then "" else Joined(fragments[..|fragments| - 1]) + fragments[|fragments| - 1]
  }

  function PublishOn(l: Line, e: Event, network: seq<Exchange>): Outcome {
    if e.kind == Done then Outcome(l, false, [])
    else
      var (store, reply) := AppendCall(l.store, e, network);
      Outcome(Line(l.pending, if reply.Ok? then reply.value else l.last, store), reply.Ok?,
              [Publication(e, Executions(network), reply.Ok?)])
  }

  function Disarm(l: Line): Line {
    l.(pending := l.pending.(armed := false))
  }

  /** The flush under the lock: the timer is dropped first, the fragments only after an acknowledged publication. */
  function FlushOn(l: Line, network: seq<Exchange>): Outcome {
    if l.pending.fragments == [] then Outcome(l, true, [])
    else
      var o := PublishOn(Disarm(l), Event(Token, Text(Joined(l.pending.fragments))), network);
      if o.ok then o.(line := o.line.(pending := o.line.pending.(fragments := []))) else o
  }

  function AddOn(l: Line, text: string, maxChars: nat, network: seq<Exchange>): Outcome {
    if text == "" then Outcome(l, true, [])
    else if l.pending.failed then Outcome(l, false, [])
    else
      var held := l.(pending := Pending(l.pending.fragments + [text], true, false));
      if |Joined(held.pending.fragments)| >= maxChars then FlushOn(held, network) else Outcome(held, true, [])
  }

  function BoundaryOn(l: Line, network: seq<Exchange>): Outcome {
    if l.pending.failed then Outcome(l, false, []) else FlushOn(l, network)
  }

  function CloseOn(l: Line, network: seq<Exchange>): Outcome {
    var o := BoundaryOn(l, network);
    if o.ok then o.(line := Disarm(o.line)) else o
  }

  /** The timer wakes up and finds the lock free; a failure is kept for the next caller. */
  function TimerOn(l: Line, network: seq<Exchange>): Outcome {
    if !l.pending.armed then Outcome(l, true, [])
    else
      var o := FlushOn(l, network);
      o.(line := o.line.(pending := Pending(o.line.pending.fragments, false, o.line.pending.failed || !o.ok)))
  }

  /** The running worker: its buffer, its own copy of the output, and whether its loop was left by an exception. */
  datatype Worker = Worker(line: Line, local: string, stopped: bool, sawApproval: bool, sawError: bool)

  /**
   * What can happen next: the runtime yields an event, a cancellation strikes after an event's text was
   * noted but before the buffer took it, or the timer fires.
   */
  datatype Step =
    | Receive(event: Event, flush: seq<Exchange>, publish: seq<Exchange>)
    | Interrupt(event: Event)
    | TimerFires(network: seq<Exchange>)

  /** One step: the new worker, the events the line took over in it, and its publications. */
  datatype Change = Change(worker: Worker, accepted: seq<Event>, log: seq<Publication>)

  predicate IsText(e: Event) {
    e.kind == Token && e.payload.Text?
  }

  function Advance(w: Worker, maxChars: nat, step: Step): Change {
    match step
    case TimerFires(network) =>
      var o := TimerOn(w.line, network);
      Change(w.(line := o.line), [], o.log)
    case Interrupt(e) =>
      if w.stopped then Change(w, [], [])
      else Change(w.(local := w.local + TokenText(e), stopped := true), [], [])
    case Receive(e, flush, publish) =>
      if w.stopped || e.kind == Done then Change(w, [], [])
      else if IsText(e) then
        var o := AddOn(w.line, e.payload.text, maxChars, flush);
        Change(w.(line := o.line, local := w.local + e.payload.text, stopped := !o.ok),
               if e.payload.text != "" && w.line.pending.failed then [] else [e], o.log)
      else
        var o := BoundaryOn(w.line, flush);
        if !o.ok then Change(w.(line := o.line, stopped := true), [], o.log)
        else
          var p := PublishOn(o.line, e, publish);
          Change(Worker(p.line, w.local, !p.ok, w.sawApproval || (p.ok && e.kind == Approval),
                        w.sawError || (p.ok && e.kind == Error)),
                 if p.ok then [e] else [], o.log + p.log)
  }

  /** A whole history: the worker reached, all events taken over, all publications. */
  datatype Trace = Trace(worker: Worker, accepted: seq<Event>, log: seq<Publication>)

  function Fresh(store: Store): Worker {
    Worker(Line(Pending([], false, false), 0, store), "", false, false, false)
  }

  function Run(store: Store, maxChars: nat, steps: seq<Step>): Trace {
    if steps == [] then Trace(Fresh(store), [], [])
    else
      var t := Run(store, maxChars, steps[..|steps| - 1]);
      var c := Advance(t.worker, maxChars, steps[|steps| - 1]);
      Trace(c.worker, t.accepted + c.accepted, t.log + c.log)
  }

  // ----- reading a stream at the grain of characters -----

  /** A character of token text, or a whole event of another kind. */
  datatype Atom = Letter(c: char) | Whole(event: Event)

  function Letters(text: string): (r: seq<Atom>)
    ensures |r| == |text|
  {
    seq(|text|, i requires 0 <= i < |text| => Letter(text[i]))
  }

  function Atoms(e: Event): seq<Atom> {
    if IsText(e) then Letters(e.payload.text) else [Whole(e)]
  }

  function Flat(es: seq<Event>): seq<Atom> {
    if es == [] then [] else Flat(es[..|es| - 1]) + Atoms(es[|es| - 1])
  }

  /** The events the store received, every execution counted. */
  function Expand(log: seq<Publication>): seq<Event> {
    if log == [] then []
    else Expand(log[..|log| - 1]) + Repeat(log[|log| - 1].event, log[|log| - 1].copies)
  }

  /** The events whose publication returned normally, once each. */
  function Acked(log: seq<Publication>): seq<Event> {
    if log == [] then []
    else Acked(log[..|log| - 1]) + if log[|log| - 1].acked then [log[|log| - 1].event] else []
  }

  /** The reply told the truth: exactly one execution when acknowledged, none otherwise. */
  predicate CleanPublication(p: Publication) {
    p.copies == if p.acked then 1 else 0
  }

  predicate Clean(log: seq<Publication>) {
    forall i :: 0 <= i < |log| ==> CleanPublication(log[i])
  }

  /** Only publications that carry token text are asked about. */
  predicate TokenClean(log: seq<Publication>) {
    forall i :: 0 <= i < |log| && TokenText(log[i].event) != "" ==> CleanPublication(log[i])
  }

  ghost predicate SoundPublication(p: Publication) {
    && (p.acked ==> p.copies >= 1)
    && Atoms(p.event) != []
    && p.event.kind != Done
  }

  ghost predicate Sound(log: seq<Publication>) {
    forall i :: 0 <= i < |log| ==> SoundPublication(log[i])
  }

  lemma FlatSnoc(es: seq<Event>, e: Event)
    ensures Flat(es + [e]) == Flat(es) + Atoms(e)
  {
    assert (es + [e])[..|es|] == es;
  }

  lemma FlatConcatStep(a: seq<Event>, b: seq<Event>, e: Event)
    requires Flat(a + b) == Flat(a) + Flat(b)
    ensures Flat(a + (b + [e])) == Flat(a) + Flat(b + [e])
  {
    FlatSnoc(a + b, e);
    FlatSnoc(b, e);
    Assoc(a, b, [e]);
    Assoc(Flat(a), Flat(b), Atoms(e));
  }

  lemma {:induction false} FlatConcat(a: seq<Event>, b: seq<Event>)
    ensures Flat(a + b) == Flat(a) + Flat(b)
    decreases |b|
  {
    if b == [] {
      Neutral(a);
      Neutral(Flat(a));
    } else {
      var front, last := b[..|b| - 1], b[|b| - 1];
      FlatConcat(a, front);
      FlatConcatStep(a, front, last);
      Unsnoc(b);
    }
  }

  lemma FlatOne(e: Event)
    ensures Flat([e]) == Atoms(e)
  {
    assert [e][..0] == [];
  }

  lemma LettersConcat(a: string, b: string)
    ensures Letters(a + b) == Letters(a) + Letters(b)
  {
  }

  lemma {:induction false} FlatRepeat(e: Event, k: nat)
    requires Atoms(e) != []
    ensures k == 0 ==> Flat(Repeat(e, k)) == []
    ensures k == 1 ==> Flat(Repeat(e, k)) == Atoms(e)
    ensures k > 1 ==> |Flat(Repeat(e, k))| > |Atoms(e)|
  {
    if k > 0 {
      FlatRepeat(e, k - 1);
      assert Repeat(e, k)[..k - 1] == Repeat(e, k - 1);
    }
  }

  lemma LogSnoc(log: seq<Publication>, p: Publication)
    ensures Expand(log + [p]) == Expand(log) + Repeat(p.event, p.copies)
    ensures Acked(log + [p]) == Acked(log) + if p.acked then [p.event] else []
  {
    assert (log + [p])[..|log|] == log;
  }

  lemma {:induction false} LogConcat(a: seq<Publication>, b: seq<Publication>)
    ensures Expand(a + b) == Expand(a) + Expand(b)
    ensures Acked(a + b) == Acked(a) + Acked(b)
    decreases |b|
  {
    if b == [] {
      Neutral(a);
      Neutral(Expand(a));
      Neutral(Acked(a));
    } else {
      var front, last := b[..|b| - 1], b[|b| - 1];
      LogConcat(a, front);
      LogSnoc(a + front, last);
      LogSnoc(front, last);
      Unsnoc(b);
      Assoc(a, front, [last]);
      Assoc(Expand(a), Expand(front), Repeat(last.event, last.copies));
      Assoc(Acked(a), Acked(front), if last.acked then [last.event] else []);
    }
  }

  lemma LogOne(p: Publication)
    ensures Expand([p]) == Repeat(p.event, p.copies)
    ensures Acked([p]) == if p.acked then [p.event] else []
  {
    assert [p][..0] == [];
  }

  lemma LogStep(log: seq<Publication>)
    requires log != []
    ensures var n := |log| - 1;
            && (Clean(log) <==> Clean(log[..n]) && CleanPublication(log[n]))
            && (TokenClean(log) <==>
                  TokenClean(log[..n]) && (TokenText(log[n].event) != "" ==> CleanPublication(log[n])))
            && (Sound(log) <==> Sound(log[..n]) && SoundPublication(log[n]))
  {
  }

  lemma OnePublication(p: Publication)
    requires SoundPublication(p)
    ensures var got, told := Repeat(p.event, p.copies), if p.acked then [p.event] else [];
            && |Flat(got)| >= |Flat(told)| && |Tokens(got)| >= |Tokens(told)|
            && (if CleanPublication(p) then got == told else |Flat(got)| > |Flat(told)|)
            && (if TokenText(p.event) != "" ==> CleanPublication(p) then Tokens(got) == Tokens(told)
                else |Tokens(got)| > |Tokens(told)|)
  {
    FlatRepeat(p.event, p.copies);
    TokensRepeat(p.event, p.copies);
    FlatOne(p.event);
    TokensOne(p.event);
  }

  /**
   * Seen by atom, the store holds the acknowledged events exactly when every reply was truthful, and more
   * otherwise.
   */
  lemma {:induction false} ExpandAgainstAcked(log: seq<Publication>)
    requires Sound(log)
    ensures Clean(log) ==> Expand(log) == Acked(log)
    ensures |Flat(Expand(log))| >= |Flat(Acked(log))|
    ensures !Clean(log) ==> |Flat(Expand(log))| > |Flat(Acked(log))|
    decreases |log|
  {
    if log != [] {
      var n := |log| - 1;
      var front, p := log[..n], log[n];
      LogStep(log);
      ExpandAgainstAcked(front);
      OnePublication(p);
      FlatConcat(Expand(front), Repeat(p.event, p.copies));
      FlatConcat(Acked(front), if p.acked then [p.event] else []);
    }
  }

  /** Seen as text, only publications that carry text matter. */
  lemma {:induction false} TextAgainstAcked(log: seq<Publication>)
    requires Sound(log)
    ensures TokenClean(log) ==> Tokens(Expand(log)) == Tokens(Acked(log))
    ensures |Tokens(Expand(log))| >= |Tokens(Acked(log))|
    ensures !TokenClean(log) ==> |Tokens(Expand(log))| > |Tokens(Acked(log))|
    decreases |log|
  {
    if log != [] {
      var n := |log| - 1;
      var front, p := log[..n], log[n];
      LogStep(log);
      TextAgainstAcked(front);
      OnePublication(p);
      TokensConcat(Expand(front), Repeat(p.event, p.copies));
      TokensConcat(Acked(front), if p.acked then [p.event] else []);
    }
  }

  // ----- what every call keeps -----

  ghost predicate LineOk(l: Line) {
    && WellFormed(l.store)
    && l.last <= l.store.counter
    && (forall i :: 0 <= i < |l.pending.fragments| ==> l.pending.fragments[i] != "")
  }

  /** The call moved the line forward by exactly the events `taken`. */
  ghost predicate Moves(l: Line, o: Outcome, taken: seq<Event>) {
    && LineOk(o.line)
    && Sound(o.log)
    && o.line.store == AppendAll(l.store, Expand(o.log))
    && Flat(Acked(o.log)) + Letters(Joined(o.line.pending.fragments)) ==
         Letters(Joined(l.pending.fragments)) + Flat(taken)
    && Tokens(Acked(o.log)) + Joined(o.line.pending.fragments) == Joined(l.pending.fragments) + Tokens(taken)
    && (o.ok ==> forall i :: 0 <= i < |o.log| ==> o.log[i].acked)
  }

  lemma StandStill(l: Line, ok: bool)
    requires LineOk(l)
    ensures Moves(l, Outcome(l, ok, []), [])
  {
    AppendAllNothing(l.store);
    assert Joined(l.pending.fragments) + "" == "" + Joined(l.pending.fragments);
  }

  lemma CopiesStored(store: Store, e: Event, network: seq<Exchange>, store': Store, log: seq<Publication>)
    requires WellFormed(store) && store' == AppendCall(store, e, network).0
    requires log == [Publication(e, Executions(network), Acknowledged(network))]
    ensures store' == AppendAll(store, Expand(log)) && WellFormed(store')
    ensures Acked(log) == if Acknowledged(network) then [e] else []
  {
    AppendCallCopies(store, e, network);
    LogOne(log[0]);
    AppendAllKeeps(store, Repeat(e, Executions(network)));
  }

  lemma PublishMoves(l: Line, e: Event, network: seq<Exchange>)
    requires LineOk(l) && e.kind != Done && Atoms(e) != []
    ensures var o := PublishOn(l, e, network);
            && LineOk(o.line) && Sound(o.log) && o.line.pending == l.pending
            && o.line.store == AppendAll(l.store, Expand(o.log))
            && Acked(o.log) == (if o.ok then [e] else [])
            && (o.ok ==> forall i :: 0 <= i < |o.log| ==> o.log[i].acked)
  {
    var o := PublishOn(l, e, network);
    AppendCallCopies(l.store, e, network);
    CopiesStored(l.store, e, network, o.line.store, o.log);
  }

  lemma {:induction false} JoinedNonEmpty(fragments: seq<string>)
    requires fragments != [] && forall i :: 0 <= i < |fragments| ==> fragments[i] != ""
    ensures Joined(fragments) != ""
  {
  }

  /** The part of a flush that publishes what is held: it is either still held or acknowledged. */
  lemma HeldIsPublished(l: Line, network: seq<Exchange>)
    requires LineOk(l) && l.pending.fragments != []
    ensures Moves(l, FlushOn(l, network), [])
    ensures FlushOn(l, network).ok ==> FlushOn(l, network).line.pending.fragments == []
  {
    var text := Joined(l.pending.fragments);
    var e := Event(Token, Text(text));
    JoinedNonEmpty(l.pending.fragments);
    PublishMoves(Disarm(l), e, network);
    FlatOne(e);
    TokensOne(e);
    Neutral(Letters(text));
    Neutral(text);
    assert Letters(Joined([])) == [];
  }

  lemma FlushMoves(l: Line, network: seq<Exchange>)
    requires LineOk(l)
    ensures Moves(l, FlushOn(l, network), [])
    ensures FlushOn(l, network).ok ==> FlushOn(l, network).line.pending.fragments == []
  {
    if l.pending.fragments == [] {
      StandStill(l, true);
    } else {
      HeldIsPublished(l, network);
    }
  }

  lemma AddMoves(l: Line, text: string, maxChars: nat, network: seq<Exchange>)
    requires LineOk(l) && text != "" && !l.pending.failed
    ensures Moves(l, AddOn(l, text, maxChars, network), [Event(Token, Text(text))])
  {
    var fragments := l.pending.fragments + [text];
    var held := l.(pending := Pending(fragments, true, false));
    var e := Event(Token, Text(text));
    FlatOne(e);
    TokensOne(e);
    assert fragments[..|fragments| - 1] == l.pending.fragments;
    LettersConcat(Joined(l.pending.fragments), text);
    assert LineOk(held);
    FlushMoves(held, network);
    StandStill(held, true);
    var o := AddOn(l, text, maxChars, network);
    assert Moves(held, o, []);
    assert Letters(Joined(fragments)) + [] == Letters(Joined(fragments));
    assert Joined(fragments) + "" == Joined(fragments);
  }

  lemma PublishAfterFlushMoves(l: Line, e: Event, network: seq<Exchange>)
    requires LineOk(l) && l.pending.fragments == [] && e.kind != Done && !IsText(e)
    ensures Moves(l, PublishOn(l, e, network), if PublishOn(l, e, network).ok then [e] else [])
  {
    PublishMoves(l, e, network);
    FlatOne(e);
    TokensOne(e);
  }

  lemma Regroup<T>(a1: seq<T>, a2: seq<T>, held: seq<T>, kept: seq<T>, first: seq<T>, taken1: seq<T>, taken2: seq<T>)
    requires a1 + held == first + taken1
    requires a2 + kept == held + taken2
    ensures (a1 + a2) + kept == first + (taken1 + taken2)
  {
    assert (a1 + a2) + kept == a1 + (a2 + kept);
    assert a1 + (held + taken2) == (a1 + held) + taken2;
    assert (first + taken1) + taken2 == first + (taken1 + taken2);
  }

  /** Two moves in a row are one. */
  lemma MovesCompose(l: Line, first: Outcome, a: seq<Event>, second: Outcome, b: seq<Event>)
    requires Moves(l, first, a) && Moves(first.line, second, b)
    ensures Moves(l, Outcome(second.line, first.ok && second.ok, first.log + second.log), a + b)
  {
    LogConcat(first.log, second.log);
    AppendAllSplit(l.store, Expand(first.log), Expand(second.log));
    FlatConcat(Acked(first.log), Acked(second.log));
    FlatConcat(a, b);
    TokensConcat(Acked(first.log), Acked(second.log));
    TokensConcat(a, b);
    var before, between, after :=
      Joined(l.pending.fragments), Joined(first.line.pending.fragments), Joined(second.line.pending.fragments);
    Regroup(Flat(Acked(first.log)), Flat(Acked(second.log)), Letters(between), Letters(after), Letters(before),
            Flat(a), Flat(b));
    Regroup(Tokens(Acked(first.log)), Tokens(Acked(second.log)), between, after, before, Tokens(a), Tokens(b));
  }

  // ----- when something is published, and what is held otherwise -----

  /** One publication of a token event with this text: what it leaves, acknowledged or not. */
  ghost predicate PublishesText(l: Line, o: Outcome, text: string, network: seq<Exchange>) {
    var e := Event(Token, Text(text));
    && (o.ok <==> Acknowledged(network))
    && o.log == [Publication(e, Executions(network), Acknowledged(network))]
    && o.line.store == AppendAll(l.store, Repeat(e, Executions(network)))
    && o.line.last == (if Acknowledged(network) then o.line.store.counter else l.last)
    && !o.line.pending.armed
  }

  /** A publication refuses done events without a call; any other event is sent, and counted once acknowledged. */
  lemma PublishAnswer(l: Line, e: Event, network: seq<Exchange>)
    requires WellFormed(l.store)
    ensures var o := PublishOn(l, e, network);
            if e.kind == Done then o == Outcome(l, false, [])
            else
              && (o.ok <==> Acknowledged(network))
              && o.log == [Publication(e, Executions(network), Acknowledged(network))]
              && o.line.store == AppendAll(l.store, Repeat(e, Executions(network)))
              && o.line.last == (if Acknowledged(network) then o.line.store.counter else l.last)
              && o.line.pending == l.pending
  {
    AppendCallCopies(l.store, e, network);
  }

  /** A flush: nothing for an empty buffer, else all held text at once; only an acknowledgement empties the buffer. */
  lemma FlushAnswer(l: Line, network: seq<Exchange>)
    requires WellFormed(l.store)
    ensures var o := FlushOn(l, network);
            if l.pending.fragments == [] then o == Outcome(l, true, [])
            else
              && PublishesText(l, o, Joined(l.pending.fragments), network)
              && o.line.pending.fragments == (if o.ok then [] else l.pending.fragments)
              && o.line.pending.failed == l.pending.failed
  {
    AppendCallCopies(l.store, Event(Token, Text(Joined(l.pending.fragments))), network);
  }

  /** An armed timer flushes what is held, and a failure of it is recorded; one that was dropped does nothing. */
  lemma TimerAnswer(l: Line, network: seq<Exchange>)
    requires WellFormed(l.store)
    ensures var o := TimerOn(l, network);
            if !l.pending.armed then o == Outcome(l, true, [])
            else if l.pending.fragments == [] then o == Outcome(Disarm(l), true, []) && !o.line.pending.armed
            else
              && PublishesText(l, o, Joined(l.pending.fragments), network)
              && o.line.pending.fragments == (if o.ok then [] else l.pending.fragments)
              && (o.line.pending.failed <==> l.pending.failed || !o.ok)
  {
    FlushAnswer(l, network);
  }

  /**
   * An add: empty text is nothing, a failure on record is raised, text below the limit is held under an armed timer
   * without any publication, and text that reaches the limit is published with everything held.
   */
  lemma AddAnswer(l: Line, text: string, maxChars: nat, network: seq<Exchange>)
    requires WellFormed(l.store)
    ensures var o := AddOn(l, text, maxChars, network);
            var all := Joined(l.pending.fragments) + text;
            if text == "" || l.pending.failed then o == Outcome(l, text == "", [])
            else if |all| < maxChars
            then o == Outcome(l.(pending := Pending(l.pending.fragments + [text], true, false)), true, [])
            else
              && PublishesText(l, o, all, network) && !o.line.pending.failed
              && o.line.pending.fragments == (if o.ok then [] else l.pending.fragments + [text])
  {
    JoinedSnoc(l.pending.fragments, text);
    FlushAnswer(l.(pending := Pending(l.pending.fragments + [text], true, false)), network);
  }

  /** A close raises a failure on record, and else flushes; it drops the timer when it returns. */
  lemma CloseAnswer(l: Line, network: seq<Exchange>)
    requires WellFormed(l.store)
    ensures var o := CloseOn(l, network);
            if l.pending.failed then o == Outcome(l, false, [])
            else if l.pending.fragments == [] then o == Outcome(Disarm(l), true, []) && !o.line.pending.armed
            else
              && PublishesText(l, o, Joined(l.pending.fragments), network) && !o.line.pending.failed
              && o.line.pending.fragments == (if o.ok then [] else l.pending.fragments)
  {
    FlushAnswer(l, network);
  }

  // ----- whole histories -----

  /** Still in its loop, and no failure waits for it. */
  predicate Healthy(w: Worker) {
    !w.stopped && !w.line.pending.failed
  }

  /** The worker's line holds what it took over, and its own copy of the output is never behind. */
  ghost predicate Faithful(store: Store, t: Trace) {
    && Moves(Fresh(store).line, Outcome(t.worker.line, Healthy(t.worker), t.log), t.accepted)
    && Tokens(t.accepted) <= t.worker.local
    && (!t.worker.stopped ==> Tokens(t.accepted) == t.worker.local)
  }

  lemma TimerMoves(l: Line, network: seq<Exchange>)
    requires LineOk(l)
    ensures Moves(l, TimerOn(l, network), [])
    ensures !TimerOn(l, network).ok || l.pending.failed <==> TimerOn(l, network).line.pending.failed
  {
    FlushMoves(l, network);
    StandStill(l, true);
  }

  lemma AddCallMoves(l: Line, e: Event, maxChars: nat, network: seq<Exchange>)
    requires LineOk(l) && IsText(e)
    ensures Moves(l, AddOn(l, e.payload.text, maxChars, network),
                  if e.payload.text != "" && l.pending.failed then [] else [e])
    ensures AddOn(l, e.payload.text, maxChars, network).line.pending.failed == l.pending.failed
  {
    if e.payload.text == "" {
      StandStill(l, true);
      FlatOne(e);
      TokensOne(e);
      assert Letters("") == [];
    } else if l.pending.failed {
      StandStill(l, false);
    } else {
      AddMoves(l, e.payload.text, maxChars, network);
      assert e == Event(Token, Text(e.payload.text));
    }
  }

  lemma FlushThenPublish(l: Line, o: Outcome, e: Event, publish: seq<Exchange>)
    requires Moves(l, o, []) && o.ok && o.line.pending.fragments == [] && !IsText(e) && e.kind != Done
    ensures var p := PublishOn(o.line, e, publish);
            && Moves(l, Outcome(p.line, p.ok, o.log + p.log), if p.ok then [e] else [])
            && p.line.pending == o.line.pending
  {
    var p := PublishOn(o.line, e, publish);
    var taken := if p.ok then [e] else [];
    PublishAfterFlushMoves(o.line, e, publish);
    MovesCompose(l, o, [], p, taken);
    Neutral(taken);
  }

  lemma OtherEventMoves(l: Line, e: Event, flush: seq<Exchange>, publish: seq<Exchange>)
    requires LineOk(l) && !IsText(e) && e.kind != Done
    ensures var o := BoundaryOn(l, flush);
            if !o.ok then Moves(l, o, []) && o.line.pending.failed == l.pending.failed
            else
              var p := PublishOn(o.line, e, publish);
              && Moves(l, Outcome(p.line, p.ok, o.log + p.log), if p.ok then [e] else [])
              && p.line.pending.failed == l.pending.failed
  {
    StandStill(l, false);
    FlushMoves(l, flush);
    var o := BoundaryOn(l, flush);
    if o.ok {
      FlushThenPublish(l, o, e, publish);
    }
  }

  /** Claiming less about the replies keeps a move a move. */
  lemma WeakenMoves(l: Line, o: Outcome, taken: seq<Event>, ok: bool)
    requires Moves(l, o, taken) && (ok ==> o.ok)
    ensures Moves(l, Outcome(o.line, ok, o.log), taken)
  {
  }

  lemma AdvanceMoves(w: Worker, maxChars: nat, step: Step)
    requires LineOk(w.line)
    ensures var c := Advance(w, maxChars, step);
            && Moves(w.line, Outcome(c.worker.line, Healthy(c.worker), c.log), c.accepted)
            && (Healthy(c.worker) ==> Healthy(w))
  {
    var c := Advance(w, maxChars, step);
    var healthy := Healthy(c.worker);
    match step {
      case TimerFires(network) =>
        TimerMoves(w.line, network);
        WeakenMoves(w.line, TimerOn(w.line, network), [], healthy);
      case Interrupt(e) =>
        StandStill(w.line, healthy);
      case Receive(e, flush, publish) =>
        if w.stopped || e.kind == Done {
          StandStill(w.line, healthy);
        } else if IsText(e) {
          AddCallMoves(w.line, e, maxChars, flush);
          WeakenMoves(w.line, AddOn(w.line, e.payload.text, maxChars, flush), c.accepted, healthy);
        } else {
          OtherEventMoves(w.line, e, flush, publish);
          var o := BoundaryOn(w.line, flush);
          if !o.ok {
            WeakenMoves(w.line, o, [], healthy);
          } else {
            var p := PublishOn(o.line, e, publish);
            WeakenMoves(w.line, Outcome(p.line, p.ok, o.log + p.log), c.accepted, healthy);
          }
        }
    }
  }

  lemma AdvanceLocal(w: Worker, maxChars: nat, step: Step, before: string)
    requires before <= w.local && (!w.stopped ==> before == w.local)
    ensures var c := Advance(w, maxChars, step);
            && before + Tokens(c.accepted) <= c.worker.local
            && (!c.worker.stopped ==> before + Tokens(c.accepted) == c.worker.local)
  {
    var c := Advance(w, maxChars, step);
    assert before + "" == before;
    if step.Receive? {
      TokensOne(step.event);
    }
  }

  /** Every reachable state is faithful, whatever the interleaving of events, timers and lost replies. */
  lemma {:induction false} RunFaithful(store: Store, maxChars: nat, steps: seq<Step>)
    requires WellFormed(store)
    ensures Faithful(store, Run(store, maxChars, steps))
    decreases |steps|
  {
    var start := Fresh(store).line;
    if steps == [] {
      StandStill(start, true);
    } else {
      var front, step := steps[..|steps| - 1], steps[|steps| - 1];
      var t := Run(store, maxChars, front);
      var c := Advance(t.worker, maxChars, step);
      RunFaithful(store, maxChars, front);
      AdvanceMoves(t.worker, maxChars, step);
      MovesCompose(start, Outcome(t.worker.line, Healthy(t.worker), t.log), t.accepted,
                   Outcome(c.worker.line, Healthy(c.worker), c.log), c.accepted);
      AdvanceLocal(t.worker, maxChars, step, Tokens(t.accepted));
      TokensConcat(t.accepted, c.accepted);
    }
  }

  /** The events the runtime yielded; done events are skipped by the loop. */
  function Received(steps: seq<Step>): seq<Event> {
    if steps == [] then []
    else
      var last := steps[|steps| - 1];
      Received(steps[..|steps| - 1]) + if last.Receive? && last.event.kind != Done then [last.event] else []
  }

  /** A worker still in its loop took over every event it received. */
  lemma {:induction false} RunTakesAll(store: Store, maxChars: nat, steps: seq<Step>)
    requires !Run(store, maxChars, steps).worker.stopped
    ensures Run(store, maxChars, steps).accepted == Received(steps)
    decreases |steps|
  {
    if steps != [] {
      RunTakesAll(store, maxChars, steps[..|steps| - 1]);
    }
  }

  /** The event that the runtime hands to the loop in a step, if any. */
  function EventIn(step: Step): seq<Event> {
    match step
    case Receive(e, _, _) => if e.kind == Done then [] else [e]
    case Interrupt(e) => [e]
    case TimerFires(_) => []
  }

  /** The events handed to the loop while it ran: the last one may be the one that ended it. */
  function Heard(store: Store, maxChars: nat, steps: seq<Step>): seq<Event> {
    if steps == [] then []
    else
      var front := steps[..|steps| - 1];
      Heard(store, maxChars, front)
      + if Run(store, maxChars, front).worker.stopped then [] else EventIn(steps[|steps| - 1])
  }

  lemma LocalStep(w: Worker, maxChars: nat, step: Step)
    ensures Advance(w, maxChars, step).worker.local ==
            w.local + if w.stopped || EventIn(step) == [] then "" else TokenText(EventIn(step)[0])
  {
    Neutral(w.local);
  }

  lemma HeardStep(w: Worker, maxChars: nat, step: Step, heard: seq<Event>, local: string)
    requires w.local == Tokens(heard) && local == Advance(w, maxChars, step).worker.local
    ensures local == Tokens(heard + if w.stopped then [] else EventIn(step))
  {
    LocalStep(w, maxChars, step);
    Neutral(heard);
    Neutral(w.local);
    if EventIn(step) != [] {
      TokensSnoc(heard, EventIn(step)[0]);
      assert EventIn(step) == [EventIn(step)[0]];
    }
  }

  /** The worker's own text is the text of all events handed to it, and of all received ones while its loop runs. */
  lemma {:induction false} LocalIsHeard(store: Store, maxChars: nat, steps: seq<Step>)
    ensures var w := Run(store, maxChars, steps).worker;
            && w.local == Tokens(Heard(store, maxChars, steps))
            && (!w.stopped ==> Heard(store, maxChars, steps) == Received(steps))
    decreases |steps|
  {
    if steps != [] {
      var front, step := steps[..|steps| - 1], steps[|steps| - 1];
      LocalIsHeard(store, maxChars, front);
      var w := Run(store, maxChars, front).worker;
      HeardStep(w, maxChars, step, Heard(store, maxChars, front), Advance(w, maxChars, step).worker.local);
    }
  }

  /** Text is held for the timer only, and less of it than the limit. */
  predicate HeldForTimer(l: Line, maxChars: nat) {
    !l.pending.failed && (l.pending.fragments != [] ==> l.pending.armed && |Joined(l.pending.fragments)| < maxChars)
  }

  predicate AllAcked(log: seq<Publication>) {
    forall i :: 0 <= i < |log| ==> log[i].acked
  }

  lemma AckedInTwo(a: seq<Publication>, b: seq<Publication>)
    requires AllAcked(a + b)
    ensures AllAcked(a) && AllAcked(b)
  {
    assert forall i :: 0 <= i < |a| ==> a[i] == (a + b)[i];
    assert forall i :: 0 <= i < |b| ==> b[i] == (a + b)[|a| + i];
  }

  lemma AcknowledgedText(l: Line, o: Outcome, text: string, network: seq<Exchange>)
    requires PublishesText(l, o, text, network) && AllAcked(o.log)
    ensures o.ok
  {
    assert o.log[0].acked;
  }

  lemma FlushHolds(l: Line, maxChars: nat, network: seq<Exchange>)
    requires WellFormed(l.store) && HeldForTimer(l, maxChars)
    requires AllAcked(FlushOn(l, network).log)
    ensures FlushOn(l, network).ok && FlushOn(l, network).line.pending.fragments == []
    ensures HeldForTimer(FlushOn(l, network).line, maxChars)
  {
    FlushAnswer(l, network);
    if l.pending.fragments != [] {
      AcknowledgedText(l, FlushOn(l, network), Joined(l.pending.fragments), network);
    }
  }

  lemma AddHolds(l: Line, text: string, maxChars: nat, network: seq<Exchange>)
    requires WellFormed(l.store) && HeldForTimer(l, maxChars)
    requires AllAcked(AddOn(l, text, maxChars, network).log)
    ensures HeldForTimer(AddOn(l, text, maxChars, network).line, maxChars)
  {
    JoinedSnoc(l.pending.fragments, text);
    AddAnswer(l, text, maxChars, network);
    var o, all := AddOn(l, text, maxChars, network), Joined(l.pending.fragments) + text;
    if text != "" && |all| >= maxChars {
      AcknowledgedText(l, o, all, network);
    }
  }

  lemma AdvanceHolds(w: Worker, maxChars: nat, step: Step)
    requires WellFormed(w.line.store) && HeldForTimer(w.line, maxChars) && AllAcked(Advance(w, maxChars, step).log)
    ensures HeldForTimer(Advance(w, maxChars, step).worker.line, maxChars)
  {
    match step {
      case TimerFires(network) =>
        if w.line.pending.armed {
          FlushHolds(w.line, maxChars, network);
        }
      case Interrupt(_) =>
      case Receive(e, flush, publish) =>
        if !w.stopped && e.kind != Done {
          if IsText(e) {
            AddHolds(w.line, e.payload.text, maxChars, flush);
          } else {
            var o := BoundaryOn(w.line, flush);
            if o.ok {
              AckedInTwo(o.log, PublishOn(o.line, e, publish).log);
            }
            FlushHolds(w.line, maxChars, flush);
          }
        }
    }
  }

  /**
   * As long as every publication was acknowledged, held fragments mean an armed timer and fewer characters than the
   * limit, in every reachable state: nothing is held for longer than one interval.
   */
  lemma {:induction false} HeldIsArmed(store: Store, maxChars: nat, steps: seq<Step>)
    requires WellFormed(store) && AllAcked(Run(store, maxChars, steps).log)
    ensures HeldForTimer(Run(store, maxChars, steps).worker.line, maxChars)
    decreases |steps|
  {
    if steps != [] {
      var front, step := steps[..|steps| - 1], steps[|steps| - 1];
      var t := Run(store, maxChars, front);
      AckedInTwo(t.log, Advance(t.worker, maxChars, step).log);
      HeldIsArmed(store, maxChars, front);
      RunFaithful(store, maxChars, front);
      AdvanceHolds(t.worker, maxChars, step);
    }
  }

  /** An event of this kind is among them. */
  predicate Contains(es: seq<Event>, kind: Kind) {
    exists i :: 0 <= i < |es| && es[i].kind == kind
  }

  lemma ContainsSnoc(es: seq<Event>, e: Event, kind: Kind)
    ensures Contains(es + [e], kind) <==> Contains(es, kind) || e.kind == kind
  {
    var all := es + [e];
    if e.kind == kind {
      assert all[|es|].kind == kind;
    } else if Contains(es, kind) {
      var i :| 0 <= i < |es| && es[i].kind == kind;
      assert all[i].kind == kind;
    }
  }

  lemma FlagsOfOne(w: Worker, maxChars: nat, step: Step)
    requires !Advance(w, maxChars, step).worker.stopped && !w.stopped
    ensures var w' := Advance(w, maxChars, step).worker;
            && (w'.sawApproval <==> w.sawApproval || Contains(EventIn(step), Approval))
            && (w'.sawError <==> w.sawError || Contains(EventIn(step), Error))
  {
    if EventIn(step) != [] {
      assert EventIn(step) == [EventIn(step)[0]];
    }
  }

  lemma ContainsInTwo(a: seq<Event>, b: seq<Event>, kind: Kind)
    requires |b| <= 1
    ensures Contains(a + b, kind) <==> Contains(a, kind) || Contains(b, kind)
  {
    if b == [] {
      Neutral(a);
    } else {
      assert b == [b[0]];
      ContainsSnoc(a, b[0], kind);
    }
  }

  lemma FlagStep(w: Worker, maxChars: nat, step: Step, received: seq<Event>)
    requires !Advance(w, maxChars, step).worker.stopped && !w.stopped
    requires w.sawApproval <==> Contains(received, Approval)
    requires w.sawError <==> Contains(received, Error)
    ensures var w', received' := Advance(w, maxChars, step).worker, received + EventIn(step);
            && (w'.sawApproval <==> Contains(received', Approval))
            && (w'.sawError <==> Contains(received', Error))
  {
    FlagsOfOne(w, maxChars, step);
    ContainsInTwo(received, EventIn(step), Approval);
    ContainsInTwo(received, EventIn(step), Error);
  }

  /** The two flags of a loop that runs on tell whether such an event was received. */
  lemma {:induction false} FlagsTell(store: Store, maxChars: nat, steps: seq<Step>)
    requires !Run(store, maxChars, steps).worker.stopped
    ensures var w := Run(store, maxChars, steps).worker;
            && (w.sawApproval <==> Contains(Received(steps), Approval))
            && (w.sawError <==> Contains(Received(steps), Error))
    decreases |steps|
  {
    if steps != [] {
      var front, step := steps[..|steps| - 1], steps[|steps| - 1];
      var w := Run(store, maxChars, front).worker;
      assert !w.stopped;
      FlagsTell(store, maxChars, front);
      FlagStep(w, maxChars, step, Received(front));
    }
  }

  /** A log whose acknowledged part reads as `taken` is itself read as `taken` exactly when it is clean. */
  lemma StreamExactlyWhenClean(log: seq<Publication>, held: seq<Atom>, taken: seq<Atom>)
    requires Sound(log) && Flat(Acked(log)) + held == taken
    ensures Flat(Expand(log)) + held == taken <==> Clean(log)
  {
    ExpandAgainstAcked(log);
    assert |Flat(Acked(log)) + held| == |Flat(Acked(log))| + |held|;
    assert |Flat(Expand(log)) + held| == |Flat(Expand(log))| + |held|;
  }

  lemma NothingInFront<T>(nothing: seq<T>, s: seq<T>)
    requires nothing == []
    ensures nothing + s == s
  {
  }

  lemma FromTheStart(store: Store, o: Outcome, taken: seq<Event>)
    requires Moves(Fresh(store).line, o, taken)
    ensures Flat(Acked(o.log)) + Letters(Joined(o.line.pending.fragments)) == Flat(taken)
    ensures Tokens(Acked(o.log)) + Joined(o.line.pending.fragments) == Tokens(taken)
  {
    NothingInFront(Letters(""), Flat(taken));
    NothingInFront("", Tokens(taken));
  }

  /**
   * Token coalescing refines the event stream. In every reachable state the acknowledged publications
   * followed by the held fragments are exactly the events taken over, nothing lost, duplicated or
   * reordered. The stream itself shows the same exactly when no reply lied about its executions.
   */
  lemma {:induction false} CoalescingRefines(store: Store, maxChars: nat, steps: seq<Step>)
    requires WellFormed(store)
    ensures var t := Run(store, maxChars, steps);
            var held := Letters(Joined(t.worker.line.pending.fragments));
            && WellFormed(t.worker.line.store)
            && Bodies(t.worker.line.store.stream) == Bodies(store.stream) + Expand(t.log)
            && Flat(Acked(t.log)) + held == Flat(t.accepted)
            && (Flat(Expand(t.log)) + held == Flat(t.accepted) <==> Clean(t.log))
            && (!t.worker.stopped ==> t.accepted == Received(steps))
  {
    var t := Run(store, maxChars, steps);
    RunFaithful(store, maxChars, steps);
    FromTheStart(store, Outcome(t.worker.line, Healthy(t.worker), t.log), t.accepted);
    AppendAllKeeps(store, Expand(t.log));
    StreamExactlyWhenClean(t.log, Letters(Joined(t.worker.line.pending.fragments)), Flat(t.accepted));
    if !t.worker.stopped {
      RunTakesAll(store, maxChars, steps);
    }
  }

  /** A close after the loop moves nothing in or out. */
  lemma CloseStep(l: Line, network: seq<Exchange>)
    requires LineOk(l)
    ensures var o := CloseOn(l, network);
            && Moves(l, o, [])
            && (o.ok ==> o.line.pending == Pending([], false, false) && !l.pending.failed)
  {
    FlushMoves(l, network);
    StandStill(l, false);
  }

  lemma {:induction false} CloseMoves(store: Store, maxChars: nat, steps: seq<Step>, network: seq<Exchange>)
    requires WellFormed(store)
    ensures var t := Run(store, maxChars, steps);
            var o := CloseOn(t.worker.line, network);
            && Moves(Fresh(store).line, Outcome(o.line, Healthy(t.worker) && o.ok, t.log + o.log), t.accepted)
            && (o.ok ==> o.line.pending == Pending([], false, false) && !t.worker.line.pending.failed)
  {
    var t := Run(store, maxChars, steps);
    var l := t.worker.line;
    RunFaithful(store, maxChars, steps);
    CloseStep(l, network);
    MovesCompose(Fresh(store).line, Outcome(l, Healthy(t.worker), t.log), t.accepted, CloseOn(l, network), []);
    Neutral(t.accepted);
  }

  /**
   * A close that returns leaves the buffer empty and its timer gone. Leaving the loop normally and
   * closing means that every event received is published, in order, and that the stream shows exactly
   * these events if and only if no reply lied about its executions.
   */
  lemma {:induction false} CloseDrains(store: Store, maxChars: nat, steps: seq<Step>, network: seq<Exchange>)
    requires WellFormed(store)
    requires !Run(store, maxChars, steps).worker.stopped
    requires CloseOn(Run(store, maxChars, steps).worker.line, network).ok
    ensures var t := Run(store, maxChars, steps);
            var o := CloseOn(t.worker.line, network);
            var log := t.log + o.log;
            && o.line.pending == Pending([], false, false)
            && Bodies(o.line.store.stream) == Bodies(store.stream) + Expand(log)
            && (forall i :: 0 <= i < |log| ==> log[i].acked)
            && Flat(Acked(log)) == Flat(Received(steps))
            && (Flat(Expand(log)) == Flat(Received(steps)) <==> Clean(log))
  {
    var t := Run(store, maxChars, steps);
    var o := CloseOn(t.worker.line, network);
    var log := t.log + o.log;
    CloseMoves(store, maxChars, steps, network);
    RunTakesAll(store, maxChars, steps);
    AppendAllKeeps(store, Expand(log));
    FromTheStart(store, Outcome(o.line, true, log), t.accepted);
    StreamExactlyWhenClean(log, [], Flat(t.accepted));
    assert Flat(Acked(log)) + [] == Flat(Acked(log));
    assert Flat(Expand(log)) + [] == Flat(Expand(log));
  }

  lemma StoredFromEmpty(o: Outcome, taken: seq<Event>)
    requires Moves(Fresh(EMPTY).line, o, taken)
    ensures Sound(o.log) && o.line.store.output == Tokens(Expand(o.log))
  {
    NothingInFront("", Tokens(Expand(o.log)));
  }

  /** `got` is the stored output, `held` what the buffer holds, `taken` what it took over, `local` the worker's text. */
  lemma OutputCompared(log: seq<Publication>, got: string, held: string, taken: string, local: string)
    requires Sound(log) && got == Tokens(Expand(log))
    requires Tokens(Acked(log)) + held == taken && taken <= local
    ensures held == "" && taken == local ==> (got == local <==> TokenClean(log))
    ensures TokenClean(log) ==> got <= local && (got == local <==> held == "" && taken == local)
  {
    TextAgainstAcked(log);
    Neutral(Tokens(Acked(log)));
    assert Tokens(Acked(log)) <= taken;
  }

  /**
   * The output string after the close is never shorter than what the buffer delivered. On the success
   * path it equals the worker's own text exactly when no publication carrying text ran twice; cut short
   * by a cancellation it is, on clean replies, a prefix of that text, and all of it exactly when the
   * last flush was acknowledged and the interrupted event had reached the buffer.
   */
  lemma {:induction false} OutputAgainstLocal(maxChars: nat, steps: seq<Step>, network: seq<Exchange>)
    ensures var t := Run(EMPTY, maxChars, steps);
            var o := CloseOn(t.worker.line, network);
            var log := t.log + o.log;
            && (!t.worker.stopped && o.ok ==> (o.line.store.output == t.worker.local <==> TokenClean(log)))
            && (TokenClean(log) ==> o.line.store.output <= t.worker.local)
            && (TokenClean(log) ==>
                  (o.line.store.output == t.worker.local <==>
                   Joined(o.line.pending.fragments) == "" && Tokens(t.accepted) == t.worker.local))
  {
    var t := Run(EMPTY, maxChars, steps);
    var o := CloseOn(t.worker.line, network);
    CloseMoves(EMPTY, maxChars, steps, network);
    RunFaithful(EMPTY, maxChars, steps);
    FromTheStart(EMPTY, Outcome(o.line, Healthy(t.worker) && o.ok, t.log + o.log), t.accepted);
    StoredFromEmpty(Outcome(o.line, Healthy(t.worker) && o.ok, t.log + o.log), t.accepted);
    OutputCompared(t.log + o.log, o.line.store.output, Joined(o.line.pending.fragments), Tokens(t.accepted),
                   t.worker.local);
  }

  lemma SentTwice(e: Event, network: seq<Exchange>, store: Store)
    requires e == Event(Token, Text("a")) && network == [ReplyLost, Answered]
    requires store == AppendCall(EMPTY, e, network).0
    ensures store.output == "aa" && AppendCall(EMPTY, e, network).1.Ok?
  {
    AppendCallCopies(EMPTY, e, network);
    assert network[1..] == [Answered];
    assert Executions([Answered]) == 1 && Executions(network) == 2;
    assert network[1] == Answered;
    TokensOne(e);
    assert Repeat(e, 2)[..1] == Repeat(e, 1) == [e];
    assert Tokens(Repeat(e, 2)) == "a" + "a";
  }

  lemma LimitReached(e: Event, network: seq<Exchange>)
    requires e == Event(Token, Text("a")) && network == [ReplyLost, Answered]
    ensures var c := Advance(Fresh(EMPTY), 1, Receive(e, network, []));
            && c.worker.line.store == AppendCall(EMPTY, e, network).0
            && c.worker.line.pending == Pending([], false, false)
            && c.worker.local == "a" && !c.worker.stopped
  {
    assert ["a"][..0] == [];
    assert Joined(["a"]) == "a";
    assert [] + ["a"] == ["a"];
    SentTwice(e, network, AppendCall(EMPTY, e, network).0);
  }

  /** A lost reply is enough: one token, received once, stands twice in the output of a successful run. */
  lemma LostReplyDoublesOutput()
    ensures var steps := [Receive(Event(Token, Text("a")), [ReplyLost, Answered], [])];
            var t := Run(EMPTY, 1, steps);
            var o := CloseOn(t.worker.line, []);
            !t.worker.stopped && o.ok && t.worker.local == "a" && o.line.store.output == "aa"
  {
    var e, network := Event(Token, Text("a")), [ReplyLost, Answered];
    var step := Receive(e, network, []);
    assert [step][..0] == [];
    assert Run(EMPTY, 1, [step]).worker == Advance(Fresh(EMPTY), 1, step).worker;
    LimitReached(e, network);
    SentTwice(e, network, AppendCall(EMPTY, e, network).0);
  }

  // ----- the objects -----

  lemma JoinedSnoc(fragments: seq<string>, text: string)
    ensures Joined(fragments + [text]) == Joined(fragments) + text
  {
    assert (fragments + [text])[..|fragments|] == fragments;
  }

  class RunPublisher {
    const store: ChatRunRedis
    var lastSequence: nat

    constructor (store: ChatRunRedis)
      ensures this.store == store && lastSequence == 0
    {
      this.store := store;
      lastSequence := 0;
    }

    method Publish(e: Event, network: seq<Exchange>) returns (ok: bool)
      modifies this, store
      ensures forall pending ::
                var o := PublishOn(Line(pending, old(lastSequence), old(store.State())), e, network);
                o.line == Line(pending, lastSequence, store.State()) && ok == o.ok
    {
      var reply := store.Append(e, network);
      if reply.Ok? {
        lastSequence := reply.value;
      }
      ok := reply.Ok?;
    }
  }

  class TokenEventBuffer {
    const publisher: RunPublisher
    const maxChars: nat
    var fragments: seq<string>
    var characters: nat
    var armed: bool
    var failed: bool

    /** The character count is the length of what is held. */
    ghost predicate Valid()
      reads this
    {
      characters == |Joined(fragments)|
    }

    function View(): Line
      reads this, publisher, publisher.store
    {
      Line(Pending(fragments, armed, failed), publisher.lastSequence, publisher.store.State())
    }

    constructor (publisher: RunPublisher, maxChars: nat)
      ensures Valid() && this.publisher == publisher && this.maxChars == maxChars
      ensures View() == Line(Pending([], false, false), publisher.lastSequence, publisher.store.State())
    {
      this.publisher := publisher;
      this.maxChars := maxChars;
      fragments, characters, armed, failed := [], 0, false, false;
    }

    method FlushLocked(network: seq<Exchange>) returns (ok: bool)
      requires Valid()
      modifies this, publisher, publisher.store
      ensures Valid()
      ensures var o := FlushOn(old(View()), network); View() == o.line && ok == o.ok
    {
      if fragments == [] {
        return true;
      }
      armed := false;
      ok := publisher.Publish(Event(Token, Text(Joined(fragments))), network);
      assert View() == PublishOn(Disarm(old(View())), Event(Token, Text(Joined(fragments))), network).line;
      if ok {
        fragments := [];
        characters := 0;
      }
    }

    method Add(text: string, network: seq<Exchange>) returns (ok: bool)
      requires Valid()
      modifies this, publisher, publisher.store
      ensures Valid()
      ensures var o := AddOn(old(View()), text, maxChars, network); View() == o.line && ok == o.ok
    {
      if text == "" {
        return true;
      }
      if failed {
        return false;
      }
      JoinedSnoc(fragments, text);
      fragments := fragments + [text];
      characters := characters + |text|;
      if !armed {
        armed := true;
      }
      ok := true;
      if characters >= maxChars {
        ok := FlushLocked(network);
      }
    }

    method Flush(network: seq<Exchange>) returns (ok: bool)
      requires Valid()
      modifies this, publisher, publisher.store
      ensures Valid()
      ensures var o := BoundaryOn(old(View()), network); View() == o.line && ok == o.ok
    {
      if failed {
        return false;
      }
      ok := FlushLocked(network);
    }

    method Close(network: seq<Exchange>) returns (ok: bool)
      requires Valid()
      modifies this, publisher, publisher.store
      ensures Valid()
      ensures var o := CloseOn(old(View()), network); View() == o.line && ok == o.ok
    {
      ok := Flush(network);
      if ok {
        armed := false;
      }
    }

    method FlushAfterInterval(network: seq<Exchange>)
      requires Valid()
      modifies this, publisher, publisher.store
      ensures Valid()
      ensures View() == TimerOn(old(View()), network).line
    {
      if armed {
        var ok := FlushLocked(network);
        if !ok {
          failed := true;
        }
        armed := false;
      }
    }
  }

  /** The event loop of a run, driven by a schedule of what happens next. */
  class RunWorker {
    const buffer: TokenEventBuffer
    var localOutput: string
    var stopped: bool
    var sawApproval: bool
    var sawError: bool

    function View(): Worker
      reads this, buffer, buffer.publisher, buffer.publisher.store
    {
      Worker(buffer.View(), localOutput, stopped, sawApproval, sawError)
    }

    constructor (buffer: TokenEventBuffer)
      ensures this.buffer == buffer
      ensures View() == Worker(buffer.View(), "", false, false, false)
    {
      this.buffer := buffer;
      localOutput, stopped, sawApproval, sawError := "", false, false, false;
    }

    method Handle(step: Step)
      requires buffer.Valid()
      modifies this, buffer, buffer.publisher, buffer.publisher.store
      ensures buffer.Valid()
      ensures View() == Advance(old(View()), buffer.maxChars, step).worker
    {
      match step {
        case TimerFires(network) =>
          buffer.FlushAfterInterval(network);
        case Interrupt(e) =>
          if !stopped {
            localOutput := localOutput + TokenText(e);
            stopped := true;
          }
        case Receive(e, flush, publish) =>
          if stopped || e.kind == Done {
            return;
          }
          if IsText(e) {
            localOutput := localOutput + e.payload.text;
            var ok := buffer.Add(e.payload.text, flush);
            stopped := !ok;
          } else {
            var ok := buffer.Flush(flush);
            if !ok {
              stopped := true;
              return;
            }
            ok := buffer.publisher.Publish(e, publish);
            stopped := !ok;
            if ok {
              sawApproval := sawApproval || e.kind == Approval;
              sawError := sawError || e.kind == Error;
            }
          }
      }
    }

    /** The loop computes the history that the theorems above speak of. */
    method Consume(steps: seq<Step>)
      requires buffer.Valid()
      requires View() == Fresh(buffer.publisher.store.State())
      modifies this, buffer, buffer.publisher, buffer.publisher.store
      ensures buffer.Valid()
      ensures View() == Run(old(buffer.publisher.store.State()), buffer.maxChars, steps).worker
    {
      ghost var start := buffer.publisher.store.State();
      var i := 0;
      assert steps[..0] == [];
      while i < |steps|
        invariant 0 <= i <= |steps|
        invariant buffer.Valid()
        invariant View() == Run(start, buffer.maxChars, steps[..i]).worker
      {
        assert steps[..i + 1][..i] == steps[..i];
        Handle(steps[i]);
        i := i + 1;
      }
      assert steps[..i] == steps;
    }
  }
}
