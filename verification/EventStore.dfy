/**
 * The Redis side of a chat run: a stream, a counter and an output string, changed only by two Lua
 * scripts that Redis runs atomically.
 */
module EventStore {
  import opened Events

  datatype Entry = Entry(id: nat, event: Event)

  /** The three keys of a run. A missing counter reads as 0 and a missing output as "". */
  datatype Store = Store(stream: seq<Entry>, counter: nat, output: string)

  const EMPTY := Store([], 0, "")

  /**
   * What one attempt of a client call meets: Redis is not reached, or runs the script and the reply is lost or
   * arrives.
   */
  datatype Exchange = NotReached | ReplyLost | Answered

  /** Outcome of a client call: a value, the sanitized transport error, or a refused argument. */
  datatype Reply<+T> = Ok(value: T) | StoreError | ValueError

  datatype TerminalReply = Written | AlreadyThere | Inconsistent | ScriptError

  function Bodies(stream: seq<Entry>): (r: seq<Event>)
    ensures |r| == |stream|
  {
    seq(|stream|, i requires 0 <= i < |stream| => stream[i].event)
  }

  /** XADD with an explicit id: refused unless the id is positive and above the last one. */
  function XAdd(stream: seq<Entry>, id: nat, e: Event): Option<seq<Entry>> {
    if id == 0 || (stream != [] && stream[|stream| - 1].id >= id) then None else Some(stream + [Entry(id, e)])
  }

  /** The append script; when XADD is refused the counter has already moved. */
  function AppendScript(s: Store, e: Event): (Store, Option<nat>) {
    var sequence := s.counter + 1;
    match XAdd(s.stream, sequence, e)
    case None => (s.(counter := sequence), None)
    case Some(stream) => (Store(stream, sequence, s.output + TokenText(e)), Some(sequence))
  }

  predicate Holds(stream: seq<Entry>, id: nat) {
    exists i :: 0 <= i < |stream| && stream[i].id == id
  }

  /** The terminal script: any entry already standing at the target id counts as written. */
  function TerminalScript(s: Store, target: nat, status: Status): (Store, TerminalReply) {
    if s.counter > target then (s, Inconsistent)
    else if s.counter == target then (s, if Holds(s.stream, target) then AlreadyThere else Inconsistent)
    else if s.counter != target - 1 && s.counter != 0 then (s, Inconsistent)
    else
      match XAdd(s.stream, target, DoneEvent(status))
      case None => (s, ScriptError)
      case Some(stream) => (s.(stream := stream, counter := target), Written)
  }

  /** The whole client call: attempts follow one another until one is answered. */
  function AppendCall(s: Store, e: Event, network: seq<Exchange>): (Store, Reply<nat>)
    decreases |network|
  {
    if network == [] then (s, StoreError)
    else
      match network[0]
      case NotReached => AppendCall(s, e, network[1..])
      case ReplyLost => AppendCall(AppendScript(s, e).0, e, network[1..])
      case Answered =>
        match AppendScript(s, e)
        case (s', Some(sequence)) => (s', Ok(sequence))
        case (s', None) => AppendCall(s', e, network[1..])
  }

  /** How often the script ran during a call, and whether the caller learnt of it. */
  function Executions(network: seq<Exchange>): nat {
    if network == [] then 0
    else
      match network[0]
      case NotReached => Executions(network[1..])
      case ReplyLost => 1 + Executions(network[1..])
      case Answered => 1
  }

  predicate Acknowledged(network: seq<Exchange>) {
    exists i :: 0 <= i < |network| && network[i] == Answered
  }

  /** A run's store is an interval of ids that ends at the counter, and its output is the text of its stream. */
  ghost predicate WellFormed(s: Store) {
    && |s.stream| <= s.counter
    && (s.stream == [] ==> s.counter == 0)
    && (forall i :: 0 <= i < |s.stream| ==> s.stream[i].id == s.counter - |s.stream| + 1 + i)
    && s.output == Tokens(Bodies(s.stream))
  }

  /** No id is missing at the front. */
  predicate FromOne(s: Store) {
    |s.stream| == s.counter
  }

  /** The events as entries numbered from one above `counter`. */
  function EntriesAbove(counter: nat, es: seq<Event>): (r: seq<Entry>)
    ensures |r| == |es|
  {
    seq(|es|, i requires 0 <= i < |es| => Entry(counter + 1 + i, es[i]))
  }

  /** The store after the events `es` were appended once each, in order. */
  function AppendAll(s: Store, es: seq<Event>): Store {
    Store(s.stream + EntriesAbove(s.counter, es), s.counter + |es|, s.output + Tokens(es))
  }

  lemma EntriesConcat(counter: nat, a: seq<Event>, b: seq<Event>)
    ensures EntriesAbove(counter, a + b) == EntriesAbove(counter, a) + EntriesAbove(counter + |a|, b)
  {
  }

  lemma AppendAllKeeps(s: Store, es: seq<Event>)
    requires WellFormed(s)
    ensures WellFormed(AppendAll(s, es))
    ensures FromOne(s) ==> FromOne(AppendAll(s, es))
    ensures Bodies(AppendAll(s, es).stream) == Bodies(s.stream) + es
  {
    TokensConcat(Bodies(s.stream), es);
    assert Bodies(AppendAll(s, es).stream) == Bodies(s.stream) + es;
  }

  lemma StreamSplit(stream: seq<Entry>, counter: nat, a: seq<Event>, b: seq<Event>)
    ensures stream + EntriesAbove(counter, a + b) ==
            (stream + EntriesAbove(counter, a)) + EntriesAbove(counter + |a|, b)
  {
    EntriesConcat(counter, a, b);
    Assoc(stream, EntriesAbove(counter, a), EntriesAbove(counter + |a|, b));
  }

  lemma AppendAllSplit(s: Store, a: seq<Event>, b: seq<Event>)
    ensures AppendAll(AppendAll(s, a), b) == AppendAll(s, a + b)
  {
    StreamSplit(s.stream, s.counter, a, b);
    TokensConcat(a, b);
    Assoc(s.output, Tokens(a), Tokens(b));
  }

  lemma AppendAllNothing(s: Store)
    ensures AppendAll(s, []) == s
  {
    Neutral(s.output);
    Neutral(s.stream);
  }

  /**
   * The append script on any keys: the number is taken first, and XADD refuses an id that is not above the last one;
   * then the number is gone, and neither entry nor text is written.
   */
  lemma AppendScriptAnswers(s: Store, e: Event)
    ensures var n := s.counter + 1;
            var refused := s.stream != [] && s.stream[|s.stream| - 1].id >= n;
            AppendScript(s, e) ==
            if refused then (Store(s.stream, n, s.output), None)
            else (Store(s.stream + [Entry(n, e)], n, s.output + TokenText(e)), Some(n))
  {
  }

  /**
   * The terminal script on any keys: written exactly when the target is the next number, or the first one of an
   * untouched run, and XADD accepts it; already there exactly when the counter stands at the target and an entry
   * does, too.
   */
  lemma TerminalScriptAnswers(s: Store, target: nat, status: Status)
    requires target >= 1
    ensures var (s', answer) := TerminalScript(s, target, status);
            var next := target == s.counter + 1 || s.counter == 0;
            var accepted := s.stream == [] || s.stream[|s.stream| - 1].id < target;
            && (answer == Written <==> next && accepted)
            && (answer == ScriptError <==> next && !accepted)
            && (answer == AlreadyThere <==>
                  s.counter == target && exists i :: 0 <= i < |s.stream| && s.stream[i].id == target)
            && s' == if answer == Written
                     then Store(s.stream + [Entry(target, DoneEvent(status))], target, s.output) else s
  {
  }

  /** On a well-formed store XADD is never refused: the script appends exactly one entry. */
  lemma AppendScriptFits(s: Store, e: Event)
    requires WellFormed(s)
    ensures AppendScript(s, e) == (AppendAll(s, [e]), Some(s.counter + 1))
  {
    TokensOne(e);
    assert AppendAll(s, [e]).stream == s.stream + [Entry(s.counter + 1, e)];
  }

  lemma AcknowledgedStep(network: seq<Exchange>)
    requires network != []
    ensures Acknowledged(network) <==> network[0] == Answered || Acknowledged(network[1..])
  {
    var rest := network[1..];
    if Acknowledged(network) && network[0] != Answered {
      var i :| 0 <= i < |network| && network[i] == Answered;
      assert rest[i - 1] == Answered;
    }
    if Acknowledged(rest) {
      var i :| 0 <= i < |rest| && rest[i] == Answered;
      assert network[i + 1] == Answered;
    }
  }

  /** What a call with these exchanges leaves behind and answers. */
  ghost predicate LeavesCopies(s: Store, e: Event, network: seq<Exchange>) {
    var (after, reply) := AppendCall(s, e, network);
    && after == AppendAll(s, Repeat(e, Executions(network)))
    && reply == (if Acknowledged(network) then Ok(s.counter + Executions(network)) else StoreError)
    && (Acknowledged(network) ==> Executions(network) >= 1)
  }

  lemma AnsweredLeavesOne(s: Store, e: Event, network: seq<Exchange>)
    requires WellFormed(s) && network != [] && network[0] == Answered
    ensures LeavesCopies(s, e, network)
  {
    AppendScriptFits(s, e);
    RepeatCons(e, 0);
  }

  lemma LostLeavesOneMore(s: Store, e: Event, network: seq<Exchange>)
    requires WellFormed(s) && network != [] && network[0] == ReplyLost
    requires LeavesCopies(AppendAll(s, [e]), e, network[1..])
    ensures LeavesCopies(s, e, network)
  {
    var k := Executions(network[1..]);
    AcknowledgedStep(network);
    AppendScriptFits(s, e);
    AppendAllSplit(s, [e], Repeat(e, k));
    RepeatCons(e, k);
  }

  lemma SilenceLeavesNothing(s: Store, e: Event)
    ensures LeavesCopies(s, e, [])
  {
    AppendAllNothing(s);
    RepeatCons(e, 0);
  }

  lemma NotReachedLeavesTheRest(s: Store, e: Event, network: seq<Exchange>)
    requires network != [] && network[0] == NotReached && LeavesCopies(s, e, network[1..])
    ensures LeavesCopies(s, e, network)
  {
    AcknowledgedStep(network);
  }

  lemma {:induction false} CallLeavesCopies(s: Store, e: Event, network: seq<Exchange>)
    requires WellFormed(s)
    ensures LeavesCopies(s, e, network)
    decreases |network|
  {
    if network == [] {
      SilenceLeavesNothing(s, e);
    } else {
      match network[0] {
        case NotReached =>
          CallLeavesCopies(s, e, network[1..]);
          NotReachedLeavesTheRest(s, e, network);
        case ReplyLost =>
          AppendAllKeeps(s, [e]);
          CallLeavesCopies(AppendAll(s, [e]), e, network[1..]);
          LostLeavesOneMore(s, e, network);
        case Answered =>
          AnsweredLeavesOne(s, e, network);
      }
    }
  }

  /**
   * One client call leaves as many copies of its event as the script ran, and nothing else; when it is
   * acknowledged it ran at least once and the number returned is the counter.
   */
  lemma {:induction false} AppendCallCopies(s: Store, e: Event, network: seq<Exchange>)
    requires WellFormed(s)
    ensures AppendCall(s, e, network).0 == AppendAll(s, Repeat(e, Executions(network)))
    ensures AppendCall(s, e, network).1 ==
            if Acknowledged(network) then Ok(s.counter + Executions(network)) else StoreError
    ensures Acknowledged(network) ==> Executions(network) >= 1
  {
    CallLeavesCopies(s, e, network);
  }

  predicate HasDone(s: Store) {
    exists i :: 0 <= i < |s.stream| && s.stream[i].event.kind == Done
  }

  lemma BodiesSnoc(stream: seq<Entry>, entry: Entry)
    ensures Bodies(stream + [entry]) == Bodies(stream) + [entry.event]
  {
  }

  lemma DoneAddsNoText(stream: seq<Entry>, target: nat, status: Status)
    ensures Tokens(Bodies(stream + [Entry(target, DoneEvent(status))])) == Tokens(Bodies(stream))
  {
    BodiesSnoc(stream, Entry(target, DoneEvent(status)));
    TokensSnoc(Bodies(stream), DoneEvent(status));
    Neutral(Tokens(Bodies(stream)));
  }

  /** A done entry one above the counter, or anywhere in an untouched store, keeps the store well-formed. */
  lemma DoneFits(s: Store, target: nat, status: Status)
    requires WellFormed(s) && target >= 1 && (s.counter == 0 || s.counter + 1 == target)
    ensures XAdd(s.stream, target, DoneEvent(status)) == Some(s.stream + [Entry(target, DoneEvent(status))])
    ensures WellFormed(Store(s.stream + [Entry(target, DoneEvent(status))], target, s.output))
  {
    DoneAddsNoText(s.stream, target, status);
  }

  lemma CounterIsHeld(s: Store)
    requires WellFormed(s) && s.counter >= 1
    ensures Holds(s.stream, s.counter)
  {
    assert s.stream[|s.stream| - 1].id == s.counter;
  }

  /**
   * The terminal script on a well-formed store: what it answers, and that it keeps the store well-formed.
   * It never meets a refused XADD.
   */
  lemma TerminalScriptKeeps(s: Store, target: nat, status: Status)
    requires WellFormed(s) && target >= 1
    ensures WellFormed(TerminalScript(s, target, status).0)
    ensures FromOne(s) && TerminalScript(s, target, status).1 == Written && target == s.counter + 1
            ==> FromOne(TerminalScript(s, target, status).0)
    ensures TerminalScript(s, target, status).1 ==
            if s.counter == target then AlreadyThere
            else if s.counter == 0 || s.counter + 1 == target then Written
            else Inconsistent
    ensures TerminalScript(s, target, status).1 == Written ==>
              TerminalScript(s, target, status).0.stream == s.stream + [Entry(target, DoneEvent(status))]
    ensures TerminalScript(s, target, status).1 != Written ==> TerminalScript(s, target, status).0 == s
  {
    if s.counter == target {
      CounterIsHeld(s);
    } else if s.counter == 0 || s.counter + 1 == target {
      DoneFits(s, target, status);
    }
  }

  /** Entries above the cursor, in stream order. */
  function After(stream: seq<Entry>, cursor: nat): seq<Entry> {
    if stream == [] then []
    else
      var last := stream[|stream| - 1];
      After(stream[..|stream| - 1], cursor) + if last.id > cursor then [last] else []
  }

  function Take<T>(s: seq<T>, n: nat): seq<T> {
    if n < |s| then s[..n] else s
  }

  /** What a batched XREAD or XRANGE returns. */
  function ReadAfter(s: Store, cursor: nat, limit: nat): seq<Entry> {
    Take(After(s.stream, cursor), limit)
  }

  /** How many entries of a well-formed store lie at or below the cursor. */
  ghost function Passed(s: Store, cursor: nat): (k: nat)
    requires WellFormed(s)
    ensures k <= |s.stream|
  {
    var before := s.counter - |s.stream|;
    if cursor <= before then 0 else if cursor >= s.counter then |s.stream| else cursor - before
  }

  lemma {:induction false} AfterPrefix(stream: seq<Entry>, cursor: nat, k: nat)
    requires k <= |stream|
    requires forall i :: 0 <= i < k ==> stream[i].id <= cursor
    requires forall i :: k <= i < |stream| ==> stream[i].id > cursor
    ensures After(stream, cursor) == stream[k..]
    decreases |stream|
  {
    if stream != [] {
      var n := |stream| - 1;
      var front, last := stream[..n], stream[n];
      assert After(stream, cursor) == After(front, cursor) + if last.id > cursor then [last] else [];
      if k > n {
        AfterPrefix(front, cursor, n);
      } else {
        AfterPrefix(front, cursor, k);
        assert stream[k..] == front[k..] + [last];
      }
    }
  }

  /** On a well-formed store a read returns a contiguous slice of the stream. */
  lemma AfterIsSuffix(s: Store, cursor: nat)
    requires WellFormed(s)
    ensures After(s.stream, cursor) == s.stream[Passed(s, cursor)..]
  {
    AfterPrefix(s.stream, cursor, Passed(s, cursor));
  }

  /** The two non-transactional reads of a live snapshot: the counter from one state, the output from a later one. */
  datatype Snapshot = Snapshot(sequence: nat, text: string)

  function SnapshotOf(first: Store, second: Store): Option<Snapshot> {
    if first.counter == 0 && second.output == "" then None else Some(Snapshot(first.counter, second.output))
  }

  /** The client object, with the three keys of its run as fields. */
  class ChatRunRedis {
    var stream: seq<Entry>
    var counter: nat
    var output: string

    constructor ()
      ensures State() == EMPTY
    {
      stream, counter, output := [], 0, "";
    }

    function State(): Store
      reads this
    {
      Store(stream, counter, output)
    }

    /** One execution of the append script: HINCRBY, XADD, APPEND. */
    method EvalAppend(e: Event) returns (reply: Option<nat>)
      modifies this
      ensures (State(), reply) == AppendScript(old(State()), e)
    {
      counter := counter + 1;
      var added := XAdd(stream, counter, e);
      if added.None? {
        return None;
      }
      stream := added.value;
      if TokenText(e) != "" {
        output := output + TokenText(e);
      } else {
        assert output + TokenText(e) == output;
      }
      reply := Some(counter);
    }

    /** `append` with its retry loop; `network` says what each of the retries + 1 attempts meets. */
    method Append(e: Event, network: seq<Exchange>) returns (reply: Reply<nat>)
      modifies this
      ensures e.kind == Done ==> reply == ValueError && State() == old(State())
      ensures e.kind != Done ==> (State(), reply) == AppendCall(old(State()), e, network)
    {
      if e.kind == Done {
        return ValueError;
      }
      var attempt := 0;
      while attempt < |network|
        invariant 0 <= attempt <= |network|
        invariant AppendCall(State(), e, network[attempt..]) == AppendCall(old(State()), e, network)
      {
        var rest := network[attempt..];
        assert rest[1..] == network[attempt + 1..];
        if network[attempt] != NotReached {
          var answer := EvalAppend(e);
          if network[attempt] == Answered && answer.Some? {
            return Ok(answer.value);
          }
        }
        attempt := attempt + 1;
      }
      return StoreError;
    }

    /** `append_done`: one attempt, a negative answer is an error, a repeat answers false. */
    method AppendDone(sequence: int, status: Status, exchange: Exchange) returns (reply: Reply<bool>)
      modifies this
      ensures sequence < 1 ==> reply == ValueError && State() == old(State())
      ensures sequence >= 1 ==>
        var (after, answer) := TerminalScript(old(State()), sequence, status);
        && State() == (if exchange == NotReached then old(State()) else after)
        && reply ==
           (if exchange == Answered && answer in {Written, AlreadyThere} then Ok(answer == Written) else StoreError)
    {
      if sequence < 1 {
        return ValueError;
      }
      if exchange == NotReached {
        return StoreError;
      }
      var (after, answer) := TerminalScript(State(), sequence, status);
      stream, counter := after.stream, after.counter;
      if exchange != Answered || answer in {Inconsistent, ScriptError} {
        return StoreError;
      }
      reply := Ok(answer == Written);
    }

    /** `read_after`: fills a list with up to `limit` entries above the cursor. */
    method ReadBatch(cursor: nat, limit: nat) returns (events: seq<Entry>)
      ensures events == ReadAfter(State(), cursor, limit)
    {
      events := [];
      var i := 0;
      while i < |stream| && |events| < limit
        invariant 0 <= i <= |stream|
        invariant events == Take(After(stream[..i], cursor), limit)
        invariant |events| < limit ==> events == After(stream[..i], cursor)
      {
        assert stream[..i + 1][..i] == stream[..i];
        if stream[i].id > cursor {
          events := events + [stream[i]];
        }
        i := i + 1;
      }
      if |events| == limit {
        AfterMonotone(stream, i, cursor);
      } else {
        assert stream[..i] == stream;
      }
    }

    /** `get_snapshot`: between its two reads other clients may bring the keys to the state `meanwhile`. */
    method GetSnapshot(exchange: Exchange, meanwhile: Store) returns (reply: Reply<Option<Snapshot>>)
      modifies this
      ensures State() == if exchange == Answered then meanwhile else old(State())
      ensures reply == if exchange == Answered then Ok(SnapshotOf(old(State()), meanwhile)) else StoreError
    {
      if exchange != Answered {
        return StoreError;
      }
      var sequence := counter;
      stream, counter, output := meanwhile.stream, meanwhile.counter, meanwhile.output;
      var text := output;
      reply := Ok(if sequence == 0 && text == "" then None else Some(Snapshot(sequence, text)));
    }
  }

  lemma {:induction false} AfterMonotone(stream: seq<Entry>, i: nat, cursor: nat)
    requires i <= |stream|
    ensures After(stream[..i], cursor) <= After(stream, cursor)
    decreases |stream|
  {
    if i == |stream| {
      assert stream[..i] == stream;
    } else {
      var front := stream[..|stream| - 1];
      AfterMonotone(front, i, cursor);
      assert front[..i] == stream[..i];
    }
  }
}
