/** Vocabulary of a chat run: statuses, events, and the text a list of events carries. */
module Events {

  datatype Option<+T> = None | Some(value: T)

  /** Statuses of a run row; the last four are terminal. */
  datatype Status = Queued | Running | WaitingApproval | Succeeded | Failed | Cancelled

  predicate Finished(status: Status) {
    status in {WaitingApproval, Succeeded, Failed, Cancelled}
  }

  datatype Kind = Metadata | Progress | Token | Artifact | ArtifactTrace | Approval | Suggestions | Error | Done

  /**
   * The JSON object of an event. `Text` is an object whose "text" member is a string, `Terminal` the
   * object written with a done event, and `Opaque` any other object.
   */
  datatype Payload = Text(text: string) | Terminal(status: Status) | Opaque(body: string)

  datatype Event = Event(kind: Kind, payload: Payload)

  function DoneEvent(status: Status): Event {
    Event(Done, Terminal(status))
  }

  /** The text the append script adds to the output string for this event. */
  function TokenText(e: Event): string {
    if e.kind == Token && e.payload.Text? then e.payload.text else ""
  }

  /** Concatenation of the token texts of a list of events. */
  function Tokens(es: seq<Event>): string {
    if es == [] then "" else Tokens(es[..|es| - 1]) + TokenText(es[|es| - 1])
  }

  function Repeat<T>(x: T, k: nat): (r: seq<T>)
    ensures |r| == k
  {
    seq(k, _ => x)
  }

  lemma RepeatCons<T>(x: T, k: nat)
    ensures Repeat(x, k + 1) == [x] + Repeat(x, k)
    ensures k == 0 ==> Repeat(x, k) == [] && Repeat(x, k + 1) == [x]
  {
  }

  lemma Assoc<T>(a: seq<T>, b: seq<T>, c: seq<T>)
    ensures (a + b) + c == a + (b + c)
  {
  }

  lemma TokensSnoc(es: seq<Event>, e: Event)
    ensures Tokens(es + [e]) == Tokens(es) + TokenText(e)
  {
    assert (es + [e])[..|es|] == es;
  }

  lemma Neutral<T>(s: seq<T>)
    ensures s + [] == s && [] + s == s
  {
  }

  lemma Unsnoc<T>(s: seq<T>)
    requires s != []
    ensures s == s[..|s| - 1] + [s[|s| - 1]]
  {
  }

  lemma {:induction false} TokensConcat(a: seq<Event>, b: seq<Event>)
    ensures Tokens(a + b) == Tokens(a) + Tokens(b)
    decreases |b|
  {
    if b == [] {
      Neutral(a);
      Neutral(Tokens(a));
    } else {
      var front, last := b[..|b| - 1], b[|b| - 1];
      TokensConcat(a, front);
      TokensSnoc(a + front, last);
      TokensSnoc(front, last);
      Unsnoc(b);
      Assoc(a, front, [last]);
      Assoc(Tokens(a), Tokens(front), TokenText(last));
    }
  }

  lemma TokensOne(e: Event)
    ensures Tokens([e]) == TokenText(e)
  {
    assert [e][..0] == [];
    assert Tokens([]) + TokenText(e) == TokenText(e);
  }

  /** k copies of an event carry no text, its text, or strictly more than its text. */
  lemma {:induction false} TokensRepeat(e: Event, k: nat)
    ensures k == 0 ==> Tokens(Repeat(e, k)) == ""
    ensures k == 1 ==> Tokens(Repeat(e, k)) == TokenText(e)
    ensures TokenText(e) == "" ==> Tokens(Repeat(e, k)) == ""
    ensures TokenText(e) != "" && k > 1 ==> |Tokens(Repeat(e, k))| > |TokenText(e)|
  {
    if k > 0 {
      TokensRepeat(e, k - 1);
      assert Repeat(e, k)[..k - 1] == Repeat(e, k - 1);
      assert "" + TokenText(e) == TokenText(e);
    }
  }

  /** A run is over in four of the six statuses. */
  lemma FinishedExactly(status: Status)
    ensures Finished(status) <==> status != Queued && status != Running
  {
  }
}
