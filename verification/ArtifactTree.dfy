/** Generated artifacts: their revision tree, and which of them is the current one of its kind. */
module ArtifactTree {
  import opened Events

  datatype ArtifactStatus = Generating | Ready | Broken

  /** The scope in which one artifact is current. */
  datatype Group = Group(thread: string, user: nat, kind: string)

  datatype Row = Row(id: nat, group: Group, parent: Option<nat>, root: Option<nat>, revision: nat,
                     current: bool, status: ArtifactStatus, updated: int)

  datatype Table = Table(rows: map<nat, Row>, next: nat)

  const NO_ROWS := Table(map[], 1)

  function RootOf(r: Row): nat {
    if r.root.Some? then r.root.value else r.id
  }

  /** Insertion in a first commit, the missing root id in a second one that a crash may prevent. */
  function Insert(t: Table, group: Group, parent: Option<nat>, root: Option<nat>, revision: nat, now: int,
                  finished: bool): Table
  {
    var root' := if root.None? && finished then Some(t.next) else root;
    Table(t.rows[t.next := Row(t.next, group, parent, root', revision, parent.None?, Generating, now)], t.next + 1)
  }

  function Revise(t: Table, source: nat, now: int): Table
    requires source in t.rows
  {
    var s := t.rows[source];
    Insert(t, s.group, Some(s.id), Some(RootOf(s)), s.revision + 1, now, true)
  }

  predicate Displaced(r: Row, winner: Row) {
    r.group == winner.group && r.current && r.id != winner.id
  }

  function MarkReady(t: Table, id: nat, now: int): Table
    requires id in t.rows
  {
    t.(rows := map k | k in t.rows ::
         if k == id then t.rows[k].(status := Ready, current := true, updated := now)
         else if Displaced(t.rows[k], t.rows[id]) then t.rows[k].(current := false, updated := now)
         else t.rows[k])
  }

  function MarkFailed(t: Table, id: nat, now: int): Table
    requires id in t.rows
  {
    t.(rows := t.rows[id := t.rows[id].(status := Broken, updated := now)])
  }

  datatype Action =
    | DoCreate(group: Group, now: int, finished: bool)
    | DoRevise(source: nat, now: int)
    | DoReady(id: nat, now: int)
    | DoFail(id: nat, now: int)

  function Step(t: Table, a: Action): Table {
    match a
    case DoCreate(group, now, finished) => Insert(t, group, None, None, 1, now, finished)
    case DoRevise(source, now) => if source in t.rows then Revise(t, source, now) else t
    case DoReady(id, now) => if id in t.rows then MarkReady(t, id, now) else t
    case DoFail(id, now) => if id in t.rows then MarkFailed(t, id, now) else t
  }

  function Exec(actions: seq<Action>): Table {
    if actions == [] then NO_ROWS else Step(Exec(actions[..|actions| - 1]), actions[|actions| - 1])
  }

  // ----- the tree -----

  predicate RowOk(t: Table, r: Row) {
    && r.id < t.next
    && (if r.parent.None? then r.revision == 1 && RootOf(r) == r.id
        else
          var p := r.parent.value;
          p in t.rows && p < r.id && t.rows[p].group == r.group
          && r.revision == t.rows[p].revision + 1 && r.root == Some(RootOf(t.rows[p])))
  }

  ghost predicate TreeOk(t: Table) {
    forall id {:trigger RowOk(t, t.rows[id])} :: id in t.rows ==> t.rows[id].id == id && RowOk(t, t.rows[id])
  }

  /** At most one artifact of a group is both ready and current. */
  ghost predicate OneCurrent(t: Table) {
    forall i, j :: i in t.rows && j in t.rows && t.rows[i].group == t.rows[j].group
                   && t.rows[i].status == Ready && t.rows[i].current && t.rows[j].status == Ready && t.rows[j].current
                   ==> i == j
  }

  /** The fields that place a row in the tree. */
  predicate SamePlace(r: Row, r': Row) {
    r.id == r'.id && r.group == r'.group && r.parent == r'.parent && r.root == r'.root && r.revision == r'.revision
  }

  /** Tables that agree on the place of every row agree on the tree. */
  lemma SamePlacesKeepTree(t: Table, t': Table)
    requires TreeOk(t) && t'.next == t.next && t'.rows.Keys == t.rows.Keys
    requires forall id :: id in t.rows ==> SamePlace(t.rows[id], t'.rows[id])
    ensures TreeOk(t')
  {
    forall id | id in t'.rows ensures t'.rows[id].id == id && RowOk(t', t'.rows[id]) {
      assert RowOk(t, t.rows[id]);
    }
  }

  lemma NewRowKeepsTree(t: Table, r: Row)
    requires TreeOk(t) && r.id == t.next && RowOk(Table(t.rows[r.id := r], t.next + 1), r)
    ensures TreeOk(Table(t.rows[r.id := r], t.next + 1))
  {
    var t' := Table(t.rows[r.id := r], t.next + 1);
    forall id | id in t'.rows ensures t'.rows[id].id == id && RowOk(t', t'.rows[id]) {
      if id != r.id {
        assert RowOk(t, t.rows[id]);
      }
    }
  }

  lemma ReviseKeepsTree(t: Table, source: nat, now: int)
    requires TreeOk(t) && source in t.rows
    ensures TreeOk(Revise(t, source, now))
  {
    assert RowOk(t, t.rows[source]);
    NewRowKeepsTree(t, Revise(t, source, now).rows[t.next]);
  }

  lemma StepKeepsTree(t: Table, a: Action)
    requires TreeOk(t)
    ensures TreeOk(Step(t, a))
  {
    match a {
      case DoCreate(group, now, finished) => NewRowKeepsTree(t, Step(t, a).rows[t.next]);
      case DoRevise(source, now) =>
        if source in t.rows {
          ReviseKeepsTree(t, source, now);
        }
      case _ => SamePlacesKeepTree(t, Step(t, a));
    }
  }

  lemma StepKeepsOneCurrent(t: Table, a: Action)
    requires TreeOk(t) && OneCurrent(t)
    ensures OneCurrent(Step(t, a))
  {
    forall id | id in t.rows ensures t.rows[id].id == id && id < t.next {
      assert RowOk(t, t.rows[id]);
    }
  }

  lemma {:induction false} ExecKeeps(actions: seq<Action>)
    ensures TreeOk(Exec(actions)) && OneCurrent(Exec(actions))
    decreases |actions|
  {
    if actions != [] {
      var front := actions[..|actions| - 1];
      ExecKeeps(front);
      StepKeepsTree(Exec(front), actions[|actions| - 1]);
      StepKeepsOneCurrent(Exec(front), actions[|actions| - 1]);
    }
  }

  /** Following `parent` n times; None when the chain is shorter. */
  function Walk(t: Table, id: nat, n: nat): Option<nat>
    decreases n
  {
    if n == 0 then Some(id)
    else if id in t.rows && t.rows[id].parent.Some? then Walk(t, t.rows[id].parent.value, n - 1)
    else None
  }

  lemma {:induction false} WalkToRoot(t: Table, id: nat)
    requires TreeOk(t) && id in t.rows
    ensures t.rows[id].revision >= 1
    ensures Walk(t, id, t.rows[id].revision - 1) == Some(RootOf(t.rows[id]))
    ensures RootOf(t.rows[id]) in t.rows && t.rows[RootOf(t.rows[id])].parent == None
    ensures t.rows[RootOf(t.rows[id])].group == t.rows[id].group
    decreases id
  {
    assert RowOk(t, t.rows[id]);
    if t.rows[id].parent.Some? {
      WalkToRoot(t, t.rows[id].parent.value);
    }
  }

  /**
   * After any sequence of creations (finished or cut short), revisions, completions and failures, walking
   * up from an artifact revision - 1 times ends at its root, a parentless artifact of the same group.
   */
  lemma {:induction false} RevisionTree(actions: seq<Action>, id: nat)
    requires id in Exec(actions).rows
    ensures var t := Exec(actions);
            var root := RootOf(t.rows[id]);
            && t.rows[id].revision >= 1
            && Walk(t, id, t.rows[id].revision - 1) == Some(root)
            && root in t.rows && t.rows[root].parent == None && t.rows[root].group == t.rows[id].group
  {
    ExecKeeps(actions);
    WalkToRoot(Exec(actions), id);
  }

  // ----- the latest of each kind -----

  predicate Newer(a: Row, b: Row) {
    a.updated > b.updated || (a.updated == b.updated && a.id > b.id)
  }

  predicate Listed(r: Row, thread: string, user: Option<nat>) {
    r.group.thread == thread && (user.Some? ==> r.group.user == user.value) && r.current && r.status == Ready
  }

  /** The scan of `list_latest_ready_current_artifacts_by_thread`: one dictionary entry a kind. */
  method LatestByKind(listed: seq<Row>) returns (latest: map<string, Row>)
    ensures forall kind :: kind in latest <==> exists i :: 0 <= i < |listed| && listed[i].group.kind == kind
    ensures forall kind :: kind in latest ==> latest[kind] in listed && latest[kind].group.kind == kind
    ensures forall i :: 0 <= i < |listed| ==> !Newer(listed[i], latest[listed[i].group.kind])
    ensures forall i :: 0 <= i < |listed| ==>
              var l := latest[listed[i].group.kind];
              listed[i].updated < l.updated || (listed[i].updated == l.updated && listed[i].id <= l.id)
  {
    latest := map[];
    var i := 0;
    while i < |listed|
      invariant 0 <= i <= |listed|
      invariant forall kind :: kind in latest ==>
                  exists j :: 0 <= j < i && latest[kind] == listed[j] && listed[j].group.kind == kind
      invariant forall j :: 0 <= j < i ==>
                  listed[j].group.kind in latest && !Newer(listed[j], latest[listed[j].group.kind])
    {
      var r := listed[i];
      if r.group.kind !in latest || Newer(r, latest[r.group.kind]) {
        latest := latest[r.group.kind := r];
      }
      i := i + 1;
    }
  }

  /** For one user the scan has nothing to choose: its values are all the ready current artifacts of the thread. */
  lemma {:induction false} LatestIsAll(actions: seq<Action>, listed: seq<Row>, thread: string, user: nat,
                                       latest: map<string, Row>)
    requires var t := Exec(actions);
             forall r: Row :: r in listed <==> r.id in t.rows && t.rows[r.id] == r && Listed(r, thread, Some(user))
    requires forall kind :: kind in latest <==> exists i :: 0 <= i < |listed| && listed[i].group.kind == kind
    requires forall kind :: kind in latest ==> latest[kind] in listed && latest[kind].group.kind == kind
    ensures forall r: Row :: r in listed <==> r.group.kind in latest && latest[r.group.kind] == r
  {
    ExecKeeps(actions);
    forall r: Row | r in listed ensures r.group.kind in latest && latest[r.group.kind] == r {
      var other := latest[r.group.kind];
      assert other in listed;
      assert other.group == r.group;
    }
  }

  // ----- which artifact is the current one -----

  /** Completion: the artifact is ready and the only current one of its group; the other groups stay as they are. */
  lemma ReadyBecomesCurrent(t: Table, id: nat, now: int)
    requires TreeOk(t) && id in t.rows
    ensures var t' := Step(t, DoReady(id, now));
            && t'.next == t.next && t'.rows.Keys == t.rows.Keys
            && SamePlace(t.rows[id], t'.rows[id])
            && t'.rows[id].status == Ready && t'.rows[id].updated == now
            && (forall k :: k in t.rows && t.rows[k].group == t.rows[id].group ==> (t'.rows[k].current <==> k == id))
            && (forall k :: k in t.rows && k != id ==>
                  && SamePlace(t.rows[k], t'.rows[k]) && t'.rows[k].status == t.rows[k].status
                  && (t'.rows[k].current == t.rows[k].current ==> t'.rows[k] == t.rows[k])
                  && (t'.rows[k].current != t.rows[k].current ==> t'.rows[k].updated == now))
            && (forall k :: k in t.rows && t.rows[k].group != t.rows[id].group ==> t'.rows[k] == t.rows[k])
  {
    forall k | k in t.rows ensures t.rows[k].id == k {
      assert RowOk(t, t.rows[k]);
    }
  }

  /** Failure changes status and time of the one artifact. */
  lemma FailedIsBroken(t: Table, id: nat, now: int)
    requires id in t.rows
    ensures var t' := Step(t, DoFail(id, now));
            && t'.next == t.next && t'.rows.Keys == t.rows.Keys
            && SamePlace(t.rows[id], t'.rows[id]) && t'.rows[id].current == t.rows[id].current
            && t'.rows[id].status == Broken && t'.rows[id].updated == now
            && (forall k :: k in t.rows && k != id ==> t'.rows[k] == t.rows[k])
  {
  }

  /**
   * A creation or a revision adds one artifact under the next id; it is being generated, and stands as current only
   * when it revises nothing.
   */
  lemma CreationAddsOne(t: Table, a: Action)
    requires a.DoCreate? || (a.DoRevise? && a.source in t.rows)
    ensures var t' := Step(t, a);
            && t'.next == t.next + 1 && t'.rows.Keys == t.rows.Keys + {t.next}
            && (forall k :: k in t.rows && k != t.next ==> t'.rows[k] == t.rows[k])
            && t'.rows[t.next].status == Generating && t'.rows[t.next].updated == a.now
            && (t'.rows[t.next].current <==> a.DoCreate?)
            && t'.rows[t.next].group == (if a.DoCreate? then a.group else t.rows[a.source].group)
            && t'.rows[t.next].parent == (if a.DoCreate? then None else Some(t.rows[a.source].id))
            && (t'.rows[t.next].root == None <==> a.DoCreate? && !a.finished)
  {
  }

  /** Another artifact of the same group is completed. */
  predicate Replaces(t: Table, a: Action, id: nat)
    requires id in t.rows
  {
    a.DoReady? && a.id != id && a.id in t.rows && t.rows[a.id].group == t.rows[id].group
  }

  /** The artifact was completed, and since then neither failed nor was replaced by another one of its group. */
  predicate Standing(actions: seq<Action>, id: nat) {
    actions != [] &&
    var front, a := actions[..|actions| - 1], actions[|actions| - 1];
    var t := Exec(front);
    id in t.rows &&
    if a.DoReady? && a.id == id then true
    else !(a.DoFail? && a.id == id) && !Replaces(t, a, id) && Standing(front, id)
  }

  lemma StepKeepsPlace(t: Table, a: Action, id: nat)
    requires TreeOk(t) && id in t.rows
    ensures id in Step(t, a).rows && SamePlace(t.rows[id], Step(t, a).rows[id])
  {
    assert RowOk(t, t.rows[id]);
  }

  lemma StepStands(t: Table, a: Action, id: nat)
    requires TreeOk(t) && id in t.rows
    ensures var r, r' := t.rows[id], Step(t, a).rows[id];
            r'.current && r'.status == Ready <==>
              (a.DoReady? && a.id == id)
              || (!(a.DoFail? && a.id == id) && !Replaces(t, a, id) && r.current && r.status == Ready)
  {
    assert RowOk(t, t.rows[id]);
    if a.DoReady? && a.id in t.rows {
      assert RowOk(t, t.rows[a.id]);
    }
  }

  /**
   * Over every history, an artifact is listed for its thread and user, and for no other, exactly while it stands:
   * from its completion until it fails or another artifact of its group is completed.
   */
  lemma {:induction false} ListedWhileStanding(actions: seq<Action>, id: nat, thread: string, user: Option<nat>)
    requires id in Exec(actions).rows
    ensures var r := Exec(actions).rows[id];
            Listed(r, thread, user) <==>
              r.group.thread == thread && (user == None || user == Some(r.group.user)) && Standing(actions, id)
    decreases |actions|
  {
    var front, a := actions[..|actions| - 1], actions[|actions| - 1];
    var t := Exec(front);
    ExecKeeps(front);
    if id in t.rows {
      ListedWhileStanding(front, id, t.rows[id].group.thread, Some(t.rows[id].group.user));
      StepKeepsPlace(t, a, id);
      StepStands(t, a, id);
    } else {
      CreationAddsOne(t, a);
    }
  }

  /** The scan of a thread holds a standing artifact under its kind. */
  lemma {:induction false} StandingIsLatest(actions: seq<Action>, id: nat, listed: seq<Row>, latest: map<string, Row>)
    requires id in Exec(actions).rows && Standing(actions, id)
    requires var t := Exec(actions);
             var g := t.rows[id].group;
             forall r: Row :: r in listed <==> r.id in t.rows && t.rows[r.id] == r && Listed(r, g.thread, Some(g.user))
    requires forall kind :: kind in latest <==> exists i :: 0 <= i < |listed| && listed[i].group.kind == kind
    requires forall kind :: kind in latest ==> latest[kind] in listed && latest[kind].group.kind == kind
    ensures var r := Exec(actions).rows[id];
            r.group.kind in latest && latest[r.group.kind] == r
  {
    var t := Exec(actions);
    var g := t.rows[id].group;
    ExecKeeps(actions);
    assert RowOk(t, t.rows[id]);
    ListedWhileStanding(actions, id, g.thread, Some(g.user));
    LatestIsAll(actions, listed, g.thread, g.user, latest);
  }

  // ----- the table as an object -----

  class ArtifactTable {
    var rows: map<nat, Row>
    var next: nat

    constructor ()
      ensures View() == NO_ROWS
    {
      rows, next := map[], 1;
    }

    function View(): Table
      reads this
    {
      Table(rows, next)
    }

    method CreateRunning(group: Group, parent: Option<nat>, root: Option<nat>, revision: nat, now: int, finished: bool)
      returns (id: nat)
      modifies this
      ensures View() == Insert(old(View()), group, parent, root, revision, now, finished) && id == old(next)
    {
      id := next;
      rows := rows[id := Row(id, group, parent, root, revision, parent.None?, Generating, now)];
      next := next + 1;
      if root.None? && finished {
        rows := rows[id := rows[id].(root := Some(id))];
      }
    }

    method CreateRevision(source: nat, now: int) returns (id: nat)
      requires source in rows
      modifies this
      ensures View() == Revise(old(View()), source, now) && id == old(next)
    {
      var s := rows[source];
      id := CreateRunning(s.group, Some(s.id), Some(RootOf(s)), s.revision + 1, now, true);
    }

    method MarkArtifactReady(id: nat, now: int)
      requires id in rows
      modifies this
      ensures View() == MarkReady(old(View()), id, now)
    {
      ghost var before := View();
      var artifact := rows[id];
      var todo := set k | k in rows && k != id && Displaced(rows[k], artifact);
      while todo != {}
        invariant rows.Keys == before.rows.Keys && next == before.next
        invariant todo <= rows.Keys
        invariant forall k :: k in rows ==>
                    rows[k] == if k != id && Displaced(before.rows[k], artifact) && k !in todo
                               then before.rows[k].(current := false, updated := now) else before.rows[k]
      {
        var k :| k in todo;
        rows := rows[k := rows[k].(current := false, updated := now)];
        todo := todo - {k};
      }
      rows := rows[id := rows[id].(status := Ready, current := true, updated := now)];
    }

    method MarkArtifactFailed(id: nat, now: int)
      requires id in rows
      modifies this
      ensures View() == MarkFailed(old(View()), id, now)
    {
      rows := rows[id := rows[id].(status := Broken, updated := now)];
    }
  }
}
