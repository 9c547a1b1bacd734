/**
 * The conversation graph: intake, the two reviews a teacher approves, generation and revision branches that
 * run side by side, and the fan-in that reports them. Models and users may answer anything.
 */
module ApprovalGraph {
  import opened Events

  datatype TeachingMetadata = TeachingMetadata(subject: string, grade: string, topic: string)

  datatype BranchStatus = Waiting | Ready | Broken

  /** `round` remembers in which round the result was written. */
  datatype BranchResult = BranchResult(status: BranchStatus, round: nat)

  datatype Node =
    | Entry | Intake | AskUser | MetadataReview | Prepare | Planner | PlanReview
    | Router | Clarify | RevisionPrepare
    | Branches(running: set<string>)
    | FanIn | End

  /**
   * The checkpointed state, and below it the history that the properties speak of: what was approved, which
   * plan was put to review, the types chosen for this round, and the results before it.
   */
  datatype State = State(
    node: Node,
    metadata: Option<TeachingMetadata>, plan: string,
    targets: seq<string>, sources: seq<string>, hints: seq<string>, catalog: seq<string>,
    results: map<string, BranchResult>, report: seq<BranchResult>,
    approved: Option<TeachingMetadata>, reviewed: Option<string>,
    round: nat, chosen: seq<string>, before: map<string, BranchResult>)

  const TYPES := ["ppt", "docx", "html-game"]

  const NO_RESULTS :=
    map["ppt" := BranchResult(Waiting, 0), "docx" := BranchResult(Waiting, 0), "html-game" := BranchResult(Waiting, 0)]

  const START := State(Entry, None, "", [], [], [], [], NO_RESULTS, [], None, None, 0, [], map[])

  datatype Action =
    | NewMessage(catalog: seq<string>)
    | Chat | StartDesign | StartRevision(hints: seq<string>)
    | AskMore | Answer | Submit(raw: TeachingMetadata) | CancelIntake | RestartIntake
    | ApproveMetadata | ChangeMetadata
    | ContextReady | PlanWritten(text: string)
    | ApprovePlan(selection: Option<seq<string>>) | ChangePlan
    | Route(inferred: seq<string>, unclear: bool) | ClarifyAll | ClarifyAnswer
    | RevisionReady
    | BranchDone(kind: string, ok: bool)
    | Report

  /** Known types, in order, for a list of artifacts or hints. */
  function Known(kinds: seq<string>): seq<string> {
    if kinds == [] then []
    else Known(kinds[..|kinds| - 1]) + if kinds[|kinds| - 1] in TYPES then [kinds[|kinds| - 1]] else []
  }

  /** `_normalize_generation_targets`: known types, each at its first place; no selection means all. */
  function Distinct(kinds: seq<string>): seq<string> {
    if kinds == [] then []
    else
      var front, last := Distinct(kinds[..|kinds| - 1]), kinds[|kinds| - 1];
      if last in TYPES && last !in front then front + [last] else front
  }

  function Selected(selection: Option<seq<string>>): seq<string> {
    if selection.None? then TYPES else Distinct(selection.value)
  }

  function ResetOne(results: map<string, BranchResult>, kind: string, kinds: seq<string>,
                    round: nat): map<string, BranchResult>
  {
    if kind in kinds then results[kind := BranchResult(Waiting, round)] else results
  }

  /** The results of the chosen types wait again. */
  function Reset(results: map<string, BranchResult>, kinds: seq<string>, round: nat): map<string, BranchResult> {
    ResetOne(ResetOne(ResetOne(results, "ppt", kinds, round), "docx", kinds, round), "html-game", kinds, round)
  }

  predicate Among(kind: string, kinds: seq<string>) {
    kind in kinds
  }

  function Filter(catalog: seq<string>, kinds: seq<string>): seq<string> {
    if catalog == [] then []
    else
      Filter(catalog[..|catalog| - 1], kinds)
      + if Among(catalog[|catalog| - 1], kinds) then [catalog[|catalog| - 1]] else []
  }

  function AsSet(kinds: seq<string>): set<string> {
    set k | k in kinds
  }

  /** Approval of a plan: the chosen branches start with their results reset. */
  function Generate(s: State, kinds: seq<string>): State {
    s.(node := Branches(AsSet(kinds)), targets := kinds, sources := [],
       results := Reset(s.results, kinds, s.round + 1), report := [],
       round := s.round + 1, chosen := kinds, before := s.results)
  }

  /** A revision of the given artifacts, each named by its type. */
  function ReviseAll(s: State, sources: seq<string>): State {
    s.(node := RevisionPrepare, sources := sources, hints := [],
       results := Reset(s.results, Known(sources), s.round + 1), report := [],
       round := s.round + 1, chosen := Known(sources), before := s.results)
  }

  /** The types fan-in looks at: the revised ones if any, else the generated ones. */
  function ReportTypes(s: State): seq<string> {
    if s.sources != [] then Known(s.sources) else Distinct(s.targets)
  }

  function Collect(results: map<string, BranchResult>, kinds: seq<string>): seq<BranchResult> {
    if kinds == [] then []
    else
      var last := kinds[|kinds| - 1];
      Collect(results, kinds[..|kinds| - 1])
      + if last in results && results[last].status != Waiting then [results[last]] else []
  }

  /** The catalog of a turn is read from the latest artifact of each type, so no type comes twice. */
  predicate Unrepeated(kinds: seq<string>) {
    forall i, j :: 0 <= i < j < |kinds| ==> kinds[i] != kinds[j]
  }

  predicate Enabled(s: State, a: Action) {
    match a
    case NewMessage(catalog) => Unrepeated(catalog)
    case Chat => s.node == Entry
    case StartDesign => s.node == Entry
    case StartRevision(_) => s.node == Entry
    case AskMore => s.node == Intake
    case Answer => s.node == AskUser
    case Submit(_) => s.node == Intake
    case CancelIntake => s.node == Intake
    case RestartIntake => s.node == Intake
    case ApproveMetadata => s.node == MetadataReview
    case ChangeMetadata => s.node == MetadataReview
    case ContextReady => s.node == Prepare
    case PlanWritten(_) => s.node == Planner
    case ApprovePlan(_) => s.node == PlanReview
    case ChangePlan => s.node == PlanReview
    case Route(_, _) => s.node == Router
    case ClarifyAll => s.node == Clarify
    case ClarifyAnswer => s.node == Clarify
    case RevisionReady => s.node == RevisionPrepare
    case BranchDone(kind, _) => s.node.Branches? && kind in s.node.running
    case Report => s.node == FanIn
  }

  /** `strip` removes the white space around a string. */
  function Next(s: State, a: Action, strip: string -> string): State
    requires Enabled(s, a)
  {
    match a
    case NewMessage(catalog) => s.(node := Entry, catalog := catalog)
    case Chat => s.(node := End)
    case StartDesign => s.(node := Intake, metadata := None)
    case StartRevision(hints) => s.(node := Router, hints := hints)
    case AskMore => s.(node := AskUser)
    case Answer => s.(node := Intake)
    case Submit(raw) =>
      var m := TeachingMetadata(strip(raw.subject), strip(raw.grade), strip(raw.topic));
      // A blank required field fails validation; the fallback asks for it.
      if m.subject == "" || m.grade == "" || m.topic == "" then s.(node := AskUser)
      else s.(node := MetadataReview, metadata := Some(m))
    case CancelIntake => s.(node := End)
    case RestartIntake => s.(metadata := None)
    case ApproveMetadata => s.(node := Prepare, approved := s.metadata)
    case ChangeMetadata => s.(node := Intake)
    case ContextReady => s.(node := Planner)
    case PlanWritten(text) => s.(node := PlanReview, plan := strip(text), reviewed := Some(strip(text)))
    case ApprovePlan(selection) =>
      var kinds := Selected(selection);
      if kinds == [] then s.(node := End)
      else Generate(s, kinds)
    case ChangePlan => s.(node := Prepare)
    case Route(inferred, unclear) =>
      var hinted := Known(s.hints);
      if s.catalog == [] then s.(node := End)
      else if hinted == [] && unclear then s.(node := Clarify)
      else
        var sources := Filter(s.catalog, if hinted != [] then hinted else inferred);
        if sources == [] then s.(node := End) else ReviseAll(s, sources)
    case ClarifyAll => ReviseAll(s, s.catalog).(hints := s.hints)
    case ClarifyAnswer => s.(node := Router)
    case RevisionReady =>
      var kinds := AsSet(Known(s.sources));
      s.(node := if kinds == {} then End else Branches(kinds))
    case BranchDone(kind, ok) =>
      var running := s.node.running - {kind};
      s.(results := s.results[kind := BranchResult(if ok then Ready else Broken, s.round)],
         node := if running == {} then FanIn else Branches(running))
    case Report => s.(node := End, report := Collect(s.results, ReportTypes(s)))
  }

  function Exec(actions: seq<Action>, strip: string -> string): Option<State> {
    if actions == [] then Some(START)
    else
      match Exec(actions[..|actions| - 1], strip)
      case None => None
      case Some(s) =>
        if Enabled(s, actions[|actions| - 1]) then Some(Next(s, actions[|actions| - 1], strip)) else None
  }

  // ----- what is kept -----

  predicate Filled(m: TeachingMetadata) {
    m.subject != "" && m.grade != "" && m.topic != ""
  }

  predicate AfterApproval(n: Node) {
    n in {Prepare, Planner, PlanReview}
  }

  predicate Generating(s: State) {
    s.node.Branches? && s.sources == []
  }

  ghost predicate ApprovalOk(s: State) {
    && (s.node == MetadataReview ==> s.metadata.Some? && Filled(s.metadata.value))
    && (AfterApproval(s.node) || Generating(s) ==>
          s.metadata.Some? && Filled(s.metadata.value) && s.approved == s.metadata)
    && (s.node == PlanReview || Generating(s) ==> s.reviewed == Some(s.plan))
    && (s.node == Clarify ==> s.catalog != [])
    && (s.node == RevisionPrepare ==> s.sources != [])
  }

  /** Chosen types wait while they run and carry this round's result afterwards, the others keep what they had. */
  ghost predicate RoundResults(results: map<string, BranchResult>, before: map<string, BranchResult>,
                               chosen: seq<string>, running: set<string>, round: nat)
  {
    && (forall t :: t in results <==> t in before)
    && (forall t :: t in chosen ==>
          t in results && results[t].round == round && (results[t].status == Waiting <==> t in running))
    && (forall t :: t in results && t !in chosen ==> results[t] == before[t])
  }

  ghost predicate RoundOk(s: State, running: set<string>) {
    && s.chosen != [] && Unrepeated(s.chosen) && running <= AsSet(s.chosen)
    && s.chosen == (if s.sources != [] then Known(s.sources) else s.targets)
    && (s.sources == [] ==> Distinct(s.targets) == s.targets)
    && RoundResults(s.results, s.before, s.chosen, running, s.round)
  }

  ghost predicate ResultsOk(s: State) {
    && (forall t :: t in TYPES ==> t in s.results)
    && Unrepeated(s.catalog)
    && (s.node == RevisionPrepare && s.chosen != [] ==> s.sources != [] && RoundOk(s, AsSet(s.chosen)))
    && (s.node == RevisionPrepare ==> s.chosen == Known(s.sources))
    && (s.node.Branches? ==> s.node.running != {} && RoundOk(s, s.node.running))
    && (s.node == FanIn ==> RoundOk(s, {}))
  }

  lemma {:induction false} KnownAreTypes(kinds: seq<string>)
    ensures forall t :: t in Known(kinds) <==> t in kinds && t in TYPES
    ensures Unrepeated(kinds) ==> Unrepeated(Known(kinds))
    decreases |kinds|
  {
    if kinds != [] {
      KnownAreTypes(kinds[..|kinds| - 1]);
      Unsnoc(kinds);
    }
  }

  lemma UnrepeatedSnoc(kinds: seq<string>, last: string)
    ensures Unrepeated(kinds + [last]) <==> Unrepeated(kinds) && last !in kinds
  {
    var all := kinds + [last];
    if Unrepeated(all) {
      assert forall i :: 0 <= i < |kinds| ==> kinds[i] == all[i] && all[i] != all[|kinds|];
    }
  }

  lemma {:induction false} FilterIsPart(catalog: seq<string>, kinds: seq<string>)
    ensures forall t :: t in Filter(catalog, kinds) ==> t in catalog
    ensures Unrepeated(catalog) ==> Unrepeated(Filter(catalog, kinds))
    decreases |catalog|
  {
    if catalog != [] {
      var front, last := catalog[..|catalog| - 1], catalog[|catalog| - 1];
      FilterIsPart(front, kinds);
      Unsnoc(catalog);
      UnrepeatedSnoc(front, last);
      UnrepeatedSnoc(Filter(front, kinds), last);
      Neutral(Filter(front, kinds));
    }
  }

  lemma {:induction false} DistinctIsNormal(kinds: seq<string>)
    ensures forall t :: t in Distinct(kinds) <==> t in kinds && t in TYPES
    ensures Unrepeated(Distinct(kinds))
  {
    if kinds != [] {
      var front := kinds[..|kinds| - 1];
      DistinctIsNormal(front);
      assert kinds == front + [kinds[|kinds| - 1]];
    }
  }

  lemma {:induction false} DistinctTwice(kinds: seq<string>)
    requires forall t :: t in kinds ==> t in TYPES
    requires Unrepeated(kinds)
    ensures Distinct(kinds) == kinds
  {
    if kinds != [] {
      var front := kinds[..|kinds| - 1];
      DistinctTwice(front);
      assert kinds == front + [kinds[|kinds| - 1]];
    }
  }

  lemma SelectedIsNormal(selection: Option<seq<string>>)
    ensures forall t :: t in Selected(selection) <==> t in TYPES && (selection.Some? ==> t in selection.value)
    ensures Unrepeated(Selected(selection)) && Distinct(Selected(selection)) == Selected(selection)
  {
    if selection.Some? {
      DistinctIsNormal(selection.value);
    }
    DistinctTwice(Selected(selection));
  }

  lemma RouteKeepsApproval(s: State, inferred: seq<string>, unclear: bool, strip: string -> string)
    requires ApprovalOk(s) && Enabled(s, Route(inferred, unclear))
    ensures ApprovalOk(Next(s, Route(inferred, unclear), strip))
  {
  }

  lemma SelectionKeepsApproval(s: State, selection: Option<seq<string>>, strip: string -> string)
    requires ApprovalOk(s) && Enabled(s, ApprovePlan(selection))
    ensures ApprovalOk(Next(s, ApprovePlan(selection), strip))
  {
  }

  lemma NextKeepsApproval(s: State, a: Action, strip: string -> string)
    requires ApprovalOk(s) && Enabled(s, a)
    ensures ApprovalOk(Next(s, a, strip))
  {
    match a {
      case Route(inferred, unclear) => RouteKeepsApproval(s, inferred, unclear, strip);
      case ApprovePlan(selection) => SelectionKeepsApproval(s, selection, strip);
      case _ =>
    }
  }

  lemma StartRound(s: State, kinds: seq<string>)
    requires (forall t :: t in TYPES ==> t in s.results) && forall t :: t in kinds ==> t in TYPES
    ensures RoundResults(Reset(s.results, kinds, s.round + 1), s.results, kinds, AsSet(kinds), s.round + 1)
    ensures forall t :: t in TYPES ==> t in Reset(s.results, kinds, s.round + 1)
  {
  }

  lemma GenerationRound(s: State, kinds: seq<string>)
    requires kinds != [] && Unrepeated(kinds) && Distinct(kinds) == kinds
    requires RoundResults(Reset(s.results, kinds, s.round + 1), s.results, kinds, AsSet(kinds), s.round + 1)
    ensures RoundOk(Generate(s, kinds), AsSet(kinds))
  {
  }

  lemma GenerationStarts(s: State, kinds: seq<string>)
    requires (forall t :: t in TYPES ==> t in s.results) && Unrepeated(s.catalog)
    requires kinds != [] && Unrepeated(kinds) && Distinct(kinds) == kinds && forall t :: t in kinds ==> t in TYPES
    ensures ResultsOk(Generate(s, kinds))
  {
    StartRound(s, kinds);
    GenerationRound(s, kinds);
    assert kinds[0] in AsSet(kinds);
  }

  lemma RevisionRound(s: State, sources: seq<string>)
    requires (forall t :: t in TYPES ==> t in s.results) && sources != [] && Unrepeated(sources)
    ensures Known(sources) != [] ==> RoundOk(ReviseAll(s, sources), AsSet(Known(sources)))
    ensures forall t :: t in TYPES ==> t in ReviseAll(s, sources).results
  {
    KnownAreTypes(sources);
    StartRound(s, Known(sources));
  }

  lemma RevisionStarts(s: State, sources: seq<string>)
    requires ResultsOk(s) && sources != [] && Unrepeated(sources)
    ensures ResultsOk(ReviseAll(s, sources))
  {
    RevisionRound(s, sources);
  }

  /** Hints play no part in the results. */
  lemma HintsAside(s: State, hints: seq<string>)
    requires ResultsOk(s)
    ensures ResultsOk(s.(hints := hints))
  {
  }

  lemma ResultArrives(results: map<string, BranchResult>, before: map<string, BranchResult>, chosen: seq<string>,
                      running: set<string>, round: nat, kind: string, status: BranchStatus)
    requires RoundResults(results, before, chosen, running, round) && kind in chosen && status != Waiting
    ensures RoundResults(results[kind := BranchResult(status, round)], before, chosen, running - {kind}, round)
  {
  }

  lemma BranchFinishes(s: State, kind: string, ok: bool)
    requires ResultsOk(s) && Enabled(s, BranchDone(kind, ok))
    ensures ResultsOk(Next(s, BranchDone(kind, ok), x => x))
  {
    assert kind in s.chosen;
    ResultArrives(s.results, s.before, s.chosen, s.node.running, s.round, kind, if ok then Ready else Broken);
  }

  lemma ApprovalKeepsResults(s: State, selection: Option<seq<string>>, strip: string -> string)
    requires ResultsOk(s) && Enabled(s, ApprovePlan(selection))
    ensures ResultsOk(Next(s, ApprovePlan(selection), strip))
  {
    SelectedIsNormal(selection);
    if Selected(selection) != [] {
      GenerationStarts(s, Selected(selection));
    }
  }

  lemma RouteKeepsResults(s: State, inferred: seq<string>, unclear: bool, strip: string -> string)
    requires ResultsOk(s) && Enabled(s, Route(inferred, unclear))
    ensures ResultsOk(Next(s, Route(inferred, unclear), strip))
  {
    var wanted := if Known(s.hints) != [] then Known(s.hints) else inferred;
    FilterIsPart(s.catalog, wanted);
    if Filter(s.catalog, wanted) != [] {
      RevisionStarts(s, Filter(s.catalog, wanted));
    }
  }

  lemma RevisionReadyKeepsResults(s: State, strip: string -> string)
    requires ResultsOk(s) && Enabled(s, RevisionReady)
    ensures ResultsOk(Next(s, RevisionReady, strip))
  {
    assert s.chosen != [] ==> s.chosen[0] in AsSet(s.chosen);
  }

  /** Steps that neither start a round nor take part in one. */
  predicate Quiet(a: Action) {
    !a.ApprovePlan? && !a.Route? && !a.ClarifyAll? && !a.BranchDone? && !a.RevisionReady?
  }

  lemma QuietStep(s: State, a: Action, strip: string -> string, t: State)
    requires Quiet(a) && Enabled(s, a) && t == Next(s, a, strip)
    ensures t.results == s.results && (t.catalog == s.catalog || Unrepeated(t.catalog))
    ensures t.node != RevisionPrepare && !t.node.Branches? && t.node != FanIn
  {
  }

  lemma QuietKeepsResults(s: State, t: State)
    requires ResultsOk(s) && t.results == s.results && Unrepeated(t.catalog)
    requires t.node != RevisionPrepare && !t.node.Branches? && t.node != FanIn
    ensures ResultsOk(t)
  {
  }

  lemma NextKeepsResults(s: State, a: Action, strip: string -> string)
    requires ApprovalOk(s) && ResultsOk(s) && Enabled(s, a)
    ensures ResultsOk(Next(s, a, strip))
  {
    if Quiet(a) {
      QuietStep(s, a, strip, Next(s, a, strip));
      QuietKeepsResults(s, Next(s, a, strip));
    } else {
      match a {
        case ApprovePlan(selection) => ApprovalKeepsResults(s, selection, strip);
        case Route(inferred, unclear) => RouteKeepsResults(s, inferred, unclear, strip);
        case ClarifyAll =>
          RevisionStarts(s, s.catalog);
          HintsAside(ReviseAll(s, s.catalog), s.hints);
        case BranchDone(kind, ok) => BranchFinishes(s, kind, ok);
        case RevisionReady => RevisionReadyKeepsResults(s, strip);
      }
    }
  }

  lemma {:induction false} ExecKeeps(actions: seq<Action>, strip: string -> string)
    requires Exec(actions, strip).Some?
    ensures ApprovalOk(Exec(actions, strip).value) && ResultsOk(Exec(actions, strip).value)
    decreases |actions|
  {
    if actions != [] {
      var front := actions[..|actions| - 1];
      ExecKeeps(front, strip);
      NextKeepsApproval(Exec(front, strip).value, actions[|actions| - 1], strip);
      NextKeepsResults(Exec(front, strip).value, actions[|actions| - 1], strip);
    }
  }

  /**
   * Nothing is generated without approval: whenever generation branches run, the teaching metadata is
   * filled in and is what the teacher approved last, the plan is the one last put to review, and exactly
   * chosen types, at least one, take part in the round.
   */
  lemma {:induction false} NothingWithoutApproval(actions: seq<Action>, strip: string -> string)
    requires Exec(actions, strip).Some? && Generating(Exec(actions, strip).value)
    ensures var s := Exec(actions, strip).value;
            && s.metadata.Some? && Filled(s.metadata.value) && s.approved == s.metadata
            && s.reviewed == Some(s.plan)
            && s.chosen == s.targets != [] && s.node.running <= AsSet(s.chosen)
  {
    ExecKeeps(actions, strip);
  }

  predicate Picked(selection: Option<seq<string>>, t: string) {
    t in TYPES && (selection.Some? ==> t in selection.value)
  }

  lemma SelectedIsPicked(selection: Option<seq<string>>)
    ensures forall t :: t in Selected(selection) <==> Picked(selection, t)
  {
    SelectedIsNormal(selection);
  }

  /**
   * Approval of a plan fans out to exactly the known types that were selected, and ends the turn when there are
   * none.
   */
  lemma FanOutIsSelection(s: State, selection: Option<seq<string>>, strip: string -> string)
    requires s.node == PlanReview
    ensures var s' := Next(s, ApprovePlan(selection), strip);
            if exists t :: Picked(selection, t)
            then s'.node.Branches? && (forall t :: t in s'.node.running <==> Picked(selection, t))
                 && (forall t :: t in s'.targets <==> Picked(selection, t))
                 && s'.sources == [] && s'.report == [] && s'.round == s.round + 1
            else s'.node == End && s'.results == s.results
  {
    SelectedIsPicked(selection);
    var kinds := Selected(selection);
    if kinds != [] {
      assert Picked(selection, kinds[0]);
    }
  }

  lemma {:induction false} CollectAll(results: map<string, BranchResult>, kinds: seq<string>)
    requires forall t :: t in kinds ==> t in results && results[t].status != Waiting
    ensures |Collect(results, kinds)| == |kinds|
    ensures forall i :: 0 <= i < |kinds| ==> Collect(results, kinds)[i] == results[kinds[i]]
  {
    if kinds != [] {
      CollectAll(results, kinds[..|kinds| - 1]);
    }
  }

  /** The report is one finished result of this round for each chosen type, in order; other types are as before. */
  ghost predicate ReportsRound(s: State, report: seq<BranchResult>) {
    && |report| == |s.chosen| >= 1 && Unrepeated(s.chosen)
    && (forall i :: 0 <= i < |report| ==>
          && s.chosen[i] in s.results && report[i] == s.results[s.chosen[i]]
          && report[i].round == s.round && report[i].status != Waiting)
    && (forall t :: t in s.results && t !in s.chosen ==> t in s.before && s.results[t] == s.before[t])
  }

  lemma ReportIsChosen(s: State)
    requires RoundOk(s, {})
    ensures ReportsRound(s, Collect(s.results, ReportTypes(s)))
  {
    assert ReportTypes(s) == s.chosen;
    CollectAll(s.results, s.chosen);
  }

  lemma ReportStep(s: State, strip: string -> string, report: seq<BranchResult>)
    requires s.node == FanIn && report == Collect(s.results, ReportTypes(s))
    ensures Next(s, Report, strip).report == report
  {
  }

  /**
   * Fan-in reports this round only: after any history of generations and revisions its results are exactly one
   * finished result for each chosen type, in order, written in this round; all other types are as before.
   */
  lemma {:induction false} FanInReportsThisRound(actions: seq<Action>, strip: string -> string, s: State)
    requires Exec(actions, strip) == Some(s) && s.node == FanIn
    ensures ReportsRound(s, Next(s, Report, strip).report)
  {
    ExecKeeps(actions, strip);
    ReportIsChosen(s);
    ReportStep(s, strip, Collect(s.results, ReportTypes(s)));
  }

  // ----- which artifacts a revision takes -----

  /** A hint names a known type. */
  predicate Hinted(s: State) {
    exists t :: t in s.hints && t in TYPES
  }

  /** The teacher wants this type revised: a known hint, or, when no hint is known, an inferred type. */
  predicate Asked(s: State, inferred: seq<string>, t: string) {
    if Hinted(s) then t in s.hints && t in TYPES else t in inferred
  }

  predicate SomeAsked(s: State, inferred: seq<string>) {
    exists t :: t in s.catalog && Asked(s, inferred, t)
  }

  ghost predicate StandsBefore(all: seq<string>, x: string, y: string) {
    exists a, b :: 0 <= a < b < |all| && all[a] == x && all[b] == y
  }

  /** The elements of `part` stand in `all` in the same order. */
  ghost predicate InOrderOf(part: seq<string>, all: seq<string>) {
    forall i, j :: 0 <= i < j < |part| ==> StandsBefore(all, part[i], part[j])
  }

  lemma StandsBeforeSnoc(all: seq<string>, last: string, x: string, y: string)
    requires StandsBefore(all, x, y) || (x in all && y == last)
    ensures StandsBefore(all + [last], x, y)
  {
    var all' := all + [last];
    if StandsBefore(all, x, y) {
      var a, b :| 0 <= a < b < |all| && all[a] == x && all[b] == y;
      assert all'[a] == x && all'[b] == y;
    } else {
      var a :| 0 <= a < |all| && all[a] == x;
      assert all'[a] == x && all'[|all|] == y;
    }
  }

  lemma InOrderSnoc(part: seq<string>, all: seq<string>, last: string, taken: bool)
    requires InOrderOf(part, all) && forall t :: t in part ==> t in all
    ensures InOrderOf(if taken then part + [last] else part, all + [last])
  {
    var part' := if taken then part + [last] else part;
    forall i, j | 0 <= i < j < |part'| ensures StandsBefore(all + [last], part'[i], part'[j]) {
      assert part'[i] == part[i] && part[i] in all;
      if j < |part| {
        assert StandsBefore(all, part[i], part[j]);
      }
      StandsBeforeSnoc(all, last, part'[i], part'[j]);
    }
  }

  lemma {:induction false} FilterIsAsked(catalog: seq<string>, kinds: seq<string>)
    ensures forall t :: t in Filter(catalog, kinds) <==> t in catalog && t in kinds
    ensures InOrderOf(Filter(catalog, kinds), catalog)
    decreases |catalog|
  {
    if catalog != [] {
      var front, last := catalog[..|catalog| - 1], catalog[|catalog| - 1];
      FilterIsAsked(front, kinds);
      Unsnoc(catalog);
      InOrderSnoc(Filter(front, kinds), front, last, last in kinds);
      Neutral(Filter(front, kinds));
    }
  }

  lemma HintedExactly(s: State)
    ensures Hinted(s) <==> Known(s.hints) != []
    ensures Hinted(s) ==> forall t :: t in Known(s.hints) <==> t in s.hints && t in TYPES
  {
    KnownAreTypes(s.hints);
    if Known(s.hints) != [] {
      assert Known(s.hints)[0] in Known(s.hints);
    }
  }

  /** The sources are exactly the catalog entries asked for, none twice, in the order of the catalog. */
  ghost predicate TakesAsked(s: State, inferred: seq<string>, sources: seq<string>) {
    && (forall t :: t in sources <==> t in s.catalog && Asked(s, inferred, t))
    && Unrepeated(sources) && InOrderOf(sources, s.catalog)
  }

  lemma FilterTakesAsked(s: State, inferred: seq<string>, sources: seq<string>)
    requires Unrepeated(s.catalog)
    requires sources == Filter(s.catalog, if Known(s.hints) != [] then Known(s.hints) else inferred)
    ensures TakesAsked(s, inferred, sources)
    ensures sources == [] <==> !SomeAsked(s, inferred)
  {
    HintedExactly(s);
    var wanted := if Known(s.hints) != [] then Known(s.hints) else inferred;
    FilterIsAsked(s.catalog, wanted);
    FilterIsPart(s.catalog, wanted);
    if sources != [] {
      assert sources[0] in sources;
    }
  }

  lemma RouteCases(s: State, inferred: seq<string>, unclear: bool, strip: string -> string, sources: seq<string>)
    requires s.node == Router
    requires sources == Filter(s.catalog, if Known(s.hints) != [] then Known(s.hints) else inferred)
    ensures Next(s, Route(inferred, unclear), strip) ==
            if s.catalog == [] then s.(node := End)
            else if Known(s.hints) == [] && unclear then s.(node := Clarify)
            else if sources == [] then s.(node := End)
            else ReviseAll(s, sources)
  {
  }

  /**
   * The router: without a catalog the turn ends; without a known hint an unclear wish is asked about; else the
   * sources of the revision are exactly the catalog entries asked for, none twice, in the order of the catalog, and
   * the turn ends when there are none.
   */
  lemma RouteTakesAsked(s: State, inferred: seq<string>, unclear: bool, strip: string -> string, s': State)
    requires s.node == Router && Unrepeated(s.catalog) && s' == Next(s, Route(inferred, unclear), strip)
    ensures s'.node == Clarify <==> s.catalog != [] && !Hinted(s) && unclear
    ensures s'.node == End <==> s.catalog == [] || (!(!Hinted(s) && unclear) && !SomeAsked(s, inferred))
    ensures s'.node == Clarify || s'.node == End ==> s' == s.(node := s'.node)
    ensures s'.node != Clarify && s'.node != End ==>
              s'.node == RevisionPrepare && s'.hints == [] && s'.report == [] && TakesAsked(s, inferred, s'.sources)
  {
    var sources := Filter(s.catalog, if Known(s.hints) != [] then Known(s.hints) else inferred);
    HintedExactly(s);
    FilterTakesAsked(s, inferred, sources);
    RouteCases(s, inferred, unclear, strip, sources);
  }

  /** Asked about an unclear wish, the teacher may take everything: then the whole catalog is revised. */
  lemma ClarifyTakesAll(s: State, strip: string -> string)
    requires s.node == Clarify
    ensures var s' := Next(s, ClarifyAll, strip);
            s'.node == RevisionPrepare && s'.sources == s.catalog && s'.hints == s.hints && s'.report == []
    ensures Next(s, ClarifyAnswer, strip) == s.(node := Router)
  {
  }

  /** A prepared revision starts exactly the branches of the known types among its sources; without any it ends. */
  lemma RevisionStartsKnown(s: State, strip: string -> string)
    requires s.node == RevisionPrepare
    ensures var s' := Next(s, RevisionReady, strip);
            && s' == s.(node := s'.node)
            && (s'.node == End <==> forall t :: t in s.sources ==> t !in TYPES)
            && (s'.node != End ==>
                  s'.node.Branches? && forall t :: t in s'.node.running <==> t in s.sources && t in TYPES)
  {
    KnownAreTypes(s.sources);
    if Known(s.sources) != [] {
      assert Known(s.sources)[0] in AsSet(Known(s.sources));
    }
  }

  // ----- how a round ends -----

  /** A branch that ends writes its own result, ready or broken as it went, and the last one leads to fan-in. */
  lemma BranchWrites(s: State, kind: string, ok: bool, strip: string -> string)
    requires Enabled(s, BranchDone(kind, ok))
    ensures var s' := Next(s, BranchDone(kind, ok), strip);
            && s' == s.(node := s'.node, results := s'.results)
            && s'.results.Keys == s.results.Keys + {kind}
            && s'.results[kind].status == (if ok then Ready else Broken) && s'.results[kind].round == s.round
            && (forall t :: t in s.results && t != kind ==> s'.results[t] == s.results[t])
            && (if s.node.running == {kind} then s'.node == FanIn
                else s'.node == Branches(s.node.running - {kind}))
  {
  }

  /** Branches end in any order, each as it may. */
  function Finish(s: State, kinds: seq<string>, oks: seq<bool>, strip: string -> string): Option<State>
    requires |oks| == |kinds|
    decreases |kinds|
  {
    if kinds == [] then Some(s)
    else if !Enabled(s, BranchDone(kinds[0], oks[0])) then None
    else Finish(Next(s, BranchDone(kinds[0], oks[0]), strip), kinds[1..], oks[1..], strip)
  }

  lemma UnrepeatedTail(kinds: seq<string>)
    requires Unrepeated(kinds) && kinds != []
    ensures Unrepeated(kinds[1..]) && kinds[0] !in kinds[1..]
    ensures AsSet(kinds[1..]) == AsSet(kinds) - {kinds[0]}
  {
    var tail := kinds[1..];
    assert forall i :: 0 <= i < |tail| ==> tail[i] == kinds[i + 1] && tail[i] != kinds[0];
    assert forall t :: t in kinds <==> t == kinds[0] || t in tail by {
      assert kinds == [kinds[0]] + tail;
    }
  }

  /** Whatever the order, once all running branches ended the round is at fan-in with every branch's own outcome. */
  lemma {:induction false} RoundFinishes(s: State, kinds: seq<string>, oks: seq<bool>, strip: string -> string)
    requires s.node.Branches? && kinds != [] && |oks| == |kinds| && Unrepeated(kinds) && AsSet(kinds) == s.node.running
    ensures var end := Finish(s, kinds, oks, strip);
            && end.Some? && end.value.node == FanIn
            && end.value == s.(node := FanIn, results := end.value.results)
            && (forall i :: 0 <= i < |kinds| ==>
                  kinds[i] in end.value.results
                  && end.value.results[kinds[i]] == BranchResult(if oks[i] then Ready else Broken, s.round))
            && (forall t :: t in s.results && t !in kinds ==>
                  t in end.value.results && end.value.results[t] == s.results[t])
    decreases |kinds|
  {
    var s' := Next(s, BranchDone(kinds[0], oks[0]), strip);
    assert kinds[0] in AsSet(kinds);
    BranchWrites(s, kinds[0], oks[0], strip);
    UnrepeatedTail(kinds);
    if |kinds| > 1 {
      assert kinds[1] in AsSet(kinds) && kinds[1] != kinds[0];
      RoundFinishes(s', kinds[1..], oks[1..], strip);
      forall i | 0 <= i < |kinds| ensures
        var end := Finish(s, kinds, oks, strip).value;
        kinds[i] in end.results && end.results[kinds[i]] == BranchResult(if oks[i] then Ready else Broken, s.round)
      {
        assert i > 0 ==> kinds[1..][i - 1] == kinds[i] && oks[1..][i - 1] == oks[i];
      }
    } else {
      assert kinds == [kinds[0]];
      assert s.node.running == {kinds[0]};
    }
  }

  /** A report ends the turn. */
  lemma ReportEnds(s: State, strip: string -> string)
    requires s.node == FanIn
    ensures var s' := Next(s, Report, strip); s' == s.(node := End, report := s'.report)
  {
  }

  // ----- the way to a plan -----

  /** The edges of the conversation that only move on. */
  lemma Edges(s: State, a: Action, strip: string -> string)
    requires Enabled(s, a)
    ensures var s' := Next(s, a, strip);
            match a
            case NewMessage(catalog) => s' == s.(node := Entry, catalog := catalog)
            case Chat => s.node == Entry && s' == s.(node := End)
            case StartDesign => s.node == Entry && s' == s.(node := Intake, metadata := None)
            case StartRevision(hints) => s.node == Entry && s' == s.(node := Router, hints := hints)
            case AskMore => s.node == Intake && s' == s.(node := AskUser)
            case Answer => s.node == AskUser && s' == s.(node := Intake)
            case CancelIntake => s.node == Intake && s' == s.(node := End)
            case RestartIntake => s.node == Intake && s' == s.(metadata := None)
            case ApproveMetadata => s.node == MetadataReview && s' == s.(node := Prepare, approved := s.metadata)
            case ChangeMetadata => s.node == MetadataReview && s' == s.(node := Intake)
            case ContextReady => s.node == Prepare && s' == s.(node := Planner)
            case ChangePlan => s.node == PlanReview && s' == s.(node := Prepare)
            case _ => true
  {
  }

  /** What may happen at each node of the conversation; a new message may come at any of them. */
  lemma Choices(s: State, a: Action)
    requires !a.NewMessage?
    ensures Enabled(s, a) <==>
              match s.node
              case Entry => a.Chat? || a.StartDesign? || a.StartRevision?
              case Intake => a.AskMore? || a.Submit? || a.CancelIntake? || a.RestartIntake?
              case AskUser => a.Answer?
              case MetadataReview => a.ApproveMetadata? || a.ChangeMetadata?
              case Prepare => a.ContextReady?
              case Planner => a.PlanWritten?
              case PlanReview => a.ApprovePlan? || a.ChangePlan?
              case Router => a.Route?
              case Clarify => a.ClarifyAll? || a.ClarifyAnswer?
              case RevisionPrepare => a.RevisionReady?
              case Branches(running) => a.BranchDone? && a.kind in running
              case FanIn => a.Report?
              case End => false
  {
  }

  /** Metadata go to review, stripped, exactly when subject, grade and topic are all filled in. */
  lemma SubmitExactly(s: State, raw: TeachingMetadata, strip: string -> string)
    requires s.node == Intake
    ensures var s' := Next(s, Submit(raw), strip);
            if strip(raw.subject) != "" && strip(raw.grade) != "" && strip(raw.topic) != ""
            then s' == s.(node := MetadataReview,
                          metadata := Some(TeachingMetadata(strip(raw.subject), strip(raw.grade), strip(raw.topic))))
            else s' == s.(node := AskUser)
  {
  }

  /** The way of a lesson from the first message to its approved plan. */
  function Lesson(catalog: seq<string>, raw: TeachingMetadata, text: string,
                  selection: Option<seq<string>>): seq<Action>
  {
    [NewMessage(catalog), StartDesign] + [Submit(raw), ApproveMetadata] + [ContextReady, PlanWritten(text)]
    + [ApprovePlan(selection)]
  }

  lemma ExecSnoc(actions: seq<Action>, strip: string -> string, s: State, a: Action)
    requires Exec(actions, strip) == Some(s) && Enabled(s, a)
    ensures Exec(actions + [a], strip) == Some(Next(s, a, strip))
  {
    assert (actions + [a])[..|actions|] == actions;
  }

  lemma ExecTwo(actions: seq<Action>, strip: string -> string, s: State, a: Action, b: Action)
    requires Exec(actions, strip) == Some(s) && Enabled(s, a) && Enabled(Next(s, a, strip), b)
    ensures Exec(actions + [a, b], strip) == Some(Next(Next(s, a, strip), b, strip))
  {
    ExecSnoc(actions, strip, s, a);
    ExecSnoc(actions + [a], strip, Next(s, a, strip), b);
    assert actions + [a] + [b] == actions + [a, b];
  }

  /** The state in which a written plan waits for its review. */
  function InReview(catalog: seq<string>, m: TeachingMetadata, plan: string): State {
    START.(node := PlanReview, catalog := catalog, metadata := Some(m), approved := Some(m),
           plan := plan, reviewed := Some(plan))
  }

  lemma MetadataApproved(s: State, raw: TeachingMetadata, strip: string -> string, m: TeachingMetadata)
    requires s.node == Intake && Filled(m)
    requires m == TeachingMetadata(strip(raw.subject), strip(raw.grade), strip(raw.topic))
    ensures Enabled(s, Submit(raw)) && Enabled(Next(s, Submit(raw), strip), ApproveMetadata)
    ensures Next(Next(s, Submit(raw), strip), ApproveMetadata, strip) ==
            s.(node := Prepare, metadata := Some(m), approved := Some(m))
  {
    SubmitExactly(s, raw, strip);
  }

  lemma LessonReviewed(catalog: seq<string>, raw: TeachingMetadata, text: string, strip: string -> string,
                       m: TeachingMetadata)
    requires Unrepeated(catalog)
    requires m == TeachingMetadata(strip(raw.subject), strip(raw.grade), strip(raw.topic)) && Filled(m)
    ensures var six := [NewMessage(catalog), StartDesign] + [Submit(raw), ApproveMetadata]
                       + [ContextReady, PlanWritten(text)];
            Exec(six, strip) == Some(InReview(catalog, m, strip(text)))
  {
    var two := [NewMessage(catalog), StartDesign];
    var intake := START.(node := Intake, metadata := None, catalog := catalog);
    ExecTwo([], strip, START, NewMessage(catalog), StartDesign);
    assert [] + two == two;
    MetadataApproved(intake, raw, strip, m);
    ExecTwo(two, strip, intake, Submit(raw), ApproveMetadata);
    var prepare := intake.(node := Prepare, metadata := Some(m), approved := Some(m));
    ExecTwo(two + [Submit(raw), ApproveMetadata], strip, prepare, ContextReady, PlanWritten(text));
  }

  /**
   * Every filled-in lesson gets there: after both reviews the branches of exactly the selected known types run, on
   * the approved metadata and the written plan; a selection without a known type ends the turn.
   */
  lemma LessonRuns(catalog: seq<string>, raw: TeachingMetadata, text: string, selection: Option<seq<string>>,
                   strip: string -> string, m: TeachingMetadata)
    requires Unrepeated(catalog)
    requires m == TeachingMetadata(strip(raw.subject), strip(raw.grade), strip(raw.topic)) && Filled(m)
    ensures Exec(Lesson(catalog, raw, text, selection), strip).Some?
    ensures var s := Exec(Lesson(catalog, raw, text, selection), strip).value;
            && s.metadata == s.approved == Some(m) && s.plan == strip(text) && s.catalog == catalog
            && (if exists t :: Picked(selection, t)
                then s.node.Branches? && forall t :: t in s.node.running <==> Picked(selection, t) else s.node == End)
  {
    var six := [NewMessage(catalog), StartDesign] + [Submit(raw), ApproveMetadata] + [ContextReady, PlanWritten(text)];
    var review := InReview(catalog, m, strip(text));
    LessonReviewed(catalog, raw, text, strip, m);
    ExecSnoc(six, strip, review, ApprovePlan(selection));
    FanOutIsSelection(review, selection, strip);
    ApprovalKeeps(review, selection, strip);
  }

  /** Approval changes neither metadata nor plan nor catalog. */
  lemma ApprovalKeeps(s: State, selection: Option<seq<string>>, strip: string -> string)
    requires s.node == PlanReview
    ensures var s' := Next(s, ApprovePlan(selection), strip);
            && s'.metadata == s.metadata && s'.approved == s.approved && s'.reviewed == s.reviewed
            && s'.plan == s.plan && s'.catalog == s.catalog
  {
  }

  /** And every revision gets to its branches: a message, a wish with hints, and the router's choice. */
  lemma RevisionRuns(actions: seq<Action>, s: State, catalog: seq<string>, hints: seq<string>, inferred: seq<string>,
                     unclear: bool, strip: string -> string)
    requires Exec(actions, strip) == Some(s) && Unrepeated(catalog)
    ensures var routed := s.(node := Router, catalog := catalog, hints := hints);
            Exec(actions + [NewMessage(catalog), StartRevision(hints)] + [Route(inferred, unclear)], strip)
            == Some(Next(routed, Route(inferred, unclear), strip))
  {
    ExecTwo(actions, strip, s, NewMessage(catalog), StartRevision(hints));
    var routed := s.(node := Router, catalog := catalog, hints := hints);
    ExecSnoc(actions + [NewMessage(catalog), StartRevision(hints)], strip, routed, Route(inferred, unclear));
  }
}
