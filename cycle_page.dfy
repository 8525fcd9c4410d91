/** The cycle report: a summary of the cycle's scope, three charts of its
    history and the details of the tickets left open at its close. */
module CyclePage {
  import opened Wrappers
  import opened Text
  import opened Records
  import opened Dicts
  import opened DocumentBuilder
  import opened NotionStore

  /** `_properties_block`: the title names the team and the cycle, and the
      `Cycle` property holds the cycle name the existence query filters on. */
  function Properties(teamKey: string, cycleName: string, inspectionDate: string): (ps: Dict<PropValue>)
    ensures DistinctKeys(ps)
    ensures Keys(ps) == ["Nom", "Cycle", "generation method", "Date of inspection"]
    ensures Has(ps, "Nom") && Has(ps, "Cycle") && Has(ps, "generation method") && Has(ps, "Date of inspection")
    ensures Get(ps, "Nom") == TitleProp(teamKey + " - " + cycleName)
    ensures Get(ps, "Cycle") == RichTextProp(cycleName)
    ensures Get(ps, "generation method") == SelectProp(GENERATION_METHOD)
    ensures Get(ps, "Date of inspection") == DateProp(inspectionDate)
  {
    var ps := [("Nom", TitleProp(teamKey + " - " + cycleName)),
               ("Cycle", RichTextProp(cycleName)),
               ("generation method", SelectProp(GENERATION_METHOD)),
               ("Date of inspection", DateProp(inspectionDate))];
    GetAt(ps, 0); GetAt(ps, 1); GetAt(ps, 2); GetAt(ps, 3);
    ps
  }

  // ---------------------------------------------------------------------------
  // Scope walk

  /** The variables of the scope loop: scope added, scope removed, previous sample. */
  datatype Walk = Walk(added: int, removed: int, previous: int)

  /** One sample: nothing is counted while the previous sample is negative
      (initially -1); a rise counts as added, a fall or a plateau as removed. */
  function Step(w: Walk, hist: int): Walk {
    if w.previous >= 0 then
      if hist > w.previous then Walk(w.added + hist - w.previous, w.removed, hist)
      else Walk(w.added, w.removed + w.previous - hist, hist)
    else Walk(w.added, w.removed, hist)
  }

  /** The scope loop over a history, from (0, 0, -1). */
  function ScopeWalk(h: seq<int>): (w: Walk)
    ensures w.added >= 0 && w.removed >= 0
    ensures w.previous == if h == [] then -1 else h[|h| - 1]
  {
    if h == [] then Walk(0, 0, -1) else Step(ScopeWalk(h[..|h| - 1]), h[|h| - 1])
  }

  predicate NonNegative(h: seq<int>) {
    forall i :: 0 <= i < |h| ==> h[i] >= 0
  }

  /** On a history of counts, what was added minus what was removed is the
      growth from the first sample to the last. */
  lemma {:induction false} ScopeTelescopes(h: seq<int>)
    requires h != [] && NonNegative(h)
    ensures ScopeWalk(h).added - ScopeWalk(h).removed == h[|h| - 1] - h[0]
  {
    if |h| > 1 {
      var p := h[..|h| - 1];
      ScopeTelescopes(p);
      assert p[0] == h[0];
    }
  }

  /** A history that never falls has nothing removed; all its growth is added. */
  lemma {:induction false} ScopeNeverFalls(h: seq<int>)
    requires h != [] && NonNegative(h)
    requires forall i :: 0 < i < |h| ==> h[i - 1] < h[i]
    ensures ScopeWalk(h).removed == 0
    ensures ScopeWalk(h).added == h[|h| - 1] - h[0]
  {
    if |h| > 1 {
      var p := h[..|h| - 1];
      ScopeNeverFalls(p);
      assert p[0] == h[0];
    }
  }

  function Pos(d: int): nat {
    if d > 0 then d else 0
  }

  /** The sum of the rises between consecutive samples. */
  function Rises(h: seq<int>): nat {
    if |h| < 2 then 0 else Pos(h[1] - h[0]) + Rises(h[1..])
  }

  /** The sum of the falls between consecutive samples. */
  function Falls(h: seq<int>): nat {
    if |h| < 2 then 0 else Pos(h[0] - h[1]) + Falls(h[1..])
  }

  lemma {:induction false} RisesFallsSnoc(p: seq<int>, x: int)
    requires p != []
    ensures Rises(p + [x]) == Rises(p) + Pos(x - p[|p| - 1])
    ensures Falls(p + [x]) == Falls(p) + Pos(p[|p| - 1] - x)
  {
    if |p| > 1 {
      RisesFallsSnoc(p[1..], x);
      assert (p + [x])[1..] == p[1..] + [x];
    }
  }

  /** On a history of counts, the walk adds up exactly the rises between
      consecutive samples and removes exactly the falls; the first sample
      contributes to neither. */
  lemma {:induction false} ScopeWalkSumsChanges(h: seq<int>)
    requires NonNegative(h)
    ensures ScopeWalk(h).added == Rises(h)
    ensures ScopeWalk(h).removed == Falls(h)
  {
    if |h| > 1 {
      var p := h[..|h| - 1];
      ScopeWalkSumsChanges(p);
      assert h == p + [h[|h| - 1]];
      RisesFallsSnoc(p, h[|h| - 1]);
    }
  }

  /** 5, 7, 6, 6, 9: two added, one removed, a plateau, three added. */
  lemma ScopeWalkExample()
    ensures ScopeWalk([5, 7, 6, 6, 9]) == Walk(5, 1, 9)
  {
    var h := [5, 7, 6, 6, 9];
    assert h[..4] == [5, 7, 6, 6] && h[..4][..3] == [5, 7, 6];
    assert h[..4][..3][..2] == [5, 7] && h[..4][..3][..2][..1] == [5];
    assert ScopeWalk([5]) == Walk(0, 0, 5);
    assert ScopeWalk([5, 7]) == Walk(2, 0, 7);
    assert ScopeWalk([5, 7, 6]) == Walk(2, 1, 6);
    assert ScopeWalk([5, 7, 6, 6]) == Walk(2, 1, 6);
  }

  // ---------------------------------------------------------------------------
  // Summary

  /** `_iteration_summary_blocks`: `max` of an empty scope history raises
      first, then `[-1]` of an empty completed history. */
  function SummarySection(c: Cycle): (r: Result<seq<Block>>)
    ensures r.Err? <==> c.scopeHistory == [] || c.completedScopeHistory == []
    ensures c.scopeHistory == [] ==> r == Err(ValueError)
    ensures c.scopeHistory != [] && c.completedScopeHistory == [] ==> r == Err(IndexError)
    ensures r.Ok? ==> |r.value| == 8 && r.value[0] == Heading1("Summary")
  {
    if c.scopeHistory == [] then Err(ValueError)
    else if c.completedScopeHistory == [] then Err(IndexError)
    else
      var w := ScopeWalk(c.scopeHistory);
      Ok(SummaryHead(c) + SummaryTail(w, c.completedScopeHistory[|c.completedScopeHistory| - 1], c.progress))
  }

  function SummaryHead(c: Cycle): seq<Block>
    requires c.scopeHistory != []
  {
    [Heading1("Summary"),
     BoldKeyParagraph("Date of beginning. ", c.startsAt),
     BoldKeyParagraph("Date of end. ", c.endsAt),
     BoldKeyParagraph("Max nb of tickets in the cycle. ", IntStr(MaxOf(c.scopeHistory)))]
  }

  function SummaryTail(w: Walk, lastCompleted: int, progress: nat): seq<Block> {
    [BoldKeyParagraph("Tickets added after the beginning. ", IntStr(w.added)),
     BoldKeyParagraph("Tickets removed after the beginning. ", IntStr(w.removed)),
     BoldKeyParagraph("Nb of completed tickets. ", IntStr(lastCompleted)),
     BoldKeyParagraph("Progress score. ", FixedPoint4(progress))]
  }

  /** The scope loop. */
  method WalkScope(scope: seq<int>) returns (scopeAdded: int, scopeRemoved: int, previousHist: int)
    ensures Walk(scopeAdded, scopeRemoved, previousHist) == ScopeWalk(scope)
  {
    scopeAdded, scopeRemoved, previousHist := 0, 0, -1;
    var i := 0;
    while i < |scope|
      invariant 0 <= i <= |scope|
      invariant Walk(scopeAdded, scopeRemoved, previousHist) == ScopeWalk(scope[..i])
    {
      var hist := scope[i];
      if previousHist >= 0 {
        if hist > previousHist {
          scopeAdded := scopeAdded + hist - previousHist;
        } else {
          scopeRemoved := scopeRemoved + previousHist - hist;
        }
      }
      previousHist := hist;
      assert scope[..i + 1][..i] == scope[..i];
      i := i + 1;
    }
    assert scope[..i] == scope;
  }

  /** `_iteration_summary_blocks` as the builder runs it. */
  method SummaryBlocks(iterationData: Cycle) returns (r: Result<seq<Block>>)
    ensures r == SummarySection(iterationData)
  {
    var scope := iterationData.scopeHistory;
    if scope == [] {
      return Err(ValueError);
    }
    var children := [Heading1("Summary"),
                     BoldKeyParagraph("Date of beginning. ", iterationData.startsAt),
                     BoldKeyParagraph("Date of end. ", iterationData.endsAt),
                     BoldKeyParagraph("Max nb of tickets in the cycle. ", IntStr(MaxOf(scope)))];
    assert children == SummaryHead(iterationData);
    var scopeAdded, scopeRemoved, previousHist := WalkScope(scope);
    children := children + [BoldKeyParagraph("Tickets added after the beginning. ", IntStr(scopeAdded))];
    children := children + [BoldKeyParagraph("Tickets removed after the beginning. ", IntStr(scopeRemoved))];
    var completed := iterationData.completedScopeHistory;
    if completed == [] {
      return Err(IndexError);
    }
    children := children + [BoldKeyParagraph("Nb of completed tickets. ", IntStr(completed[|completed| - 1]))];
    children := children + [BoldKeyParagraph("Progress score. ", FixedPoint4(iterationData.progress))];
    assert children == SummaryHead(iterationData)
      + SummaryTail(Walk(scopeAdded, scopeRemoved, previousHist), completed[|completed| - 1], iterationData.progress);
    r := Ok(children);
  }

  /** The summary shows the largest scope sample, the walk's added and
      removed counts, the last completed count and the progress score. */
  lemma SummaryFigures(c: Cycle)
    requires SummarySection(c).Ok?
    ensures var bs := SummarySection(c).value;
      && bs[3].BoldKeyParagraph? && bs[4].BoldKeyParagraph? && bs[5].BoldKeyParagraph? && bs[6].BoldKeyParagraph?
      && (exists m :: bs[3].text == IntStr(m) && m in c.scopeHistory &&
            forall i :: 0 <= i < |c.scopeHistory| ==> c.scopeHistory[i] <= m)
      && bs[4].text == IntStr(ScopeWalk(c.scopeHistory).added)
      && bs[5].text == IntStr(ScopeWalk(c.scopeHistory).removed)
      && bs[6].text == IntStr(c.completedScopeHistory[|c.completedScopeHistory| - 1])
      && bs[7] == BoldKeyParagraph("Progress score. ", FixedPoint4(c.progress))
  {
    var m := MaxOf(c.scopeHistory);
    assert SummarySection(c).value[3].text == IntStr(m);
  }

  // ---------------------------------------------------------------------------
  // Evolution

  const SCOPE_TITLE: string := "Evolution of the nb of tickets in the iteration over time"
  const IN_PROGRESS_TITLE: string := "Evolution of the nb of tickets in progress in the iteration over time"
  const COMPLETED_TITLE: string := "Evolution of the nb of tickets resolved in the iteration over time"

  /** `_iteration_evolution_blocks`: one bar chart per history, each behind
      its own heading; a chart of an empty history raises. */
  function EvolutionSection(c: Cycle): (r: Result<seq<Block>>)
    ensures r.Ok? <==> c.scopeHistory != [] && c.inProgressScopeHistory != [] && c.completedScopeHistory != []
    ensures r.Err? ==> r.error == ValueError
    ensures r.Ok? ==> |r.value| == 7 && r.value[0] == Heading1("History over time")
    ensures r.Ok? ==> r.value[1] == Heading2(SCOPE_TITLE) && r.value[2].XYChart? && r.value[2].bars == c.scopeHistory
    ensures r.Ok? ==> r.value[3] == Heading2(IN_PROGRESS_TITLE) && r.value[4].XYChart? && r.value[4].bars == c.inProgressScopeHistory
    ensures r.Ok? ==> r.value[5] == Heading2(COMPLETED_TITLE) && r.value[6].XYChart? && r.value[6].bars == c.completedScopeHistory
  {
    var scope :- XYChartBlock("nb tickets over time", c.scopeHistory);
    var inProgress :- XYChartBlock("nb tickets in progress over time", c.inProgressScopeHistory);
    var completed :- XYChartBlock("nb tickets completed over time", c.completedScopeHistory);
    Ok([Heading1("History over time"),
        Heading2(SCOPE_TITLE), scope,
        Heading2(IN_PROGRESS_TITLE), inProgress,
        Heading2(COMPLETED_TITLE), completed])
  }

  // ---------------------------------------------------------------------------
  // Children and page

  const DETAILS_TITLE: string := "Details of the uncompleted tickets"
  const MAX_CHILDREN: nat := 100

  function Min(a: nat, b: nat): nat {
    if a < b then a else b
  }

  /** The children before truncation. */
  function AllChildren(summary: seq<Block>, evolution: seq<Block>, c: Cycle): seq<Block> {
    summary + [Divider] + evolution + [Divider] + TicketDetails(DETAILS_TITLE, c.uncompletedIssuesUponClose)
  }

  /** `_children_block`: summary, divider, evolution, divider, details of the
      uncompleted tickets, cut to the first hundred blocks. */
  function Children(c: Cycle): Result<seq<Block>> {
    var summary :- SummarySection(c);
    var evolution :- EvolutionSection(c);
    var all := AllChildren(summary, evolution, c);
    Ok(all[..Min(MAX_CHILDREN, |all|)])
  }

  /** The children loop. */
  method ChildrenBlocks(c: Cycle) returns (r: Result<seq<Block>>)
    ensures r == Children(c)
  {
    var summary :- SummaryBlocks(c);
    var children := summary + [Divider];
    var evolution :- EvolutionSection(c);
    children := children + evolution + [Divider];
    var details := TicketDetailsBlocks(DETAILS_TITLE, c.uncompletedIssuesUponClose);
    children := children + details;
    r := Ok(children[..Min(MAX_CHILDREN, |children|)]);
  }

  /** `build` for a cycle. */
  function BuildCyclePage(databaseId: string, teamKey: string, cycleName: string, inspectionDate: string, c: Cycle): Result<Page> {
    var children :- Children(c);
    Ok(BuildPage(databaseId, Properties(teamKey, cycleName, inspectionDate), children))
  }

  /** The report exists exactly when all three histories are non-empty; an
      empty scope history fails first, then an empty completed history, and
      only then an empty in-progress history. */
  lemma ChildrenOutcome(c: Cycle)
    ensures var r := Children(c);
      && (r.Ok? <==> c.scopeHistory != [] && c.completedScopeHistory != [] && c.inProgressScopeHistory != [])
      && (c.scopeHistory == [] ==> r == Err(ValueError))
      && (c.scopeHistory != [] && c.completedScopeHistory == [] ==> r == Err(IndexError))
      && (c.scopeHistory != [] && c.completedScopeHistory != [] && c.inProgressScopeHistory == [] ==> r == Err(ValueError))
  {
  }

  lemma ChildrenIs(c: Cycle)
    requires SummarySection(c).Ok? && EvolutionSection(c).Ok?
    ensures var all := AllChildren(SummarySection(c).value, EvolutionSection(c).value, c);
      Children(c) == Ok(all[..Min(MAX_CHILDREN, |all|)])
  {
  }

  /** The page has at most a hundred blocks: the eight of the summary, a
      divider, the seven of the evolution, a divider, and as much of the
      details as fits. */
  lemma ChildrenLayout(c: Cycle)
    requires Children(c).Ok?
    ensures var r := Children(c).value;
      var d := TicketDetails(DETAILS_TITLE, c.uncompletedIssuesUponClose);
      && |r| == Min(MAX_CHILDREN, 17 + |d|)
      && r[..8] == SummarySection(c).value
      && r[8] == Divider && r[9..16] == EvolutionSection(c).value && r[16] == Divider
      && r[17..] == d[..|r| - 17]
  {
    ChildrenIs(c);
    var s, e, d := SummarySection(c).value, EvolutionSection(c).value, TicketDetails(DETAILS_TITLE, c.uncompletedIssuesUponClose);
    assert AllChildren(s, e, c) == s + [Divider] + e + [Divider] + d;
    CutLayout(s, e, d);
  }

  lemma CutLayout(s: seq<Block>, e: seq<Block>, d: seq<Block>)
    requires |s| == 8 && |e| == 7
    ensures var all := s + [Divider] + e + [Divider] + d;
      var r := all[..Min(MAX_CHILDREN, |all|)];
      && |r| == Min(MAX_CHILDREN, 17 + |d|)
      && r[..8] == s && r[8] == Divider && r[9..16] == e && r[16] == Divider
      && r[17..] == d[..|r| - 17]
  {
    var all := s + [Divider] + e + [Divider] + d;
    var r := all[..Min(MAX_CHILDREN, |all|)];
    assert all[..8] == s && all[9..16] == e;
    assert r[..8] == all[..8];
    assert r[9..16] == all[9..16];
    assert r[17..] == all[17..|r|];
    assert all[17..|r|] == d[..|r| - 17];
  }

  /** A built report is a page of the cycle database for its cycle: the
      existence query finds it afterwards. */
  lemma PageIsCycleDoc(databaseId: string, teamKey: string, cycleName: string, inspectionDate: string, c: Cycle)
    requires BuildCyclePage(databaseId, teamKey, cycleName, inspectionDate, c).Ok?
    ensures IsCycleDoc(BuildCyclePage(databaseId, teamKey, cycleName, inspectionDate, c).value, databaseId, cycleName)
    ensures Get(BuildCyclePage(databaseId, teamKey, cycleName, inspectionDate, c).value.properties, "Nom")
            == TitleProp(teamKey + " - " + cycleName)
  {
  }
}
