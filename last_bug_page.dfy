/** The bug report: the shared status section, the resolution-time section
    and the details of the last bugs, under the properties of the bug database. */
module BugPage {
  import opened Wrappers
  import opened Text
  import opened Records
  import opened Dicts
  import opened Buckets
  import opened DocumentBuilder

  /** `_properties_block`: the bug database spells its properties differently. */
  function Properties(teamKey: string, inspectionDate: string, nbTickets: nat): (ps: Dict<PropValue>)
    ensures DistinctKeys(ps)
    ensures Keys(ps) == ["Name", "Nb Tickets", "Generation Method", "Date of Inspection"]
    ensures Has(ps, "Name") && Has(ps, "Nb Tickets") && Has(ps, "Generation Method") && Has(ps, "Date of Inspection")
    ensures Get(ps, "Name") == TitleProp(teamKey + " - " + inspectionDate)
    ensures Get(ps, "Nb Tickets") == NumberProp(nbTickets)
    ensures Get(ps, "Generation Method") == SelectProp(GENERATION_METHOD)
    ensures Get(ps, "Date of Inspection") == DateProp(inspectionDate)
  {
    var ps := [("Name", TitleProp(teamKey + " - " + inspectionDate)),
               ("Nb Tickets", NumberProp(nbTickets)),
               ("Generation Method", SelectProp(GENERATION_METHOD)),
               ("Date of Inspection", DateProp(inspectionDate))];
    GetAt(ps, 0); GetAt(ps, 1); GetAt(ps, 2); GetAt(ps, 3);
    ps
  }

  /** The bullet, caveat and blank line of one statistic; `int()` truncates the mean. */
  function StatisticBlocks(sentence: string, d: Delta): (bs: seq<Block>)
    ensures |bs| == 3
  {
    [Bullet(sentence + IntStr(Truncate(d.valueHours)) + "hours."),
     GrayItalicParagraph("(computation made on " + NatStr(d.sampleSize) + " tickets)"),
     BlankLine]
  }

  const CREATION_TO_START: string := "The average time between a ticket creation and the beginning of the work is "
  const START_TO_RESOLUTION: string := "The average time between a ticket start and its resolution is "
  const CREATION_TO_RESOLUTION: string := "The average time between a ticket creation and its resolution is "

  /** The three segments of the chart, from the truncated means. */
  function GanttItems(crSt: int, stCp: int, crCp: int): seq<GanttItem> {
    [GanttItem("creation -> resolution", crCp, 0, crCp),
     GanttItem("creation -> work start", crSt, 0, crSt),
     GanttItem("work start -> resolution", stCp, crSt, crCp)]
  }

  /** `_resolution_time_blocks`: subscripting a missing statistic raises `TypeError`. */
  function ResolutionSection(nbTickets: nat, td: Timedelta): Result<seq<Block>> {
    if td.createdStarted.None? || td.startedCompleted.None? || td.createdCompleted.None? then Err(TypeError)
    else
      var crSt := td.createdStarted.value;
      var stCp := td.startedCompleted.value;
      var crCp := td.createdCompleted.value;
      Ok(ResolutionHead(nbTickets)
         + StatisticBlocks(CREATION_TO_START, crSt)
         + StatisticBlocks(START_TO_RESOLUTION, stCp)
         + StatisticBlocks(CREATION_TO_RESOLUTION, crCp)
         + ResolutionTail(crSt, stCp, crCp))
  }

  function ResolutionHead(nbTickets: nat): (bs: seq<Block>)
    ensures |bs| == 3
  {
    [Heading1("Resolution time"), BlankLine, Paragraph("On the " + NatStr(nbTickets) + " bug tickets analyzed:")]
  }

  /** The chart heading and the chart. */
  function ResolutionTail(crSt: Delta, stCp: Delta, crCp: Delta): (bs: seq<Block>)
    ensures |bs| == 2
  {
    [Heading2("Chart"),
     GanttChart("average time between creation, dev and resolution (in hours)", "%H",
                GanttItems(Truncate(crSt.valueHours), Truncate(stCp.valueHours), Truncate(crCp.valueHours)))]
  }

  /** The title of the details section. */
  function DetailsTitle(lastTickets: seq<Ticket>): string {
    "Last " + NatStr(|lastTickets|) + " bugs synthesis"
  }

  /** `_children_block`: status, divider, resolution time, divider, details. */
  function Children(nbTickets: nat, perStatus: Buckets<Ticket>, td: Timedelta, lastTickets: seq<Ticket>): Result<seq<Block>> {
    var status :- StatusSection(perStatus, nbTickets);
    var resolution :- ResolutionSection(nbTickets, td);
    Ok(status + [Divider] + resolution + [Divider] + TicketDetails(DetailsTitle(lastTickets), lastTickets))
  }

  /** `build` for the bug report. */
  function BuildBugPage(databaseId: string, teamKey: string, inspectionDate: string, nbTickets: nat,
                        perStatus: Buckets<Ticket>, td: Timedelta, lastTickets: seq<Ticket>): Result<Page>
  {
    var children :- Children(nbTickets, perStatus, td, lastTickets);
    Ok(BuildPage(databaseId, Properties(teamKey, inspectionDate, nbTickets), children))
  }

  // ---------------------------------------------------------------------------
  // Properties

  /** The section exists exactly when all three statistics do, and then has
      fourteen blocks. */
  lemma ResolutionOutcome(nbTickets: nat, td: Timedelta)
    ensures var r := ResolutionSection(nbTickets, td);
      && (r.Ok? <==> td.createdStarted.Some? && td.startedCompleted.Some? && td.createdCompleted.Some?)
      && (r.Err? ==> r.error == TypeError)
      && (r.Ok? ==> |r.value| == 14)
  {
  }

  /** Each bullet shows the integer part of its mean and each caveat its sample size. */
  lemma ResolutionBullets(nbTickets: nat, td: Timedelta)
    ensures var r := ResolutionSection(nbTickets, td);
      (r.Ok? ==>
            r.value[3] == Bullet(CREATION_TO_START + IntStr(Truncate(td.createdStarted.value.valueHours)) + "hours.") &&
            r.value[4] == GrayItalicParagraph("(computation made on " + NatStr(td.createdStarted.value.sampleSize) + " tickets)") &&
            r.value[6] == Bullet(START_TO_RESOLUTION + IntStr(Truncate(td.startedCompleted.value.valueHours)) + "hours.") &&
            r.value[7] == GrayItalicParagraph("(computation made on " + NatStr(td.startedCompleted.value.sampleSize) + " tickets)") &&
            r.value[9] == Bullet(CREATION_TO_RESOLUTION + IntStr(Truncate(td.createdCompleted.value.valueHours)) + "hours.") &&
            r.value[10] == GrayItalicParagraph("(computation made on " + NatStr(td.createdCompleted.value.sampleSize) + " tickets)"))
  {
    if ResolutionSection(nbTickets, td).Ok? {
      SectionParts(ResolutionHead(nbTickets), StatisticBlocks(CREATION_TO_START, td.createdStarted.value),
                   StatisticBlocks(START_TO_RESOLUTION, td.startedCompleted.value),
                   StatisticBlocks(CREATION_TO_RESOLUTION, td.createdCompleted.value),
                   ResolutionTail(td.createdStarted.value, td.startedCompleted.value, td.createdCompleted.value));
    }
  }

  /** Where the parts of the resolution section sit. */
  lemma SectionParts<T>(h: seq<T>, a: seq<T>, b: seq<T>, c: seq<T>, t: seq<T>)
    requires |h| == 3 && |a| == 3 && |b| == 3 && |c| == 3 && |t| == 2
    ensures var r := h + a + b + c + t;
      && |r| == 14
      && r[3] == a[0] && r[4] == a[1] && r[6] == b[0] && r[7] == b[1] && r[9] == c[0] && r[10] == c[1]
      && r[13] == t[1]
  {
  }

  /** The chart: the two segments from creation start at 0 and end at their
      own mean; the segment from work start starts where the creation-to-start
      segment ends, ends where creation-to-resolution ends, and lasts the
      start-to-resolution mean. */
  lemma ResolutionChart(nbTickets: nat, td: Timedelta)
    requires ResolutionSection(nbTickets, td).Ok?
    ensures var chart := ResolutionSection(nbTickets, td).value[13];
      && chart.GanttChart? && chart.axisFormat == "%H" && |chart.items| == 3
      && chart.items[0].begin == 0 && chart.items[1].begin == 0
      && chart.items[0].duration == chart.items[0].end == Truncate(td.createdCompleted.value.valueHours)
      && chart.items[1].duration == chart.items[1].end == Truncate(td.createdStarted.value.valueHours)
      && chart.items[2].begin == chart.items[1].end
      && chart.items[2].end == chart.items[0].end
      && chart.items[2].duration == Truncate(td.startedCompleted.value.valueHours)
  {
    SectionParts(ResolutionHead(nbTickets), StatisticBlocks(CREATION_TO_START, td.createdStarted.value),
                 StatisticBlocks(START_TO_RESOLUTION, td.startedCompleted.value),
                 StatisticBlocks(CREATION_TO_RESOLUTION, td.createdCompleted.value),
                 ResolutionTail(td.createdStarted.value, td.startedCompleted.value, td.createdCompleted.value));
  }

  lemma ChildrenIs(nbTickets: nat, perStatus: Buckets<Ticket>, td: Timedelta, lastTickets: seq<Ticket>)
    requires StatusSection(perStatus, nbTickets).Ok? && ResolutionSection(nbTickets, td).Ok?
    ensures Children(nbTickets, perStatus, td, lastTickets) ==
      Ok(StatusSection(perStatus, nbTickets).value + [Divider] + ResolutionSection(nbTickets, td).value + [Divider]
         + TicketDetails(DetailsTitle(lastTickets), lastTickets))
  {
  }

  /** The children exist when both sections do; the first section that
      fails decides the error. */
  lemma ChildrenOutcome(nbTickets: nat, perStatus: Buckets<Ticket>, td: Timedelta, lastTickets: seq<Ticket>)
    ensures var r := Children(nbTickets, perStatus, td, lastTickets);
      var s, res := StatusSection(perStatus, nbTickets), ResolutionSection(nbTickets, td);
      && (r.Ok? <==> s.Ok? && res.Ok?)
      && (s.Err? ==> r == Err(s.error))
      && (s.Ok? && res.Err? ==> r == Err(TypeError))
  {
    ResolutionOutcome(nbTickets, td);
  }

  /** The children are the status section, a divider, the fourteen blocks of
      the resolution section, a divider and the details of the given tickets
      titled by their number. */
  lemma ChildrenLayout(nbTickets: nat, perStatus: Buckets<Ticket>, td: Timedelta, lastTickets: seq<Ticket>)
    requires Children(nbTickets, perStatus, td, lastTickets).Ok?
    ensures var r := Children(nbTickets, perStatus, td, lastTickets).value;
      var s := StatusSection(perStatus, nbTickets).value;
      var d := TicketDetails(DetailsTitle(lastTickets), lastTickets);
      && |r| == |s| + 16 + |d|
      && r[..|s|] == s
      && r[|s|] == Divider && r[|s| + 15] == Divider
      && r[|s| + 16..] == d
  {
    ResolutionOutcome(nbTickets, td);
    ChildrenIs(nbTickets, perStatus, td, lastTickets);
    SectionsLayout(StatusSection(perStatus, nbTickets).value, ResolutionSection(nbTickets, td).value,
                   TicketDetails(DetailsTitle(lastTickets), lastTickets));
  }

  lemma SectionsLayout(a: seq<Block>, b: seq<Block>, d: seq<Block>)
    requires |b| == 14
    ensures var r := a + [Divider] + b + [Divider] + d;
      && |r| == |a| + 16 + |d|
      && r[..|a|] == a
      && r[|a|] == Divider && r[|a| + 15] == Divider
      && r[|a| + 16..] == d
  {
    var r := a + [Divider] + b + [Divider] + d;
    assert r[..|a|] == a;
    assert r[|a| + 16..] == d;
  }
}
