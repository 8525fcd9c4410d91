/** The shared part of the three report builders: the page and block records,
    the colour tables, the chart blocks, the status section and the per-ticket
    details. */
module DocumentBuilder {
  import opened Wrappers
  import opened Text
  import opened Records
  import opened Dicts
  import opened Buckets
  import opened Sorting

  // ---------------------------------------------------------------------------
  // Page payload

  /** A line of a Gantt chart: `section {section}` then `{duration} : {begin}, {end}`. */
  datatype GanttItem = GanttItem(section: string, duration: int, begin: int, end: int)

  /** A content block. Charts keep the parts of their Mermaid text that the
      builder computes; the fixed template around them is not modelled. */
  datatype Block =
    | Heading1(text: string)
    | Heading2(text: string)
    | Heading2Link(linked: string, url: string, rest: string)
    | Paragraph(text: string)
    | BoldKeyParagraph(key: string, text: string)
    | GrayItalicParagraph(text: string)
    | BlankLine
    | Divider
    | BulletLink(identifier: string, url: string)
    | ColoredBullet(status: string, count: int, color: string)
    | Bullet(text: string)
      /** `themeColors[i]` is the theme variable `'pie{i+1}'` with its colour;
          `data` holds one `"key": value` line per entry, in order. */
    | PieChart(title: string, themeColors: seq<(string, string)>, data: Counts)
    | GanttChart(title: string, axisFormat: string, items: seq<GanttItem>)
    | XYChart(title: string, xLabels: seq<string>, yMax: int, bars: seq<int>)

  /** A typed page property. */
  datatype PropValue =
    | TitleProp(text: string)
    | NumberProp(number: int)
    | SelectProp(name: string)
    | DateProp(start: string)
    | RichTextProp(text: string)

  /** The payload of a page creation: parent database, icon, cover, properties, children. */
  datatype Page = Page(
    databaseId: string,
    icon: string,
    coverUrl: string,
    properties: Dict<PropValue>,
    children: seq<Block>)

  const ICON: string := "\U{1F50E}"
  const COVER_URL: string := "https://images.unsplash.com/photo-1593510987185-1ec2256148a3"
  const GENERATION_METHOD: string := "automated"

  // ---------------------------------------------------------------------------
  // Colour tables

  datatype Color = Color(name: string, hex: string)

  const COLOR_PER_STATUS: map<string, Color> := map[
    "Ready to Dev" := Color("blue", "#487CA5"),
    "Completed" := Color("green", "#548164"),
    "Ready to Go-Live" := Color("purple", "#8A67AB"),
    "Canceled" := Color("red", "#C4554D"),
    "Dev" := Color("yellow", "#C29343"),
    "Dev Review" := Color("pink", "#B65C8D"),
    "Backlog" := Color("gray", "#787774"),
    "Feedback" := Color("brown", "#986E58"),
    "Product Review" := Color("orange", "#CC782F")
  ]

  const SIMPLIFIED_COLOR_PER_STATUS: map<string, string> := map[
    "To Do" := "#487CA5",
    "Dev" := "#C29343",
    "Review" := "#B65C8D",
    "Done" := "#548164",
    "Canceled" := "#C4554D"
  ]

  /** The position of the first key that `table` lacks (`|s|` if none): where
      a loop doing `table[key]` over `s` raises `KeyError`. */
  function FirstMissing<V>(s: Counts, table: map<string, V>): (r: nat)
    ensures r <= |s|
    ensures r < |s| ==> s[r].0 !in table
    ensures forall j :: 0 <= j < r ==> s[j].0 in table
  {
    if s == [] then 0
    else if s[0].0 !in table then 0
    else 1 + FirstMissing(s[1..], table)
  }

  lemma FirstMissingIs<V>(s: Counts, table: map<string, V>, i: nat)
    requires i <= |s|
    requires i < |s| ==> s[i].0 !in table
    requires forall j :: 0 <= j < i ==> s[j].0 in table
    ensures FirstMissing(s, table) == i
  {
  }

  /** `table[key]['hex']` for each key, in order. */
  function Hexes(s: Counts, table: map<string, Color>): (hs: seq<string>)
    requires forall i :: 0 <= i < |s| ==> s[i].0 in table
    ensures |hs| == |s|
  {
    seq(|s|, i requires 0 <= i < |s| => table[s[i].0].hex)
  }

  /** One bullet per key, `{key}.` in the key's colour followed by its count. */
  function ColoredBullets(s: Counts, table: map<string, Color>): (bs: seq<Block>)
    requires forall i :: 0 <= i < |s| ==> s[i].0 in table
    ensures |bs| == |s|
    ensures forall i :: 0 <= i < |s| ==> bs[i] == ColoredBullet(s[i].0, s[i].1, table[s[i].0].name)
  {
    seq(|s|, i requires 0 <= i < |s| => ColoredBullet(s[i].0, s[i].1, table[s[i].0].name))
  }

  // ---------------------------------------------------------------------------
  // Chart blocks

  /** `nb_values_for_key`: the size of the bucket, 0 when there is none. */
  function NbValuesForKey<T>(m: Buckets<T>, k: string): (n: nat)
    ensures Has(m, k) ==> n == |Get(m, k)|
    ensures !Has(m, k) ==> n == 0
  {
    if Has(m, k) then |Get(m, k)| else 0
  }

  /** `_pie_chart_block`: the i-th colour becomes theme variable `pie{i+1}`,
      and the data lines follow the dict order. */
  function PieChartBlock(colors: seq<string>, title: string, data: Counts): (b: Block)
    ensures b.PieChart? && b.title == title && b.data == data
    ensures |b.themeColors| == |colors|
    ensures forall i :: 0 <= i < |colors| ==> b.themeColors[i] == ("pie" + NatStr(i + 1), colors[i])
  {
    PieChart(title, seq(|colors|, i requires 0 <= i < |colors| => ("pie" + NatStr(i + 1), colors[i])), data)
  }

  /** Every colour of a pie chart gets its own theme variable. */
  lemma PieThemeNamesDistinct(colors: seq<string>, title: string, data: Counts, i: nat, j: nat)
    requires i < j < |colors|
    ensures PieChartBlock(colors, title, data).themeColors[i].0 != PieChartBlock(colors, title, data).themeColors[j].0
  {
    var a, b := "pie" + NatStr(i + 1), "pie" + NatStr(j + 1);
    if a == b {
      assert a[3..] == NatStr(i + 1) && b[3..] == NatStr(j + 1);
      NatStrInjective(i + 1, j + 1);
    }
  }

  /** `max` of a non-empty list. */
  function MaxOf(s: seq<int>): (m: int)
    requires s != []
    ensures m in s
    ensures forall i :: 0 <= i < |s| ==> s[i] <= m
  {
    if |s| == 1 then s[0]
    else
      var rest := MaxOf(s[1..]);
      if s[0] >= rest then s[0] else rest
  }

  /** `_xychart_block`: x labels `d0`..`d{n-1}`, y axis from 0 to the largest
      value, one bar per value; `max` of an empty history raises. */
  function XYChartBlock(title: string, values: seq<int>): (r: Result<Block>)
    ensures r.Err? <==> values == []
    ensures r.Err? ==> r.error == ValueError
    ensures r.Ok? ==> r.value.XYChart? && r.value.title == title && r.value.bars == values
    ensures r.Ok? ==> r.value.yMax in values && forall i :: 0 <= i < |values| ==> values[i] <= r.value.yMax
    ensures r.Ok? ==> |r.value.xLabels| == |values|
    ensures r.Ok? ==> forall i :: 0 <= i < |values| ==> r.value.xLabels[i] == "d" + NatStr(i)
  {
    if values == [] then Err(ValueError)
    else Ok(XYChart(title, seq(|values|, i requires 0 <= i < |values| => "d" + NatStr(i)), MaxOf(values), values))
  }

  /** `build`: the parent database, the fixed icon and cover, then the
      report's properties and children. */
  function BuildPage(databaseId: string, properties: Dict<PropValue>, children: seq<Block>): (p: Page)
    ensures p.databaseId == databaseId && p.icon == ICON && p.coverUrl == COVER_URL
    ensures p.properties == properties && p.children == children
  {
    Page(databaseId, ICON, COVER_URL, properties, children)
  }

  /** One linked bullet per ticket, in order. */
  function LinkBullets(ts: seq<Ticket>): (bs: seq<Block>)
    ensures |bs| == |ts|
    ensures forall i :: 0 <= i < |ts| ==> bs[i] == BulletLink(ts[i].identifier, ts[i].url)
  {
    seq(|ts|, i requires 0 <= i < |ts| => BulletLink(ts[i].identifier, ts[i].url))
  }

  // ---------------------------------------------------------------------------
  // Ticket details

  /** The blocks of one ticket: linked heading, status, each date it has, blank line. */
  function TicketBlocks(t: Ticket): (bs: seq<Block>)
    ensures 3 <= |bs| <= 6
    ensures bs[0] == Heading2Link(t.identifier, t.url, " - " + t.title)
    ensures bs[1] == BoldKeyParagraph("Status. ", t.stateName)
    ensures bs[|bs| - 1] == BlankLine
    ensures |bs| == 3 + |DatesShown(t)|
  {
    [Heading2Link(t.identifier, t.url, " - " + t.title), BoldKeyParagraph("Status. ", t.stateName)]
    + DatesShown(t) + [BlankLine]
  }

  /** A paragraph for each date present, creation, start, resolution, in that order. */
  function DatesShown(t: Ticket): (bs: seq<Block>)
    ensures |bs| == (if t.createdAt.Some? then 1 else 0) + (if t.startedAt.Some? then 1 else 0)
                    + (if t.completedAt.Some? then 1 else 0)
    ensures forall b :: b in bs ==> b.BoldKeyParagraph?
  {
    (if t.createdAt.Some? then [BoldKeyParagraph("Creation Date. ", t.createdAt.value.text)] else [])
    + (if t.startedAt.Some? then [BoldKeyParagraph("Start Date. ", t.startedAt.value.text)] else [])
    + (if t.completedAt.Some? then [BoldKeyParagraph("Resolution Date. ", t.completedAt.value.text)] else [])
  }

  /** The blocks of all tickets, ticket after ticket. */
  function AllTicketBlocks(ts: seq<Ticket>): (bs: seq<Block>)
    ensures 3 * |ts| <= |bs| <= 6 * |ts|
  {
    if ts == [] then [] else AllTicketBlocks(ts[..|ts| - 1]) + TicketBlocks(ts[|ts| - 1])
  }

  /** `_ticket_details_blocks`: a title and a blank line, then each ticket's blocks. */
  function TicketDetails(title: string, ts: seq<Ticket>): (bs: seq<Block>)
    ensures 2 + 3 * |ts| <= |bs| <= 2 + 6 * |ts|
    ensures bs[..2] == [Heading1(title), BlankLine]
  {
    [Heading1(title), BlankLine] + AllTicketBlocks(ts)
  }

  /** The details loop. */
  method TicketDetailsBlocks(title: string, ticketList: seq<Ticket>) returns (children: seq<Block>)
    ensures children == TicketDetails(title, ticketList)
  {
    children := [Heading1(title), BlankLine];
    var i := 0;
    while i < |ticketList|
      invariant 0 <= i <= |ticketList|
      invariant children == TicketDetails(title, ticketList[..i])
    {
      var blocks := TicketBlocksOf(ticketList[i]);
      DetailsStep(title, ticketList, i);
      children := children + blocks;
      i := i + 1;
    }
    assert ticketList[..i] == ticketList;
  }

  /** The body of the details loop for one ticket. */
  method TicketBlocksOf(ticket: Ticket) returns (blocks: seq<Block>)
    ensures blocks == TicketBlocks(ticket)
  {
    blocks := [Heading2Link(ticket.identifier, ticket.url, " - " + ticket.title),
               BoldKeyParagraph("Status. ", ticket.stateName)];
    var dates: seq<Block> := [];
    if ticket.createdAt.Some? {
      dates := dates + [BoldKeyParagraph("Creation Date. ", ticket.createdAt.value.text)];
    }
    if ticket.startedAt.Some? {
      dates := dates + [BoldKeyParagraph("Start Date. ", ticket.startedAt.value.text)];
    }
    if ticket.completedAt.Some? {
      dates := dates + [BoldKeyParagraph("Resolution Date. ", ticket.completedAt.value.text)];
    }
    assert dates == DatesShown(ticket);
    blocks := blocks + dates + [BlankLine];
  }

  /** One more ticket adds its own blocks at the end. */
  lemma DetailsStep(title: string, ts: seq<Ticket>, i: nat)
    requires i < |ts|
    ensures TicketDetails(title, ts[..i + 1]) == TicketDetails(title, ts[..i]) + TicketBlocks(ts[i])
  {
    assert ts[..i + 1][..i] == ts[..i];
  }

  // ---------------------------------------------------------------------------
  // Status section

  /** The five simplified groups, in the order of the simplified pie data. */
  const SIMPLIFIED_KEYS: seq<string> := ["To Do", "Dev", "Review", "Done", "Canceled"]

  lemma SimplifiedKeysHaveColors()
    ensures forall i :: 0 <= i < |SIMPLIFIED_KEYS| ==> SIMPLIFIED_KEYS[i] in SIMPLIFIED_COLOR_PER_STATUS
  {
  }

  /** The simplified pie data: five groups of raw statuses, always all five, in this order. */
  function SimplifiedData<T>(m: Buckets<T>): (d: Counts)
    ensures |d| == |SIMPLIFIED_KEYS|
    ensures forall i :: 0 <= i < |d| ==> d[i].0 == SIMPLIFIED_KEYS[i]
  {
    [("To Do", NbValuesForKey(m, "Backlog") + NbValuesForKey(m, "Ready to Dev")),
     ("Dev", NbValuesForKey(m, "Dev")),
     ("Review", NbValuesForKey(m, "Dev Review") + NbValuesForKey(m, "Product Review") + NbValuesForKey(m, "Feedback")),
     ("Done", NbValuesForKey(m, "Ready to Go-Live") + NbValuesForKey(m, "Completed")),
     ("Canceled", NbValuesForKey(m, "Canceled"))]
  }

  /** The simplified colours, one per group in ascending count order. */
  function SimplifiedHexes(s: Counts): (hs: seq<string>)
    requires forall i :: 0 <= i < |s| ==> s[i].0 in SIMPLIFIED_COLOR_PER_STATUS
    ensures |hs| == |s|
  {
    seq(|s|, i requires 0 <= i < |s| => SIMPLIFIED_COLOR_PER_STATUS[s[i].0])
  }

  /** Sorting keeps every key inside a table. */
  lemma SortedKeysIn<V>(d: Counts, table: map<string, V>)
    requires forall i :: 0 <= i < |d| ==> d[i].0 in table
    ensures forall i :: 0 <= i < |SortByValue(d)| ==> SortByValue(d)[i].0 in table
  {
    SortedHasSameEntries(d);
    forall i | 0 <= i < |SortByValue(d)| ensures SortByValue(d)[i].0 in table {
      var e := SortByValue(d)[i];
      assert e in d;
      var j :| 0 <= j < |d| && d[j] == e;
    }
  }

  lemma SimplifiedKeysColored<T>(m: Buckets<T>)
    ensures forall i :: 0 <= i < |SortByValue(SimplifiedData(m))| ==>
      SortByValue(SimplifiedData(m))[i].0 in SIMPLIFIED_COLOR_PER_STATUS
  {
    SimplifiedKeysHaveColors();
    SortedKeysIn(SimplifiedData(m), SIMPLIFIED_COLOR_PER_STATUS);
  }

  /** The blocks after the exhaustive bullets, once all keys have a colour. */
  function StatusCharts<T>(m: Buckets<T>, s: Counts): (bs: seq<Block>)
    requires forall i :: 0 <= i < |s| ==> s[i].0 in COLOR_PER_STATUS
    ensures |bs| == 7
  {
    SimplifiedKeysColored(m);
    [BlankLine,
     Heading2("Exhaustive chart"),
     PieChartBlock(Hexes(s, COLOR_PER_STATUS), "tickets per status (exhaustive)", s),
     BlankLine,
     Heading2("Simplified chart"),
     PieChartBlock(SimplifiedHexes(SortByValue(SimplifiedData(m))), "tickets per status (simplified)", SimplifiedData(m)),
     BlankLine]
  }

  function StatusIntro(nbTickets: nat): (bs: seq<Block>)
    ensures |bs| == 2
  {
    [Heading1("Ticket status"),
     Paragraph("On " + NatStr(nbTickets) + " tickets, their status are split in the following:")]
  }

  /** `_status_blocks`: statuses in ascending bucket size, each with its colour;
      a status missing from the colour table raises `KeyError`. */
  function StatusSection<T>(m: Buckets<T>, nbTickets: nat): (r: Result<seq<Block>>)
  {
    var s := SortByValue(Sizes(m));
    var f := FirstMissing(s, COLOR_PER_STATUS);
    if f < |s| then Err(KeyError(s[f].0))
    else Ok(StatusBody(m, nbTickets, s))
  }

  /** The blocks of a status section whose statuses all have a colour. */
  function StatusBody<T>(m: Buckets<T>, nbTickets: nat, s: Counts): (r: seq<Block>)
    requires forall i :: 0 <= i < |s| ==> s[i].0 in COLOR_PER_STATUS
    ensures |r| == |s| + 9
    ensures r[2..|s| + 2] == ColoredBullets(s, COLOR_PER_STATUS)
  {
    MiddleOf(StatusIntro(nbTickets), ColoredBullets(s, COLOR_PER_STATUS), StatusCharts(m, s));
    StatusIntro(nbTickets) + ColoredBullets(s, COLOR_PER_STATUS) + StatusCharts(m, s)
  }

  /** The loop over keys in ascending bucket size shared by the status and
      type sections: a colour, a data line and a coloured bullet per key, or
      `KeyError` at the first key the table lacks. */
  method ColoredEntries(sorted: Counts, table: map<string, Color>) returns (r: Result<(seq<string>, Counts, seq<Block>)>)
    ensures FirstMissing(sorted, table) < |sorted| ==>
      r == Err(KeyError(sorted[FirstMissing(sorted, table)].0))
    ensures FirstMissing(sorted, table) == |sorted| ==>
      r == Ok((Hexes(sorted, table), sorted, ColoredBullets(sorted, table)))
  {
    var pieColors: seq<string> := [];
    var pieData: Counts := [];
    var bullets: seq<Block> := [];
    var i := 0;
    while i < |sorted|
      invariant 0 <= i <= |sorted|
      invariant forall j :: 0 <= j < i ==> sorted[j].0 in table
      invariant pieColors == Hexes(sorted[..i], table)
      invariant pieData == sorted[..i]
      invariant bullets == ColoredBullets(sorted[..i], table)
    {
      var key := sorted[i].0;
      if key !in table {
        FirstMissingIs(sorted, table, i);
        return Err(KeyError(key));
      }
      pieColors := pieColors + [table[key].hex];
      pieData := pieData + [(key, sorted[i].1)];
      bullets := bullets + [ColoredBullet(key, sorted[i].1, table[key].name)];
      assert sorted[..i + 1] == sorted[..i] + [sorted[i]];
      i := i + 1;
    }
    assert sorted[..i] == sorted;
    FirstMissingIs(sorted, table, i);
    r := Ok((pieColors, pieData, bullets));
  }

  /** The loop collecting the simplified colours. */
  method SimplifiedColors(sorted: Counts) returns (colors: seq<string>)
    requires forall i :: 0 <= i < |sorted| ==> sorted[i].0 in SIMPLIFIED_COLOR_PER_STATUS
    ensures colors == SimplifiedHexes(sorted)
  {
    colors := [];
    var j := 0;
    while j < |sorted|
      invariant 0 <= j <= |sorted|
      invariant colors == SimplifiedHexes(sorted[..j])
    {
      colors := colors + [SIMPLIFIED_COLOR_PER_STATUS[sorted[j].0]];
      assert sorted[..j + 1] == sorted[..j] + [sorted[j]];
      j := j + 1;
    }
    assert sorted[..j] == sorted;
  }

  /** `_status_blocks`. */
  method StatusBlocks<T>(ticketsPerStatus: Buckets<T>, nbTickets: nat) returns (r: Result<seq<Block>>)
    ensures r == StatusSection(ticketsPerStatus, nbTickets)
  {
    var sorted := SortByValue(Sizes(ticketsPerStatus));
    var exhaustive :- ColoredEntries(sorted, COLOR_PER_STATUS);
    var (pieColors, pieData, bullets) := exhaustive;
    assert FirstMissing(sorted, COLOR_PER_STATUS) == |sorted|;
    var charts := ChartBlocks(ticketsPerStatus, sorted, pieColors);
    StatusSectionOfColored(ticketsPerStatus, nbTickets);
    r := Ok(StatusIntro(nbTickets) + bullets + charts);
  }

  lemma StatusSectionOfColored<T>(m: Buckets<T>, nbTickets: nat)
    requires FirstMissing(SortByValue(Sizes(m)), COLOR_PER_STATUS) == |SortByValue(Sizes(m))|
    requires forall i :: 0 <= i < |SortByValue(Sizes(m))| ==> SortByValue(Sizes(m))[i].0 in COLOR_PER_STATUS
    ensures StatusSection(m, nbTickets) == Ok(StatusIntro(nbTickets) + ColoredBullets(SortByValue(Sizes(m)), COLOR_PER_STATUS)
                                                + StatusCharts(m, SortByValue(Sizes(m))))
  {
  }

  /** The two pie charts of the status section, each between blank lines under its own heading. */
  method ChartBlocks<T>(ticketsPerStatus: Buckets<T>, sorted: Counts, pieColors: seq<string>) returns (charts: seq<Block>)
    requires forall i :: 0 <= i < |sorted| ==> sorted[i].0 in COLOR_PER_STATUS
    requires pieColors == Hexes(sorted, COLOR_PER_STATUS)
    ensures charts == StatusCharts(ticketsPerStatus, sorted)
  {
    var simplified := SimplifiedData(ticketsPerStatus);
    SimplifiedKeysColored(ticketsPerStatus);
    var simplifiedColors := SimplifiedColors(SortByValue(simplified));
    charts := [BlankLine, Heading2("Exhaustive chart"),
               PieChartBlock(pieColors, "tickets per status (exhaustive)", sorted),
               BlankLine, Heading2("Simplified chart"),
               PieChartBlock(simplifiedColors, "tickets per status (simplified)", simplified), BlankLine];
  }

  // ---------------------------------------------------------------------------
  // Properties of the status section

  /** The nine statuses of the colour table, in the order the simplified chart groups them. */
  const STATUSES: seq<string> := ["Backlog", "Ready to Dev", "Dev", "Dev Review", "Product Review",
                                  "Feedback", "Ready to Go-Live", "Completed", "Canceled"]

  lemma StatusesDistinct()
    ensures forall i, j :: 0 <= i < j < |STATUSES| ==> STATUSES[i] != STATUSES[j]
  {
  }

  lemma ColoredIsStatus(k: string)
    requires k in COLOR_PER_STATUS
    ensures k in STATUSES
  {
  }

  /** The sum of the counts. */
  function Total(c: Counts): int {
    if c == [] then 0 else c[0].1 + Total(c[1..])
  }

  /** The sorted sizes carry each key of the dict once, with its bucket size. */
  lemma SortedSizes<T>(m: Buckets<T>)
    requires DistinctKeys(m)
    ensures forall e :: e in SortByValue(Sizes(m)) ==> Has(m, e.0) && e.1 == |Get(m, e.0)|
    ensures forall i :: 0 <= i < |m| ==> Sizes(m)[i] in SortByValue(Sizes(m))
  {
    SortedHasSameEntries(Sizes(m));
    forall e | e in SortByValue(Sizes(m)) ensures Has(m, e.0) && e.1 == |Get(m, e.0)| {
      var j :| 0 <= j < |Sizes(m)| && Sizes(m)[j] == e;
      GetAt(m, j);
    }
  }

  /** The lookup loop over the sorted sizes of a dict runs through exactly
      when every key of the dict is in the table; otherwise it stops at a key
      of the dict that the table lacks. */
  lemma SortedSizesColored<T>(m: Buckets<T>, table: map<string, Color>)
    requires DistinctKeys(m)
    ensures FirstMissing(SortByValue(Sizes(m)), table) == |m| <==> forall i :: 0 <= i < |m| ==> m[i].0 in table
    ensures FirstMissing(SortByValue(Sizes(m)), table) < |m| ==>
      var k := SortByValue(Sizes(m))[FirstMissing(SortByValue(Sizes(m)), table)].0;
      Has(m, k) && k !in table
  {
    var s := SortByValue(Sizes(m));
    SortedSizes(m);
    var f := FirstMissing(s, table);
    if f < |s| {
      assert s[f] in s;
    } else {
      forall i | 0 <= i < |m| ensures m[i].0 in table {
        var j :| 0 <= j < |s| && s[j] == Sizes(m)[i];
      }
    }
  }

  /** The section succeeds exactly when every status has a colour; otherwise
      the error names a status of the dict that has no colour. */
  lemma StatusSectionOutcome<T>(m: Buckets<T>, nbTickets: nat)
    requires DistinctKeys(m)
    ensures StatusSection(m, nbTickets).Ok? <==> forall i :: 0 <= i < |m| ==> m[i].0 in COLOR_PER_STATUS
    ensures StatusSection(m, nbTickets).Err? ==>
      StatusSection(m, nbTickets).error.KeyError? &&
      Has(m, StatusSection(m, nbTickets).error.key) &&
      StatusSection(m, nbTickets).error.key !in COLOR_PER_STATUS
  {
    SortedSizesColored(m, COLOR_PER_STATUS);
    var s := SortByValue(Sizes(m));
    var f := FirstMissing(s, COLOR_PER_STATUS);
    if f < |s| {
      assert StatusSection(m, nbTickets) == Err(KeyError(s[f].0));
    } else {
      assert StatusSection(m, nbTickets).Ok?;
    }
  }

  lemma StatusSectionIs<T>(m: Buckets<T>, nbTickets: nat)
    requires FirstMissing(SortByValue(Sizes(m)), COLOR_PER_STATUS) == |m|
    ensures StatusSection(m, nbTickets) == Ok(StatusBody(m, nbTickets, SortByValue(Sizes(m))))
  {
  }

  /** The bullets over the sorted sizes of a dict: one per key, by ascending count. */
  lemma SizeBullets<T>(m: Buckets<T>, table: map<string, Color>)
    requires DistinctKeys(m)
    requires forall i :: 0 <= i < |m| ==> SortByValue(Sizes(m))[i].0 in table
    ensures var bs := ColoredBullets(SortByValue(Sizes(m)), table);
      && (forall b :: b in bs ==> b.ColoredBullet? && Has(m, b.status) && b.count == |Get(m, b.status)|
                                  && b.status in table && b.color == table[b.status].name)
      && (forall i, j :: 0 <= i < j < |bs| ==> bs[i].count <= bs[j].count)
      && (forall i :: 0 <= i < |m| ==> exists b :: b in bs && b.status == m[i].0)
  {
    SizeBulletEntries(m, table);
    SizeBulletsCover(m, table);
  }

  lemma SizeBulletEntries<T>(m: Buckets<T>, table: map<string, Color>)
    requires DistinctKeys(m)
    requires forall i :: 0 <= i < |m| ==> SortByValue(Sizes(m))[i].0 in table
    ensures forall b :: b in ColoredBullets(SortByValue(Sizes(m)), table) ==>
      b.ColoredBullet? && Has(m, b.status) && b.count == |Get(m, b.status)|
  {
    var s := SortByValue(Sizes(m));
    SortedSizes(m);
    var bs := ColoredBullets(s, table);
    forall b | b in bs
      ensures b.ColoredBullet? && Has(m, b.status) && b.count == |Get(m, b.status)|
    {
      var i :| 0 <= i < |bs| && bs[i] == b;
      assert s[i] in s;
    }
  }

  lemma SizeBulletsCover<T>(m: Buckets<T>, table: map<string, Color>)
    requires DistinctKeys(m)
    requires forall i :: 0 <= i < |m| ==> SortByValue(Sizes(m))[i].0 in table
    ensures forall i :: 0 <= i < |m| ==> exists b :: b in ColoredBullets(SortByValue(Sizes(m)), table) && b.status == m[i].0
  {
    var s := SortByValue(Sizes(m));
    SortedSizes(m);
    var bs := ColoredBullets(s, table);
    forall i | 0 <= i < |m| ensures exists b :: b in bs && b.status == m[i].0 {
      var j :| 0 <= j < |s| && s[j] == Sizes(m)[i];
      assert bs[j] in bs;
    }
  }

  /** A successful section lists every status once, by ascending number of
      tickets, with its count and colour, between two intro blocks and seven
      chart blocks. */
  lemma StatusSectionContents<T>(m: Buckets<T>, nbTickets: nat)
    requires DistinctKeys(m) && StatusSection(m, nbTickets).Ok?
    ensures |StatusSection(m, nbTickets).value| == |m| + 9
    ensures var bs := StatusSection(m, nbTickets).value[2..|m| + 2];
      && (forall b :: b in bs ==> b.ColoredBullet? && Has(m, b.status) && b.count == |Get(m, b.status)|
                                  && b.status in COLOR_PER_STATUS && b.color == COLOR_PER_STATUS[b.status].name)
      && (forall i, j :: 0 <= i < j < |bs| ==> bs[i].count <= bs[j].count)
      && (forall i :: 0 <= i < |m| ==> exists b :: b in bs && b.status == m[i].0)
  {
    StatusSectionLayout(m, nbTickets);
    SizeBullets(m, COLOR_PER_STATUS);
  }

  /** A successful section is two intro blocks, the coloured bullets of the
      sorted sizes, and seven chart blocks. */
  lemma StatusSectionLayout<T>(m: Buckets<T>, nbTickets: nat)
    requires StatusSection(m, nbTickets).Ok?
    ensures forall i :: 0 <= i < |m| ==> SortByValue(Sizes(m))[i].0 in COLOR_PER_STATUS
    ensures |StatusSection(m, nbTickets).value| == |m| + 9
    ensures StatusSection(m, nbTickets).value[2..|m| + 2] == ColoredBullets(SortByValue(Sizes(m)), COLOR_PER_STATUS)
  {
    assert FirstMissing(SortByValue(Sizes(m)), COLOR_PER_STATUS) == |m|;
    StatusSectionIs(m, nbTickets);
  }

  /** Where the middle part of three concatenated parts sits. */
  lemma MiddleOf<T>(a: seq<T>, b: seq<T>, c: seq<T>)
    ensures |a + b + c| == |a| + |b| + |c|
    ensures (a + b + c)[|a|..|a| + |b|] == b
  {
    assert (a + b + c)[|a|..|a| + |b|] == b;
  }

  /** `nb_values_for_key` summed over a list of keys. */
  function SumNb<T>(m: Buckets<T>, ks: seq<string>): nat {
    if ks == [] then 0 else NbValuesForKey(m, ks[0]) + SumNb(m, ks[1..])
  }

  lemma SumNbStep<T>(m: Buckets<T>, ks: seq<string>, i: nat)
    requires i < |ks|
    ensures SumNb(m, ks[i..]) == NbValuesForKey(m, ks[i]) + SumNb(m, ks[i + 1..])
  {
    assert ks[i..][1..] == ks[i + 1..];
  }

  lemma TotalStep(c: Counts, i: nat)
    requires i < |c|
    ensures Total(c[i..]) == c[i].1 + Total(c[i + 1..])
  {
    assert c[i..][1..] == c[i + 1..];
  }

  /** The five simplified counts add up to the nine raw ones. */
  lemma SimplifiedRegroups<T>(m: Buckets<T>)
    ensures Total(SimplifiedData(m)) == SumNb(m, STATUSES)
  {
    var d := SimplifiedData(m);
    TotalOfFive(d);
    SumNbOfNine(m, STATUSES);
  }

  lemma TotalOfFive(c: Counts)
    requires |c| == 5
    ensures Total(c) == c[0].1 + c[1].1 + c[2].1 + c[3].1 + c[4].1
  {
    TotalStep(c, 0); TotalStep(c, 1); TotalStep(c, 2); TotalStep(c, 3); TotalStep(c, 4);
    assert c[5..] == [];
    assert c[0..] == c;
  }

  lemma SumNbOfNine<T>(m: Buckets<T>, ks: seq<string>)
    requires |ks| == 9
    ensures SumNb(m, ks) == NbValuesForKey(m, ks[0]) + NbValuesForKey(m, ks[1]) + NbValuesForKey(m, ks[2])
      + NbValuesForKey(m, ks[3]) + NbValuesForKey(m, ks[4]) + NbValuesForKey(m, ks[5])
      + NbValuesForKey(m, ks[6]) + NbValuesForKey(m, ks[7]) + NbValuesForKey(m, ks[8])
  {
    SumNbStep(m, ks, 0); SumNbStep(m, ks, 1); SumNbStep(m, ks, 2);
    SumNbStep(m, ks, 3); SumNbStep(m, ks, 4); SumNbStep(m, ks, 5);
    SumNbStep(m, ks, 6); SumNbStep(m, ks, 7); SumNbStep(m, ks, 8);
    assert ks[9..] == [];
    assert ks[0..] == ks;
  }

  /** Over a grouping, the bucket sizes of some keys are their counts in the input. */
  lemma {:induction false} SumNbCounts<T>(m: Buckets<T>, xs: seq<T>, keyOf: T -> string, ks: seq<string>)
    requires IsGrouping(m, xs, keyOf)
    ensures SumNb(m, ks) == BucketTotal(ks, xs, keyOf)
  {
    if ks != [] {
      GroupingCount(m, xs, keyOf, ks[0]);
      SumNbCounts(m, xs, keyOf, ks[1..]);
    }
  }

  /** A grouping whose keys all have a colour groups elements whose keys are the nine statuses. */
  lemma KeysAreStatuses<T>(m: Buckets<T>, xs: seq<T>, keyOf: T -> string)
    requires IsGrouping(m, xs, keyOf)
    requires forall i :: 0 <= i < |m| ==> m[i].0 in COLOR_PER_STATUS
    ensures forall j :: 0 <= j < |xs| ==> keyOf(xs[j]) in STATUSES
  {
    forall j | 0 <= j < |xs| ensures keyOf(xs[j]) in STATUSES {
      OccursHas(m, xs, keyOf, j);
      var i := IndexOf(m, keyOf(xs[j]));
      ColoredIsStatus(m[i].0);
    }
  }

  /** When the section succeeds, the simplified chart accounts for every ticket. */
  lemma SimplifiedCountsAll(tickets: seq<Ticket>, nbTickets: nat)
    requires StatusSection(GroupOf(tickets, StatusOf), nbTickets).Ok?
    ensures Total(SimplifiedData(GroupOf(tickets, StatusOf))) == |tickets|
  {
    var m := GroupOf(tickets, StatusOf);
    GroupOfIsGrouping(tickets, StatusOf);
    StatusSectionOutcome(m, nbTickets);
    KeysAreStatuses(m, tickets, StatusOf);
    StatusesDistinct();
    BucketTotalAll(STATUSES, tickets, StatusOf);
    SumNbCounts(m, tickets, StatusOf, STATUSES);
    SimplifiedRegroups(m);
  }
}
