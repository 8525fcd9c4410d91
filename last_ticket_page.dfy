/** The ticket report: a description section, the shared status section and a
    type section, under the properties of the ticket database. */
module TicketPage {
  import opened Wrappers
  import opened Text
  import opened Records
  import opened Dicts
  import opened Buckets
  import opened Sorting
  import opened DocumentBuilder
  import opened TicketAnalysisService

  const COLOR_PER_DESCRIPTION: map<string, Color> := map[
    "No Description" := Color("red", "#C4554D"),
    "Description" := Color("blue", "#487CA5")
  ]

  const COLOR_PER_TYPE: map<string, Color> := map[
    "Bug" := Color("red", "#C4554D"),
    "Tech Task" := Color("yellow", "#C29343"),
    "Product Task with a project" := Color("blue", "#487CA5"),
    "Product Task without a project" := Color("green", "#548164")
  ]

  /** `_properties_block`: the page title is the team key and the inspection date. */
  function Properties(teamKey: string, inspectionDate: string, nbTickets: nat): (ps: Dict<PropValue>)
    ensures DistinctKeys(ps)
    ensures Keys(ps) == ["Nom", "nb_tickets", "generation method", "Date of inspection"]
    ensures Has(ps, "Nom") && Has(ps, "nb_tickets") && Has(ps, "generation method") && Has(ps, "Date of inspection")
    ensures Get(ps, "Nom") == TitleProp(teamKey + " - " + inspectionDate)
    ensures Get(ps, "nb_tickets") == NumberProp(nbTickets)
    ensures Get(ps, "generation method") == SelectProp(GENERATION_METHOD)
    ensures Get(ps, "Date of inspection") == DateProp(inspectionDate)
  {
    var ps := [("Nom", TitleProp(teamKey + " - " + inspectionDate)),
               ("nb_tickets", NumberProp(nbTickets)),
               ("generation method", SelectProp(GENERATION_METHOD)),
               ("Date of inspection", DateProp(inspectionDate))];
    GetAt(ps, 0); GetAt(ps, 1); GetAt(ps, 2); GetAt(ps, 3);
    ps
  }

  // ---------------------------------------------------------------------------
  // Description section

  /** The seven blocks before the list of tickets without description. */
  function DescriptionHead(m: Buckets<Ticket>, nbTickets: nat, colors: seq<string>, data: Counts): (h: seq<Block>)
    ensures |h| == 7
  {
    [Heading1("Ticket description"),
     Paragraph("On " + NatStr(nbTickets) + " tickets, " + NatStr(NbValuesForKey(m, "Description"))
               + " have a description."),
     BlankLine,
     Heading2("Chart"),
     PieChartBlock(colors, "Tickets with a description", data),
     BlankLine,
     Heading2("List of tickets without description")]
  }

  /** `_description_blocks` as written: the list reads `'No Description'`
      directly, so a dict without that key raises `KeyError`. */
  function DescriptionSectionAsWritten(m: Buckets<Ticket>, nbTickets: nat): Result<seq<Block>> {
    var s := SortByValue(Sizes(m));
    var f := FirstMissing(s, COLOR_PER_DESCRIPTION);
    if f < |s| then Err(KeyError(s[f].0))
    else if !Has(m, "No Description") then Err(KeyError("No Description"))
    else Ok(DescriptionHead(m, nbTickets, Hexes(s, COLOR_PER_DESCRIPTION), s)
            + LinkBullets(Get(m, "No Description")) + [BlankLine])
  }

  /** The tickets without a description: the bucket, or none when it is absent. */
  function WithoutDescription(m: Buckets<Ticket>): (ts: seq<Ticket>)
    ensures |ts| == NbValuesForKey(m, "No Description")
  {
    if Has(m, "No Description") then Get(m, "No Description") else []
  }

  /** `_description_blocks`, reading an absent `'No Description'` bucket as empty. */
  function DescriptionSection(m: Buckets<Ticket>, nbTickets: nat): Result<seq<Block>> {
    var s := SortByValue(Sizes(m));
    var f := FirstMissing(s, COLOR_PER_DESCRIPTION);
    if f < |s| then Err(KeyError(s[f].0))
    else Ok(DescriptionHead(m, nbTickets, Hexes(s, COLOR_PER_DESCRIPTION), s)
            + LinkBullets(WithoutDescription(m)) + [BlankLine])
  }

  lemma DescriptionSectionIs(m: Buckets<Ticket>, nbTickets: nat)
    requires DescriptionSection(m, nbTickets).Ok?
    ensures DescriptionSection(m, nbTickets) ==
      Ok(DescriptionHead(m, nbTickets, Hexes(SortByValue(Sizes(m)), COLOR_PER_DESCRIPTION), SortByValue(Sizes(m)))
         + LinkBullets(WithoutDescription(m)) + [BlankLine])
  {
  }

  lemma DescriptionAsWrittenIs(m: Buckets<Ticket>, nbTickets: nat)
    requires FirstMissing(SortByValue(Sizes(m)), COLOR_PER_DESCRIPTION) == |m|
    ensures !Has(m, "No Description") ==> DescriptionSectionAsWritten(m, nbTickets) == Err(KeyError("No Description"))
    ensures Has(m, "No Description") ==>
      (DescriptionSectionAsWritten(m, nbTickets) ==
       Ok(DescriptionHead(m, nbTickets, Hexes(SortByValue(Sizes(m)), COLOR_PER_DESCRIPTION), SortByValue(Sizes(m)))
          + LinkBullets(Get(m, "No Description")) + [BlankLine]))
  {
  }

  /** The loop over the description keys in ascending size: a colour and a
      data line per key, or `KeyError` at the first key the table lacks. */
  method PieEntries(sorted: Counts, table: map<string, Color>) returns (r: Result<(seq<string>, Counts)>)
    ensures FirstMissing(sorted, table) < |sorted| ==>
      r == Err(KeyError(sorted[FirstMissing(sorted, table)].0))
    ensures FirstMissing(sorted, table) == |sorted| ==> r == Ok((Hexes(sorted, table), sorted))
  {
    var pieColors: seq<string> := [];
    var pieData: Counts := [];
    var i := 0;
    while i < |sorted|
      invariant 0 <= i <= |sorted|
      invariant forall j :: 0 <= j < i ==> sorted[j].0 in table
      invariant pieColors == Hexes(sorted[..i], table)
      invariant pieData == sorted[..i]
    {
      var desc := sorted[i].0;
      if desc !in table {
        FirstMissingIs(sorted, table, i);
        return Err(KeyError(desc));
      }
      pieColors := pieColors + [table[desc].hex];
      pieData := pieData + [(desc, sorted[i].1)];
      assert sorted[..i + 1] == sorted[..i] + [sorted[i]];
      i := i + 1;
    }
    assert sorted[..i] == sorted;
    FirstMissingIs(sorted, table, i);
    r := Ok((pieColors, pieData));
  }

  /** The loop appending a linked bullet per ticket. */
  method AppendLinkBullets(children: seq<Block>, ts: seq<Ticket>) returns (r: seq<Block>)
    ensures r == children + LinkBullets(ts)
  {
    r := children;
    var i := 0;
    while i < |ts|
      invariant 0 <= i <= |ts|
      invariant r == children + LinkBullets(ts[..i])
    {
      r := r + [BulletLink(ts[i].identifier, ts[i].url)];
      assert LinkBullets(ts[..i + 1]) == LinkBullets(ts[..i]) + [BulletLink(ts[i].identifier, ts[i].url)];
      i := i + 1;
    }
    assert ts[..i] == ts;
  }

  /** The description loops, as written: the list reads the `'No Description'`
      bucket directly. */
  method DescriptionBlocks(ticketsPerDesc: Buckets<Ticket>, nbTickets: nat) returns (r: Result<seq<Block>>)
    ensures r == DescriptionSectionAsWritten(ticketsPerDesc, nbTickets)
  {
    var sorted := SortByValue(Sizes(ticketsPerDesc));
    var pie :- PieEntries(sorted, COLOR_PER_DESCRIPTION);
    var (pieColors, pieData) := pie;
    assert FirstMissing(sorted, COLOR_PER_DESCRIPTION) == |sorted|;
    DescriptionAsWrittenIs(ticketsPerDesc, nbTickets);
    var children := DescriptionHead(ticketsPerDesc, nbTickets, pieColors, pieData);
    if !Has(ticketsPerDesc, "No Description") {
      return Err(KeyError("No Description"));
    }
    children := AppendLinkBullets(children, Get(ticketsPerDesc, "No Description"));
    children := children + [BlankLine];
    r := Ok(children);
  }

  // ---------------------------------------------------------------------------
  // Type section

  /** `_type_blocks`: one coloured bullet per type in ascending size, then the chart. */
  function TypeSection(m: Buckets<Ticket>, nbTickets: nat): Result<seq<Block>> {
    var s := SortByValue(Sizes(m));
    var f := FirstMissing(s, COLOR_PER_TYPE);
    if f < |s| then Err(KeyError(s[f].0))
    else Ok([Heading1("Tickets type"),
             Paragraph("On " + NatStr(nbTickets) + " tickets, their type are split in the following:")]
            + ColoredBullets(s, COLOR_PER_TYPE)
            + [BlankLine, Heading2("Chart"), PieChartBlock(Hexes(s, COLOR_PER_TYPE), "Tickets per type", s)])
  }

  /** The type loop. */
  method TypeBlocks(ticketsPerType: Buckets<Ticket>, nbTickets: nat) returns (r: Result<seq<Block>>)
    ensures r == TypeSection(ticketsPerType, nbTickets)
  {
    var sorted := SortByValue(Sizes(ticketsPerType));
    var entries :- ColoredEntries(sorted, COLOR_PER_TYPE);
    var (pieColors, pieData, bullets) := entries;
    var children := [Heading1("Tickets type"),
                     Paragraph("On " + NatStr(nbTickets) + " tickets, their type are split in the following:")];
    children := children + bullets;
    children := children + [BlankLine, Heading2("Chart"), PieChartBlock(pieColors, "Tickets per type", pieData)];
    r := Ok(children);
  }

  // ---------------------------------------------------------------------------
  // Page

  /** `_children_block`: description, divider, status, divider, type; the
      first section that fails decides the error. */
  function Children(nbTickets: nat, perDescription: Buckets<Ticket>, perStatus: Buckets<Ticket>,
                    perType: Buckets<Ticket>): Result<seq<Block>>
  {
    var description :- DescriptionSectionAsWritten(perDescription, nbTickets);
    var status :- StatusSection(perStatus, nbTickets);
    var types :- TypeSection(perType, nbTickets);
    Ok(description + [Divider] + status + [Divider] + types)
  }

  /** `build` for the ticket report. */
  function BuildTicketPage(databaseId: string, teamKey: string, inspectionDate: string, nbTickets: nat,
                           perDescription: Buckets<Ticket>, perStatus: Buckets<Ticket>,
                           perType: Buckets<Ticket>): Result<Page>
  {
    var children :- Children(nbTickets, perDescription, perStatus, perType);
    Ok(BuildPage(databaseId, Properties(teamKey, inspectionDate, nbTickets), children))
  }

  // ---------------------------------------------------------------------------
  // Properties of the sections

  /** The description section succeeds exactly when every key has a colour;
      otherwise the error names a key of the dict that has no colour. */
  lemma DescriptionSectionOutcome(m: Buckets<Ticket>, nbTickets: nat)
    requires DistinctKeys(m)
    ensures DescriptionSection(m, nbTickets).Ok? <==> forall i :: 0 <= i < |m| ==> m[i].0 in COLOR_PER_DESCRIPTION
    ensures DescriptionSection(m, nbTickets).Err? ==>
      DescriptionSection(m, nbTickets).error.KeyError? &&
      Has(m, DescriptionSection(m, nbTickets).error.key) &&
      DescriptionSection(m, nbTickets).error.key !in COLOR_PER_DESCRIPTION
  {
    SortedSizesColored(m, COLOR_PER_DESCRIPTION);
  }

  /** As written, the description section succeeds exactly when every key has
      a colour and some ticket went to the `'No Description'` bucket; otherwise
      the error names an uncoloured key of the dict, or `'No Description'`. */
  lemma DescriptionAsWrittenOutcome(m: Buckets<Ticket>, nbTickets: nat)
    requires DistinctKeys(m)
    ensures DescriptionSectionAsWritten(m, nbTickets).Ok? <==>
      (forall i :: 0 <= i < |m| ==> m[i].0 in COLOR_PER_DESCRIPTION) && Has(m, "No Description")
    ensures var r := DescriptionSectionAsWritten(m, nbTickets);
      r.Err? ==>
        (r.error.KeyError? &&
         ((Has(m, r.error.key) && r.error.key !in COLOR_PER_DESCRIPTION) ||
          (r.error.key == "No Description" && !Has(m, "No Description"))))
  {
    DescriptionSectionOutcome(m, nbTickets);
  }

  /** A successful description section has eight blocks plus one linked
      bullet per ticket without a description, and its paragraph counts the
      described tickets. */
  lemma DescriptionSectionContents(m: Buckets<Ticket>, nbTickets: nat)
    requires DescriptionSection(m, nbTickets).Ok?
    ensures var bs := DescriptionSection(m, nbTickets).value;
      && |bs| == 8 + NbValuesForKey(m, "No Description")
      && bs[1] == Paragraph("On " + NatStr(nbTickets) + " tickets, " + NatStr(NbValuesForKey(m, "Description"))
                            + " have a description.")
      && bs[7..|bs| - 1] == LinkBullets(WithoutDescription(m))
  {
    var s := SortByValue(Sizes(m));
    DescriptionSectionIs(m, nbTickets);
    var h := DescriptionHead(m, nbTickets, Hexes(s, COLOR_PER_DESCRIPTION), s);
    HeadLayout(h, LinkBullets(WithoutDescription(m)), BlankLine);
  }

  /** Seven head blocks, a list and one closing block: where the list sits. */
  lemma HeadLayout(h: seq<Block>, l: seq<Block>, last: Block)
    requires |h| == 7
    ensures |h + l + [last]| == 8 + |l|
    ensures (h + l + [last])[1] == h[1]
    ensures (h + l + [last])[7..|h + l + [last]| - 1] == l
  {
    var r := h + l + [last];
    assert r[7..|r| - 1] == l;
  }

  /** Every key of a grouping by description has a colour. */
  lemma DescriptionKeysColored(tickets: seq<Ticket>)
    ensures forall i :: 0 <= i < |GroupOf(tickets, DescriptionKey)| ==>
      GroupOf(tickets, DescriptionKey)[i].0 in COLOR_PER_DESCRIPTION
  {
    var m := GroupOf(tickets, DescriptionKey);
    GroupOfIsGrouping(tickets, DescriptionKey);
    forall i | 0 <= i < |m| ensures m[i].0 in COLOR_PER_DESCRIPTION {
      assert Has(m, m[i].0);
      var j :| 0 <= j < |tickets| && DescriptionKey(tickets[j]) == m[i].0;
    }
  }

  /** On the buckets of the description bucketer the section always succeeds:
      its paragraph counts the tickets with a description, and it lists
      exactly the tickets without one, in input order. */
  lemma DescriptionOfTickets(tickets: seq<Ticket>, nbTickets: nat)
    ensures DescriptionSection(GroupOf(tickets, DescriptionKey), nbTickets).Ok?
    ensures var bs := DescriptionSection(GroupOf(tickets, DescriptionKey), nbTickets).value;
      && bs[1] == Paragraph("On " + NatStr(nbTickets) + " tickets, "
                            + NatStr(|Bucket(tickets, DescriptionKey, "Description")|) + " have a description.")
      && bs[7..|bs| - 1] == LinkBullets(Bucket(tickets, DescriptionKey, "No Description"))
  {
    var m := GroupOf(tickets, DescriptionKey);
    GroupOfIsGrouping(tickets, DescriptionKey);
    DescriptionKeysColored(tickets);
    DescriptionSectionOutcome(m, nbTickets);
    DescriptionSectionContents(m, nbTickets);
    GroupingCount(m, tickets, DescriptionKey, "Description");
    GroupingCount(m, tickets, DescriptionKey, "No Description");
    if Has(m, "No Description") {
      assert m[IndexOf(m, "No Description")].0 == "No Description";
    }
  }

  /** As written, the description section fails whenever no ticket lacks a
      description, although the corrected section succeeds there. */
  lemma AllDescribedAsWrittenFails(tickets: seq<Ticket>, nbTickets: nat)
    requires forall j :: 0 <= j < |tickets| ==> HasDescription(tickets[j])
    ensures DescriptionSectionAsWritten(GroupOf(tickets, DescriptionKey), nbTickets) == Err(KeyError("No Description"))
    ensures DescriptionSection(GroupOf(tickets, DescriptionKey), nbTickets).Ok?
  {
    var m := GroupOf(tickets, DescriptionKey);
    GroupOfIsGrouping(tickets, DescriptionKey);
    DescriptionOfTickets(tickets, nbTickets);
    DescriptionKeysColored(tickets);
  }

  /** A single described ticket is enough to make the section as written fail. */
  lemma OneDescribedTicketFails()
    ensures var t := Ticket("ENG-1", "t", "u", "Dev", Some("d"), [], None, None, None, None);
      DescriptionSectionAsWritten(GroupOf([t], DescriptionKey), 1) == Err(KeyError("No Description"))
  {
    var t := Ticket("ENG-1", "t", "u", "Dev", Some("d"), [], None, None, None, None);
    AllDescribedAsWrittenFails([t], 1);
  }

  /** Where the section as written succeeds it agrees with the corrected one. */
  lemma DescriptionAsWrittenAgrees(m: Buckets<Ticket>, nbTickets: nat)
    ensures DescriptionSectionAsWritten(m, nbTickets).Ok? ==>
      DescriptionSectionAsWritten(m, nbTickets) == DescriptionSection(m, nbTickets)
    ensures Has(m, "No Description") ==>
      DescriptionSectionAsWritten(m, nbTickets) == DescriptionSection(m, nbTickets)
  {
  }

  lemma TypeSectionIs(m: Buckets<Ticket>, nbTickets: nat)
    requires FirstMissing(SortByValue(Sizes(m)), COLOR_PER_TYPE) == |m|
    ensures TypeSection(m, nbTickets).Ok?
    ensures TypeSection(m, nbTickets).value[2..|m| + 2] == ColoredBullets(SortByValue(Sizes(m)), COLOR_PER_TYPE)
    ensures |TypeSection(m, nbTickets).value| == |m| + 5
  {
    var r := TypeSection(m, nbTickets).value;
    assert r[2..|m| + 2] == ColoredBullets(SortByValue(Sizes(m)), COLOR_PER_TYPE);
  }

  /** The type section succeeds exactly when every type has a colour; it then
      lists every type once, by ascending number of tickets, with its count
      and colour, between two intro blocks and three chart blocks. */
  lemma TypeSectionOutcome(m: Buckets<Ticket>, nbTickets: nat)
    requires DistinctKeys(m)
    ensures TypeSection(m, nbTickets).Ok? <==> forall i :: 0 <= i < |m| ==> m[i].0 in COLOR_PER_TYPE
    ensures TypeSection(m, nbTickets).Err? ==>
      TypeSection(m, nbTickets).error.KeyError? &&
      Has(m, TypeSection(m, nbTickets).error.key) &&
      TypeSection(m, nbTickets).error.key !in COLOR_PER_TYPE
    ensures TypeSection(m, nbTickets).Ok? ==> |TypeSection(m, nbTickets).value| == |m| + 5
    ensures TypeSection(m, nbTickets).Ok? ==>
      var bs := TypeSection(m, nbTickets).value[2..|m| + 2];
      && (forall b :: b in bs ==> b.ColoredBullet? && Has(m, b.status) && b.count == |Get(m, b.status)|)
      && (forall i, j :: 0 <= i < j < |bs| ==> bs[i].count <= bs[j].count)
      && (forall i :: 0 <= i < |m| ==> exists b :: b in bs && b.status == m[i].0)
  {
    SortedSizesColored(m, COLOR_PER_TYPE);
    if forall i :: 0 <= i < |m| ==> m[i].0 in COLOR_PER_TYPE {
      TypeSectionIs(m, nbTickets);
      SortedSizes(m);
      SizeBulletEntries(m, COLOR_PER_TYPE);
      SizeBulletsCover(m, COLOR_PER_TYPE);
    }
  }

  /** On the buckets of the type bucketer the type section always succeeds. */
  lemma TypeOfTickets(tickets: seq<Ticket>, nbTickets: nat)
    ensures TypeSection(GroupOf(tickets, TypeKey), nbTickets).Ok?
  {
    var m := GroupOf(tickets, TypeKey);
    GroupOfIsGrouping(tickets, TypeKey);
    forall i | 0 <= i < |m| ensures m[i].0 in COLOR_PER_TYPE {
      assert Has(m, m[i].0);
      var j :| 0 <= j < |tickets| && TypeKey(tickets[j]) == m[i].0;
    }
    TypeSectionOutcome(m, nbTickets);
  }

  /** The children are the three sections separated by dividers when all
      succeed; otherwise the error of the first section that fails. */
  lemma ChildrenOutcome(nbTickets: nat, perDescription: Buckets<Ticket>, perStatus: Buckets<Ticket>,
                        perType: Buckets<Ticket>)
    ensures var r := Children(nbTickets, perDescription, perStatus, perType);
      var d, s, t := DescriptionSectionAsWritten(perDescription, nbTickets), StatusSection(perStatus, nbTickets),
                     TypeSection(perType, nbTickets);
      && (r.Ok? <==> d.Ok? && s.Ok? && t.Ok?)
      && (d.Err? ==> r == Err(d.error))
      && (d.Ok? && s.Err? ==> r == Err(s.error))
      && (d.Ok? && s.Ok? && t.Err? ==> r == Err(t.error))
      && (r.Ok? ==> r.value == d.value + [Divider] + s.value + [Divider] + t.value)
  {
  }

  /** The `'No Description'` bucket exists exactly when some ticket lacks a description. */
  lemma UndescribedBucket(tickets: seq<Ticket>)
    ensures Has(GroupOf(tickets, DescriptionKey), "No Description") <==>
      exists j :: 0 <= j < |tickets| && !HasDescription(tickets[j])
  {
    GroupOfIsGrouping(tickets, DescriptionKey);
    if exists j :: 0 <= j < |tickets| && !HasDescription(tickets[j]) {
      var j :| 0 <= j < |tickets| && !HasDescription(tickets[j]);
      assert DescriptionKey(tickets[j]) == "No Description";
    }
  }

  /** Built from the three bucketers' dicts, the ticket report fails with
      `KeyError('No Description')` when every ticket has a description; when
      some ticket has none, it fails only on a status without a colour, with
      that status's `KeyError`. */
  lemma TicketPageOfTickets(databaseId: string, teamKey: string, inspectionDate: string, tickets: seq<Ticket>)
    ensures var page := BuildTicketPage(databaseId, teamKey, inspectionDate, |tickets|,
                                        GroupOf(tickets, DescriptionKey), GroupOf(tickets, StatusOf),
                                        GroupOf(tickets, TypeKey));
      var status := StatusSection(GroupOf(tickets, StatusOf), |tickets|);
      var undescribed := exists j :: 0 <= j < |tickets| && !HasDescription(tickets[j]);
      && (page.Ok? <==> undescribed && status.Ok?)
      && (!undescribed ==> page == Err(KeyError("No Description")))
      && (undescribed && status.Err? ==> page == Err(status.error))
  {
    var m := GroupOf(tickets, DescriptionKey);
    GroupOfIsGrouping(tickets, DescriptionKey);
    DescriptionKeysColored(tickets);
    DescriptionAsWrittenOutcome(m, |tickets|);
    UndescribedBucket(tickets);
    TypeOfTickets(tickets, |tickets|);
    ChildrenOutcome(|tickets|, m, GroupOf(tickets, StatusOf), GroupOf(tickets, TypeKey));
  }

  /** With a ticket lacking a description, the section as written is the corrected one. */
  lemma DescriptionWhenUndescribed(tickets: seq<Ticket>, nbTickets: nat)
    requires exists j :: 0 <= j < |tickets| && !HasDescription(tickets[j])
    ensures DescriptionSection(GroupOf(tickets, DescriptionKey), nbTickets).Ok?
    ensures DescriptionSectionAsWritten(GroupOf(tickets, DescriptionKey), nbTickets) ==
      DescriptionSection(GroupOf(tickets, DescriptionKey), nbTickets)
  {
    DescriptionOfTickets(tickets, nbTickets);
    UndescribedBucket(tickets);
    DescriptionAsWrittenAgrees(GroupOf(tickets, DescriptionKey), nbTickets);
  }

  /** When its three sections build, the ticket report is the page of the
      database with the report's properties, and its children are the three
      sections separated by dividers. */
  lemma BuildTicketPageIs(databaseId: string, teamKey: string, inspectionDate: string, nbTickets: nat,
                          perDescription: Buckets<Ticket>, perStatus: Buckets<Ticket>, perType: Buckets<Ticket>)
    requires DescriptionSectionAsWritten(perDescription, nbTickets).Ok?
    requires StatusSection(perStatus, nbTickets).Ok? && TypeSection(perType, nbTickets).Ok?
    ensures BuildTicketPage(databaseId, teamKey, inspectionDate, nbTickets, perDescription, perStatus, perType) ==
      Ok(BuildPage(databaseId, Properties(teamKey, inspectionDate, nbTickets),
                   DescriptionSectionAsWritten(perDescription, nbTickets).value + [Divider]
                   + StatusSection(perStatus, nbTickets).value + [Divider] + TypeSection(perType, nbTickets).value))
  {
  }
}
