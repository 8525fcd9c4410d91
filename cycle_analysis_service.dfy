/** The cycle analysis: one report per cycle name, posted only for the
    cycles that have none yet. */
module CycleAnalysisService {
  import opened Wrappers
  import opened Records
  import opened Dicts
  import opened Buckets
  import opened DocumentBuilder
  import opened NotionStore
  import opened CyclePage

  /** The dict the naming loop holds after `cycles`: each cycle stored under
      its name, a later cycle replacing an earlier one of the same name. */
  function ByName(cycles: seq<Cycle>): Dict<Cycle> {
    if cycles == [] then []
    else Put(ByName(cycles[..|cycles| - 1]), cycles[|cycles| - 1].name, cycles[|cycles| - 1])
  }

  /** `_bucket_cycle_data_by_name`. */
  method BucketCycleDataByName(cycleData: seq<Cycle>) returns (results: Dict<Cycle>)
    ensures results == ByName(cycleData)
  {
    results := [];
    var i := 0;
    while i < |cycleData|
      invariant 0 <= i <= |cycleData|
      invariant results == ByName(cycleData[..i])
    {
      var item := cycleData[i];
      ByNameStep(cycleData, i);
      results := Put(results, item.name, item);
      i := i + 1;
    }
    assert cycleData[..i] == cycleData;
  }

  lemma ByNameStep(cycles: seq<Cycle>, i: nat)
    requires i < |cycles|
    ensures ByName(cycles[..i + 1]) == Put(ByName(cycles[..i]), cycles[i].name, cycles[i])
  {
    assert cycles[..i + 1][..i] == cycles[..i];
  }

  /** The position of the last cycle named `k`, or -1 when there is none. */
  function LastNamed(cycles: seq<Cycle>, k: string): (r: int)
    ensures -1 <= r < |cycles|
    ensures r >= 0 ==> cycles[r].name == k
    ensures forall j :: r < j < |cycles| ==> cycles[j].name != k
  {
    if cycles == [] then -1
    else if cycles[|cycles| - 1].name == k then |cycles| - 1
    else LastNamed(cycles[..|cycles| - 1], k)
  }

  /** The dict has a key for each name that occurs, and under it the last
      cycle of that name. */
  lemma {:induction false} ByNameLastWins(cycles: seq<Cycle>, k: string)
    ensures DistinctKeys(ByName(cycles))
    ensures Has(ByName(cycles), k) <==> LastNamed(cycles, k) >= 0
    ensures Has(ByName(cycles), k) ==> Get(ByName(cycles), k) == cycles[LastNamed(cycles, k)]
  {
    if cycles != [] {
      ByNameLastWins(cycles[..|cycles| - 1], k);
    }
  }

  /** Every cycle is stored under its own name. */
  lemma StoredUnderOwnName(cycles: seq<Cycle>, k: string)
    requires Has(ByName(cycles), k)
    ensures Get(ByName(cycles), k).name == k
  {
    ByNameLastWins(cycles, k);
  }

  lemma SameKeysHas<V, W>(m: Dict<V>, n: Dict<W>, k: string)
    requires Keys(m) == Keys(n)
    ensures Has(m, k) <==> Has(n, k)
  {
    if Has(m, k) {
      var i := IndexOf(m, k);
      assert Keys(n)[i] == k;
    }
    if Has(n, k) {
      var i := IndexOf(n, k);
      assert Keys(m)[i] == k;
    }
  }

  /** The names come in the order the status-style grouping would give them:
      the order of their first occurrence. */
  lemma {:induction false} ByNameKeysInFirstOccurrenceOrder(cycles: seq<Cycle>)
    ensures Keys(ByName(cycles)) == Keys(GroupOf(cycles, NameOf))
    ensures var b := ByName(cycles);
      forall i, j :: 0 <= i < j < |b| ==> FirstIndex(cycles, NameOf, b[i].0) < FirstIndex(cycles, NameOf, b[j].0)
  {
    ByNameKeysAsGrouped(cycles);
    GroupOfIsGrouping(cycles, NameOf);
    var b, g := ByName(cycles), GroupOf(cycles, NameOf);
    assert forall i :: 0 <= i < |b| ==> b[i].0 == Keys(b)[i] == Keys(g)[i] == g[i].0;
  }

  /** Overwriting by name and appending by name meet the names in the same order. */
  lemma {:induction false} ByNameKeysAsGrouped(cycles: seq<Cycle>)
    ensures Keys(ByName(cycles)) == Keys(GroupOf(cycles, NameOf))
  {
    if cycles != [] {
      var p := cycles[..|cycles| - 1];
      var x := cycles[|cycles| - 1];
      ByNameKeysAsGrouped(p);
      SameKeysHas(ByName(p), GroupOf(p, NameOf), x.name);
      assert NameOf(x) == x.name;
    }
  }

  // ---------------------------------------------------------------------------
  // The run

  /** What a run posts: the pages it inserted, in order, and the error that
      stopped it, if any. */
  datatype RunOutcome = RunOutcome(inserted: seq<Page>, error: Option<Error>)

  /** The report builder of a run: the page of a cycle under a given name. */
  function Builder(databaseId: string, teamKey: string, inspectionDate: string): (string, Cycle) -> Result<Page> {
    (name, c) => BuildCyclePage(databaseId, teamKey, name, inspectionDate, c)
  }

  /** A builder whose pages are documents of the cycle they were built for. */
  ghost predicate BuildsCycleDocs(databaseId: string, build: (string, Cycle) -> Result<Page>) {
    forall name, c :: build(name, c).Ok? ==> IsCycleDoc(build(name, c).value, databaseId, name)
  }

  lemma BuilderBuildsCycleDocs(databaseId: string, teamKey: string, inspectionDate: string)
    ensures BuildsCycleDocs(databaseId, Builder(databaseId, teamKey, inspectionDate))
  {
    forall name, c | Builder(databaseId, teamKey, inspectionDate)(name, c).Ok?
      ensures IsCycleDoc(Builder(databaseId, teamKey, inspectionDate)(name, c).value, databaseId, name)
    {
      PageIsCycleDoc(databaseId, teamKey, name, inspectionDate, c);
    }
  }

  /** The run over the entries of the dict, from a store holding `pages`:
      a cycle with a document already is skipped; otherwise its report is
      built and inserted, and a failing build ends the run. */
  function Posted(pages: seq<Page>, databaseId: string, build: (string, Cycle) -> Result<Page>,
                  entries: Dict<Cycle>): RunOutcome
    decreases |entries|
  {
    if entries == [] then RunOutcome([], None)
    else if HasCycleDoc(pages, databaseId, entries[0].0) then Posted(pages, databaseId, build, entries[1..])
    else
      var built := build(entries[0].0, entries[0].1);
      if built.Err? then RunOutcome([], Some(built.error))
      else
        var rest := Posted(pages + [built.value], databaseId, build, entries[1..]);
        RunOutcome([built.value] + rest.inserted, rest.error)
  }

  /** One step of the run, at position `i` of the entries. */
  lemma PostedStep(pages: seq<Page>, databaseId: string, build: (string, Cycle) -> Result<Page>,
                   entries: Dict<Cycle>, i: nat)
    requires i < |entries|
    ensures Posted(pages, databaseId, build, entries[i..]) ==
      if HasCycleDoc(pages, databaseId, entries[i].0) then Posted(pages, databaseId, build, entries[i + 1..])
      else if build(entries[i].0, entries[i].1).Err? then RunOutcome([], Some(build(entries[i].0, entries[i].1).error))
      else
        RunOutcome([build(entries[i].0, entries[i].1).value]
                     + Posted(pages + [build(entries[i].0, entries[i].1).value], databaseId, build, entries[i + 1..]).inserted,
                   Posted(pages + [build(entries[i].0, entries[i].1).value], databaseId, build, entries[i + 1..]).error)
  {
    assert entries[i..][1..] == entries[i + 1..];
  }

  /** `run`: bucket the fetched cycles by name and post a report for every
      name the database does not know yet. */
  method Run(store: PageStore, databaseId: string, teamKey: string, inspectionDate: string, cycleData: seq<Cycle>)
    returns (outcome: RunOutcome)
    modifies store
    ensures outcome == Posted(old(store.pages), databaseId, Builder(databaseId, teamKey, inspectionDate), ByName(cycleData))
    ensures store.pages == old(store.pages) + outcome.inserted
  {
    var cycleDataByName := BucketCycleDataByName(cycleData);
    ByNameLastWins(cycleData, "");
    outcome := PostMissing(store, databaseId, Builder(databaseId, teamKey, inspectionDate), cycleDataByName);
  }

  /** The loop of `run` over the names, with the report builder as a parameter. */
  method PostMissing(store: PageStore, databaseId: string, build: (string, Cycle) -> Result<Page>, cycleDataByName: Dict<Cycle>)
    returns (outcome: RunOutcome)
    requires DistinctKeys(cycleDataByName)
    modifies store
    ensures outcome == Posted(old(store.pages), databaseId, build, cycleDataByName)
    ensures store.pages == old(store.pages) + outcome.inserted
  {
    ghost var start := store.pages;
    var inserted: seq<Page> := [];
    var i := 0;
    while i < |cycleDataByName|
      invariant 0 <= i <= |cycleDataByName|
      invariant store.pages == start + inserted
      invariant Posted(start, databaseId, build, cycleDataByName) ==
        RunOutcome(inserted + Posted(store.pages, databaseId, build, cycleDataByName[i..]).inserted,
                   Posted(store.pages, databaseId, build, cycleDataByName[i..]).error)
    {
      var cycleName := cycleDataByName[i].0;
      PostedStep(store.pages, databaseId, build, cycleDataByName, i);
      if !store.IsCycleDocExists(databaseId, cycleName) {
        GetAt(cycleDataByName, i);
        var notionPayload := build(cycleName, Get(cycleDataByName, cycleName));
        if notionPayload.Err? {
          assert inserted + [] == inserted;
          return RunOutcome(inserted, Some(notionPayload.error));
        }
        PostedAfterInsert(start, inserted, store.pages, databaseId, build, cycleDataByName, i, notionPayload.value);
        store.InsertPage(notionPayload.value);
        inserted := inserted + [notionPayload.value];
      }
      i := i + 1;
    }
    outcome := RunOutcome(inserted, None);
  }

  /** The loop invariant of `PostMissing` across an insertion. */
  lemma PostedAfterInsert(start: seq<Page>, inserted: seq<Page>, pages: seq<Page>, databaseId: string,
                          build: (string, Cycle) -> Result<Page>, entries: Dict<Cycle>, i: nat, page: Page)
    requires i < |entries|
    requires !HasCycleDoc(pages, databaseId, entries[i].0) && build(entries[i].0, entries[i].1) == Ok(page)
    requires Posted(start, databaseId, build, entries) ==
      RunOutcome(inserted + Posted(pages, databaseId, build, entries[i..]).inserted,
                 Posted(pages, databaseId, build, entries[i..]).error)
    ensures Posted(start, databaseId, build, entries) ==
      RunOutcome((inserted + [page]) + Posted(pages + [page], databaseId, build, entries[i + 1..]).inserted,
                 Posted(pages + [page], databaseId, build, entries[i + 1..]).error)
  {
    PostedStep(pages, databaseId, build, entries, i);
    var rest := Posted(pages + [page], databaseId, build, entries[i + 1..]).inserted;
    assert inserted + ([page] + rest) == (inserted + [page]) + rest;
  }

  /** The `i`-th inserted page is the report built from one of the entries,
      with its own name and cycle; it is that cycle's document, and the cycle
      had no document among the earlier pages and the earlier insertions. */
  ghost predicate InsertedFresh(pages: seq<Page>, ins: seq<Page>, databaseId: string,
                                build: (string, Cycle) -> Result<Page>, entries: Dict<Cycle>, i: nat)
    requires i < |ins|
  {
    exists k :: 0 <= k < |entries| && build(entries[k].0, entries[k].1) == Ok(ins[i])
                && IsCycleDoc(ins[i], databaseId, entries[k].0)
                && !HasCycleDoc(pages + ins[..i], databaseId, entries[k].0)
  }

  lemma InsertedFreshSkip(pages: seq<Page>, ins: seq<Page>, databaseId: string,
                          build: (string, Cycle) -> Result<Page>, entries: Dict<Cycle>, i: nat)
    requires entries != [] && i < |ins|
    requires InsertedFresh(pages, ins, databaseId, build, entries[1..], i)
    ensures InsertedFresh(pages, ins, databaseId, build, entries, i)
  {
    var tail := entries[1..];
    var k :| 0 <= k < |tail| && build(tail[k].0, tail[k].1) == Ok(ins[i])
             && IsCycleDoc(ins[i], databaseId, tail[k].0)
             && !HasCycleDoc(pages + ins[..i], databaseId, tail[k].0);
    assert tail[k] == entries[k + 1];
  }

  lemma InsertedFreshShift(pages: seq<Page>, page: Page, rest: seq<Page>, databaseId: string,
                           build: (string, Cycle) -> Result<Page>, entries: Dict<Cycle>, i: nat)
    requires entries != [] && 0 < i <= |rest|
    requires InsertedFresh(pages + [page], rest, databaseId, build, entries[1..], i - 1)
    ensures InsertedFresh(pages, [page] + rest, databaseId, build, entries, i)
  {
    ConsShift(pages, page, rest, i);
    InsertedFreshSkip(pages + [page], rest, databaseId, build, entries, i - 1);
  }

  /** Every inserted page is the document of one of the cycles, and no
      document of that cycle existed in the store when it was inserted:
      neither before the run nor among the pages the run inserted earlier. */
  lemma {:induction false} PostedOnlyNew(pages: seq<Page>, databaseId: string, build: (string, Cycle) -> Result<Page>,
                                         entries: Dict<Cycle>)
    requires BuildsCycleDocs(databaseId, build)
    decreases |entries|
    ensures forall i :: 0 <= i < |Posted(pages, databaseId, build, entries).inserted| ==>
      InsertedFresh(pages, Posted(pages, databaseId, build, entries).inserted, databaseId, build, entries, i)
  {
    if entries != [] {
      var name := entries[0].0;
      var tail := entries[1..];
      var ins := Posted(pages, databaseId, build, entries).inserted;
      if HasCycleDoc(pages, databaseId, name) {
        PostedOnlyNew(pages, databaseId, build, tail);
        assert ins == Posted(pages, databaseId, build, tail).inserted;
        forall i | 0 <= i < |ins| ensures InsertedFresh(pages, ins, databaseId, build, entries, i) {
          assert InsertedFresh(pages, ins, databaseId, build, tail, i);
          InsertedFreshSkip(pages, ins, databaseId, build, entries, i);
        }
      } else if build(name, entries[0].1).Ok? {
        var page := build(name, entries[0].1).value;
        PostedOnlyNew(pages + [page], databaseId, build, tail);
        var rest := Posted(pages + [page], databaseId, build, tail).inserted;
        assert ins == [page] + rest;
        forall i | 0 <= i < |ins| ensures InsertedFresh(pages, ins, databaseId, build, entries, i) {
          if i == 0 {
            assert pages + ins[..0] == pages;
            assert IsCycleDoc(ins[0], databaseId, entries[0].0);
          } else {
            assert InsertedFresh(pages + [page], rest, databaseId, build, tail, i - 1);
            InsertedFreshShift(pages, page, rest, databaseId, build, entries, i);
          }
        }
      }
    }
  }

  lemma HasCycleDocGrows(pages: seq<Page>, more: seq<Page>, databaseId: string, cycleName: string)
    requires HasCycleDoc(pages, databaseId, cycleName)
    ensures HasCycleDoc(pages + more, databaseId, cycleName)
  {
    var j :| 0 <= j < |pages| && IsCycleDoc(pages[j], databaseId, cycleName);
    assert (pages + more)[j] == pages[j];
  }

  lemma ConsShift(pages: seq<Page>, page: Page, rest: seq<Page>, i: nat)
    requires 0 < i <= |rest|
    ensures ([page] + rest)[i] == rest[i - 1]
    ensures (pages + [page]) + rest[..i - 1] == pages + ([page] + rest)[..i]
  {
    assert ([page] + rest)[..i] == [page] + rest[..i - 1];
  }

  /** A run that ends without error leaves a document for every cycle name. */
  lemma {:induction false} PostedCovers(pages: seq<Page>, databaseId: string, build: (string, Cycle) -> Result<Page>,
                                        entries: Dict<Cycle>, k: nat)
    requires BuildsCycleDocs(databaseId, build)
    requires Posted(pages, databaseId, build, entries).error.None?
    requires k < |entries|
    decreases |entries|
    ensures HasCycleDoc(pages + Posted(pages, databaseId, build, entries).inserted, databaseId, entries[k].0)
  {
    var name := entries[0].0;
    var tail := entries[1..];
    var out := Posted(pages, databaseId, build, entries);
    if HasCycleDoc(pages, databaseId, name) {
      if k == 0 {
        HasCycleDocGrows(pages, out.inserted, databaseId, name);
      } else {
        PostedCovers(pages, databaseId, build, tail, k - 1);
        assert tail[k - 1] == entries[k];
      }
    } else {
      var page := build(name, entries[0].1).value;
      var rest := Posted(pages + [page], databaseId, build, tail);
      assert pages + out.inserted == (pages + [page]) + rest.inserted;
      if k == 0 {
        assert (pages + out.inserted)[|pages|] == page;
      } else {
        PostedCovers(pages + [page], databaseId, build, tail, k - 1);
        assert tail[k - 1] == entries[k];
      }
    }
  }

  /** With a document for every cycle, a run inserts nothing. */
  lemma {:induction false} PostedNothingWhenCovered(pages: seq<Page>, databaseId: string,
                                                    build: (string, Cycle) -> Result<Page>, entries: Dict<Cycle>)
    requires forall k :: 0 <= k < |entries| ==> HasCycleDoc(pages, databaseId, entries[k].0)
    ensures Posted(pages, databaseId, build, entries) == RunOutcome([], None)
    decreases |entries|
  {
    if entries != [] {
      assert HasCycleDoc(pages, databaseId, entries[0].0);
      PostedNothingWhenCovered(pages, databaseId, build, entries[1..]);
    }
  }

  /** Running twice over the same cycles: after a first run without error,
      the second inserts nothing. */
  lemma RunIsIdempotent(pages: seq<Page>, databaseId: string, teamKey: string, inspectionDate: string,
                        cycles: seq<Cycle>)
    requires Posted(pages, databaseId, Builder(databaseId, teamKey, inspectionDate), ByName(cycles)).error.None?
    ensures var build := Builder(databaseId, teamKey, inspectionDate);
      var after := pages + Posted(pages, databaseId, build, ByName(cycles)).inserted;
      Posted(after, databaseId, build, ByName(cycles)) == RunOutcome([], None)
  {
    var build := Builder(databaseId, teamKey, inspectionDate);
    var entries := ByName(cycles);
    var after := pages + Posted(pages, databaseId, build, entries).inserted;
    BuilderBuildsCycleDocs(databaseId, teamKey, inspectionDate);
    forall k | 0 <= k < |entries| ensures HasCycleDoc(after, databaseId, entries[k].0) {
      PostedCovers(pages, databaseId, build, entries, k);
    }
    PostedNothingWhenCovered(after, databaseId, build, entries);
  }

  /** A run never gives a cycle a second document: each page it inserts is
      for a cycle with no document in the store at that moment. */
  lemma RunInsertsOnlyNewDocs(pages: seq<Page>, databaseId: string, teamKey: string, inspectionDate: string,
                              cycles: seq<Cycle>)
    ensures forall i :: 0 <= i < |Posted(pages, databaseId, Builder(databaseId, teamKey, inspectionDate), ByName(cycles)).inserted| ==>
      InsertedFresh(pages, Posted(pages, databaseId, Builder(databaseId, teamKey, inspectionDate), ByName(cycles)).inserted,
                    databaseId, Builder(databaseId, teamKey, inspectionDate), ByName(cycles), i)
  {
    BuilderBuildsCycleDocs(databaseId, teamKey, inspectionDate);
    PostedOnlyNew(pages, databaseId, Builder(databaseId, teamKey, inspectionDate), ByName(cycles));
  }
}
