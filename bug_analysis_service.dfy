/** The bug analysis: status buckets, the three time-delta statistics and
    the details of the first ten bugs, posted as one bug report. */
module BugAnalysisService {
  import opened Wrappers
  import opened Records
  import opened Dicts
  import opened Buckets
  import opened Subsequences
  import opened DocumentBuilder
  import opened AnalysisService
  import opened BugPage
  import opened NotionStore

  /** Every key is present and non-null in the ticket. */
  predicate HasKeys(t: Ticket, keys: seq<DateKey>) {
    forall k :: k in keys ==> Field(t, k).Some?
  }

  /** The tickets that have all the keys, in input order. */
  function WithKeys(ts: seq<Ticket>, keys: seq<DateKey>): seq<Ticket> {
    if ts == [] then []
    else WithKeys(ts[..|ts| - 1], keys) + (if HasKeys(ts[|ts| - 1], keys) then [ts[|ts| - 1]] else [])
  }

  /** `_sublist_contains_keys`. */
  method SublistContainsKeys(lst: seq<Ticket>, keys: seq<DateKey>) returns (sublist: seq<Ticket>)
    ensures sublist == WithKeys(lst, keys)
  {
    sublist := [];
    var i := 0;
    while i < |lst|
      invariant 0 <= i <= |lst|
      invariant sublist == WithKeys(lst[..i], keys)
    {
      var item := lst[i];
      if forall k :: k in keys ==> Field(item, k).Some? {
        sublist := sublist + [item];
      }
      assert lst[..i + 1][..i] == lst[..i];
      i := i + 1;
    }
    assert lst[..i] == lst;
  }

  /** The filter keeps exactly the tickets that have all the keys. */
  lemma {:induction false} WithKeysMembers(ts: seq<Ticket>, keys: seq<DateKey>, x: Ticket)
    ensures x in WithKeys(ts, keys) <==> x in ts && HasKeys(x, keys)
  {
    if ts != [] {
      var p := ts[..|ts| - 1];
      WithKeysMembers(p, keys, x);
      assert ts == p + [ts[|ts| - 1]];
    }
  }

  /** The positions of the kept tickets, increasing. */
  ghost function KeptPositions(ts: seq<Ticket>, keys: seq<DateKey>): seq<nat> {
    if ts == [] then []
    else KeptPositions(ts[..|ts| - 1], keys) + (if HasKeys(ts[|ts| - 1], keys) then [|ts| - 1] else [])
  }

  /** The filter keeps the input order, so it is no longer than its input. */
  lemma {:induction false} WithKeysIsSubsequence(ts: seq<Ticket>, keys: seq<DateKey>)
    ensures Embeds(WithKeys(ts, keys), ts, KeptPositions(ts, keys))
    ensures IsSubsequence(WithKeys(ts, keys), ts)
    ensures |WithKeys(ts, keys)| <= |ts|
  {
    if ts != [] {
      var p := ts[..|ts| - 1];
      var x := ts[|ts| - 1];
      WithKeysIsSubsequence(p, keys);
      assert ts == p + [x];
      if HasKeys(x, keys) {
        assert WithKeys(ts, keys) == WithKeys(p, keys) + [x];
        assert KeptPositions(ts, keys) == KeptPositions(p, keys) + [|p|];
        EmbedsSnoc(WithKeys(p, keys), p, KeptPositions(p, keys), x, true);
      } else {
        assert WithKeys(ts, keys) == WithKeys(p, keys);
        assert KeptPositions(ts, keys) == KeptPositions(p, keys);
        EmbedsSnoc(WithKeys(p, keys), p, KeptPositions(p, keys), x, false);
      }
    }
    assert Embeds(WithKeys(ts, keys), ts, KeptPositions(ts, keys));
  }

  lemma WithKeysHaveKeys(ts: seq<Ticket>, keys: seq<DateKey>)
    ensures forall i :: 0 <= i < |WithKeys(ts, keys)| ==> HasKeys(WithKeys(ts, keys)[i], keys)
  {
    forall i | 0 <= i < |WithKeys(ts, keys)| ensures HasKeys(WithKeys(ts, keys)[i], keys) {
      WithKeysMembers(ts, keys, WithKeys(ts, keys)[i]);
    }
  }

  /** `(fromisoformat(b) - fromisoformat(a)).total_seconds() / 3600.0`. */
  function HoursBetween(a: Timestamp, b: Timestamp): real {
    (b.seconds - a.seconds) as real / 3600.0
  }

  /** The sum of the hours from `first` to `second` over tickets that have both. */
  function SumHours(ts: seq<Ticket>, first: DateKey, second: DateKey): real
    requires forall i :: 0 <= i < |ts| ==> HasKeys(ts[i], [first, second])
  {
    if ts == [] then 0.0
    else
      var t := ts[|ts| - 1];
      assert HasKeys(t, [first, second]);
      SumHours(ts[..|ts| - 1], first, second) + HoursBetween(Field(t, first).value, Field(t, second).value)
  }

  /** The statistic for a pair of keys: no result when no ticket has both;
      otherwise the mean over the tickets that do, and their number. */
  function SubTimedelta(ts: seq<Ticket>, first: DateKey, second: DateKey): (r: Option<Delta>)
    ensures r.None? <==> WithKeys(ts, [first, second]) == []
    ensures r.Some? ==> r.value.sampleSize == |WithKeys(ts, [first, second])| > 0
    ensures r.Some? ==>
      (WithKeysHaveKeys(ts, [first, second]);
       r.value.valueHours * r.value.sampleSize as real == SumHours(WithKeys(ts, [first, second]), first, second))
  {
    var sub := WithKeys(ts, [first, second]);
    WithKeysHaveKeys(ts, [first, second]);
    if |sub| > 0 then Some(Delta(SumHours(sub, first, second) / |sub| as real, |sub|)) else None
  }

  /** `_compute_sub_timedelta`. */
  method ComputeSubTimedelta(tickets: seq<Ticket>, first: DateKey, second: DateKey) returns (r: Option<Delta>)
    ensures r == SubTimedelta(tickets, first, second)
  {
    var sublistTickets := SublistContainsKeys(tickets, [first, second]);
    WithKeysHaveKeys(tickets, [first, second]);
    if |sublistTickets| > 0 {
      var valueHours := 0.0;
      var i := 0;
      while i < |sublistTickets|
        invariant 0 <= i <= |sublistTickets|
        invariant valueHours == SumHours(sublistTickets[..i], first, second)
      {
        var ticket := sublistTickets[i];
        assert HasKeys(ticket, [first, second]);
        valueHours := valueHours + HoursBetween(Field(ticket, first).value, Field(ticket, second).value);
        assert sublistTickets[..i + 1][..i] == sublistTickets[..i];
        i := i + 1;
      }
      assert sublistTickets[..i] == sublistTickets;
      r := Some(Delta(valueHours / |sublistTickets| as real, |sublistTickets|));
    } else {
      r := None;
    }
  }

  /** The three statistics, for the three pairs of dates. */
  function TimedeltaOf(tickets: seq<Ticket>): Timedelta {
    Timedelta(SubTimedelta(tickets, CreatedAt, StartedAt),
              SubTimedelta(tickets, StartedAt, CompletedAt),
              SubTimedelta(tickets, CreatedAt, CompletedAt))
  }

  /** `_compute_timedelta`. */
  method ComputeTimedelta(tickets: seq<Ticket>) returns (td: Timedelta)
    ensures td == TimedeltaOf(tickets)
    ensures td.createdStarted.None? <==> forall i :: 0 <= i < |tickets| ==> !HasKeys(tickets[i], [CreatedAt, StartedAt])
  {
    var createdStarted := ComputeSubTimedelta(tickets, CreatedAt, StartedAt);
    var startedCompleted := ComputeSubTimedelta(tickets, StartedAt, CompletedAt);
    var createdCompleted := ComputeSubTimedelta(tickets, CreatedAt, CompletedAt);
    td := Timedelta(createdStarted, startedCompleted, createdCompleted);
    NoneWhenNoneQualifies(tickets, CreatedAt, StartedAt);
  }

  /** A statistic is absent exactly when no ticket has both of its dates. */
  lemma NoneWhenNoneQualifies(tickets: seq<Ticket>, first: DateKey, second: DateKey)
    ensures SubTimedelta(tickets, first, second).None? <==>
      forall i :: 0 <= i < |tickets| ==> !HasKeys(tickets[i], [first, second])
  {
    if exists i :: 0 <= i < |tickets| && HasKeys(tickets[i], [first, second]) {
      var i :| 0 <= i < |tickets| && HasKeys(tickets[i], [first, second]);
      WithKeysMembers(tickets, [first, second], tickets[i]);
    } else if WithKeys(tickets, [first, second]) != [] {
      var x := WithKeys(tickets, [first, second])[0];
      WithKeysMembers(tickets, [first, second], x);
    }
  }

  lemma WithKeysSnoc(p: seq<Ticket>, x: Ticket, keys: seq<DateKey>)
    ensures WithKeys(p + [x], keys) == WithKeys(p, keys) + (if HasKeys(x, keys) then [x] else [])
  {
    assert (p + [x])[..|p|] == p;
  }

  lemma SumHoursSnoc(p: seq<Ticket>, x: Ticket, first: DateKey, second: DateKey)
    requires forall i :: 0 <= i < |p| ==> HasKeys(p[i], [first, second])
    requires HasKeys(x, [first, second])
    ensures SumHours(p + [x], first, second) ==
      SumHours(p, first, second) + HoursBetween(Field(x, first).value, Field(x, second).value)
  {
    assert (p + [x])[..|p|] == p;
  }

  /** Two tickets resolved 2 and 4 hours after creation average 3 hours over
      2 tickets; a third ticket without a resolution date is left out of both. */
  lemma AverageOfTwo()
    ensures var t0 := Timestamp("2024-01-01T00:00:00", 0);
      var a := Ticket("BUG-1", "a", "u1", "Completed", None, [], None, Some(t0), None, Some(Timestamp("2024-01-01T02:00:00", 7200)));
      var b := Ticket("BUG-2", "b", "u2", "Completed", None, [], None, Some(t0), None, Some(Timestamp("2024-01-01T04:00:00", 14400)));
      var c := Ticket("BUG-3", "c", "u3", "Dev", None, [], None, Some(t0), None, None);
      SubTimedelta([a, b, c], CreatedAt, CompletedAt) == Some(Delta(3.0, 2))
  {
    var t0 := Timestamp("2024-01-01T00:00:00", 0);
    var a := Ticket("BUG-1", "a", "u1", "Completed", None, [], None, Some(t0), None, Some(Timestamp("2024-01-01T02:00:00", 7200)));
    var b := Ticket("BUG-2", "b", "u2", "Completed", None, [], None, Some(t0), None, Some(Timestamp("2024-01-01T04:00:00", 14400)));
    var c := Ticket("BUG-3", "c", "u3", "Dev", None, [], None, Some(t0), None, None);
    var keys := [CreatedAt, CompletedAt];
    assert !HasKeys(c, keys) by {
      assert keys[1] == CompletedAt && Field(c, CompletedAt).None?;
    }
    assert HasKeys(a, keys) && HasKeys(b, keys);
    KeepsFirstTwo(a, b, c, keys);
    SumHoursOfTwo(a, b, CreatedAt, CompletedAt);
  }

  lemma KeepsFirstTwo(a: Ticket, b: Ticket, c: Ticket, keys: seq<DateKey>)
    requires HasKeys(a, keys) && HasKeys(b, keys) && !HasKeys(c, keys)
    ensures WithKeys([a, b, c], keys) == [a, b]
  {
    WithKeysSnoc([], a, keys);
    WithKeysSnoc([a], b, keys);
    WithKeysSnoc([a, b], c, keys);
    assert [] + [a] == [a] && [a] + [b] == [a, b] && [a, b] + [c] == [a, b, c];
  }

  lemma SumHoursOfTwo(a: Ticket, b: Ticket, first: DateKey, second: DateKey)
    requires HasKeys(a, [first, second]) && HasKeys(b, [first, second])
    ensures SumHours([a, b], first, second) ==
      HoursBetween(Field(a, first).value, Field(a, second).value) + HoursBetween(Field(b, first).value, Field(b, second).value)
  {
    SumHoursSnoc([], a, first, second);
    SumHoursSnoc([a], b, first, second);
    assert [] + [a] == [a] && [a] + [b] == [a, b];
  }

  /** `tickets[:10]`: the first ten tickets, or all of them when fewer. */
  function FirstTen(tickets: seq<Ticket>): (r: seq<Ticket>)
    ensures |r| == if |tickets| < 10 then |tickets| else 10
    ensures r == tickets[..|r|]
  {
    if |tickets| < 10 then tickets else tickets[..10]
  }

  /** `run`: the fetched tickets become one bug report in database
      `databaseId`; a failing builder creates no page. */
  method Run(store: PageStore, databaseId: string, teamKey: string, inspectionDate: string, tickets: seq<Ticket>)
    returns (r: Result<Page>)
    modifies store
    ensures r == BuildBugPage(databaseId, teamKey, inspectionDate, |tickets|, GroupOf(tickets, StatusOf),
                              TimedeltaOf(tickets), FirstTen(tickets))
    ensures r.Ok? ==> store.pages == old(store.pages) + [r.value]
    ensures r.Err? ==> store.pages == old(store.pages)
  {
    var nbTickets := |tickets|;
    var ticketsPerStatus := BucketTicketsPerStatus(tickets);
    var timedelta := ComputeTimedelta(tickets);
    r := BuildBugPage(databaseId, teamKey, inspectionDate, nbTickets, ticketsPerStatus, timedelta, FirstTen(tickets));
    if r.Ok? {
      store.InsertPage(r.value);
    }
  }
}
