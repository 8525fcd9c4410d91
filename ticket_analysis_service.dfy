/** The ticket analysis: description and type bucketing of the last tickets. */
module TicketAnalysisService {
  import opened Wrappers
  import opened Records
  import opened Dicts
  import opened Buckets

  /** Projects whose tickets count as technical work. */
  const TECH_PROJECTS: seq<string> := ["Payment Optimizations", "Tech Improvements"]

  const TYPE_KEYS: seq<string> :=
    ["Bug", "Tech Task", "Product Task with a project", "Product Task without a project"]

  predicate HasDescription(t: Ticket) {
    t.description.Some? && |t.description.value| > 0
  }

  /** The description bucket of a ticket. */
  function DescriptionKey(t: Ticket): (k: string)
    ensures k == "Description" || k == "No Description"
    ensures k == "Description" <==> HasDescription(t)
  {
    if t.description.Some? && |t.description.value| > 0 then "Description" else "No Description"
  }

  predicate IsTechProject(t: Ticket) {
    t.project.Some? && t.project.value.name.Some? && t.project.value.name.value in TECH_PROJECTS
  }

  /** The type of a ticket; the first rule that applies wins: a `Bug` label,
      then a technical project, then any project (even one without a name),
      then none. */
  function TypeKey(t: Ticket): (k: string)
    ensures k in TYPE_KEYS
    ensures k == "Bug" <==> "Bug" in t.labels
    ensures k == "Tech Task" <==> "Bug" !in t.labels && IsTechProject(t)
    ensures k == "Product Task with a project" <==> "Bug" !in t.labels && !IsTechProject(t) && t.project.Some?
    ensures k == "Product Task without a project" <==> "Bug" !in t.labels && t.project.None?
  {
    if "Bug" in t.labels then "Bug"
    else if t.project.Some? && t.project.value.name.Some? && t.project.value.name.value in TECH_PROJECTS then "Tech Task"
    else if t.project.Some? then "Product Task with a project"
    else "Product Task without a project"
  }

  /** `_bucket_tickets_per_description_status`. */
  method BucketTicketsPerDescriptionStatus(tickets: seq<Ticket>) returns (results: Buckets<Ticket>)
    ensures results == GroupOf(tickets, DescriptionKey)
    ensures IsGrouping(results, tickets, DescriptionKey)
    ensures forall k :: Has(results, k) ==> k == "Description" || k == "No Description"
    ensures |results| <= 2
    ensures Has(results, "Description") <==> exists j :: 0 <= j < |tickets| && HasDescription(tickets[j])
    ensures Has(results, "No Description") <==> exists j :: 0 <= j < |tickets| && !HasDescription(tickets[j])
  {
    results := GroupBy(tickets, DescriptionKey);
    forall k | Has(results, k) ensures k in ["Description", "No Description"] {
      var j :| 0 <= j < |tickets| && DescriptionKey(tickets[j]) == k;
    }
    KeysWithin(results, ["Description", "No Description"]);
    if exists j :: 0 <= j < |tickets| && !HasDescription(tickets[j]) {
      var j :| 0 <= j < |tickets| && !HasDescription(tickets[j]);
      assert DescriptionKey(tickets[j]) == "No Description";
    }
    if exists j :: 0 <= j < |tickets| && HasDescription(tickets[j]) {
      var j :| 0 <= j < |tickets| && HasDescription(tickets[j]);
      assert DescriptionKey(tickets[j]) == "Description";
    }
  }

  /** `_bucket_tickets_per_type`. */
  method BucketTicketsPerType(tickets: seq<Ticket>) returns (results: Buckets<Ticket>)
    ensures results == GroupOf(tickets, TypeKey)
    ensures IsGrouping(results, tickets, TypeKey)
    ensures forall k :: Has(results, k) ==> k in TYPE_KEYS
    ensures |results| <= 4
    ensures forall j :: 0 <= j < |tickets| ==>
      Has(results, TypeKey(tickets[j])) && tickets[j] in Get(results, TypeKey(tickets[j]))
  {
    results := GroupBy(tickets, TypeKey);
    GroupingPartitions(results, tickets, TypeKey);
    forall k | Has(results, k) ensures k in TYPE_KEYS {
      var j :| 0 <= j < |tickets| && TypeKey(tickets[j]) == k;
    }
    KeysWithin(results, TYPE_KEYS);
  }

  /** A dict with distinct keys drawn from `ks` has at most `|ks|` entries. */
  lemma KeysWithin<V>(m: Dict<V>, ks: seq<string>)
    requires DistinctKeys(m)
    requires forall k :: Has(m, k) ==> k in ks
    ensures |m| <= |ks|
  {
    var used := set i | 0 <= i < |m| :: m[i].0;
    assert used <= set k | k in ks;
    InjectiveImageSize(m, used);
    SeqSetSize(ks);
    SubsetSize(used, set k | k in ks);
  }

  lemma SubsetSize(a: set<string>, b: set<string>)
    requires a <= b
    ensures |a| <= |b|
  {
    if a != {} {
      var x :| x in a;
      SubsetSize(a - {x}, b - {x});
    }
  }

  lemma InjectiveImageSize<V>(m: Dict<V>, used: set<string>)
    requires DistinctKeys(m)
    requires used == set i | 0 <= i < |m| :: m[i].0
    ensures |used| == |m|
  {
    if m != [] {
      var rest := set i | 0 <= i < |m| - 1 :: m[i].0;
      InjectiveImageSize(m[..|m| - 1], rest);
      assert used == rest + {m[|m| - 1].0};
      assert m[|m| - 1].0 !in rest;
    }
  }

  lemma SeqSetSize(ks: seq<string>)
    ensures |set k | k in ks| <= |ks|
  {
    if ks != [] {
      SeqSetSize(ks[1..]);
      assert (set k | k in ks) == (set k | k in ks[1..]) + {ks[0]};
    }
  }
}
