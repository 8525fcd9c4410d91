/** The shared part of the three analysis services: bucketing tickets by status. */
module AnalysisService {
  import opened Records
  import opened Dicts
  import opened Buckets

  /** `_bucket_tickets_per_status`: every ticket goes to the bucket named by
      its status; unknown statuses simply become new keys. */
  method BucketTicketsPerStatus(tickets: seq<Ticket>) returns (results: Buckets<Ticket>)
    ensures results == GroupOf(tickets, StatusOf)
    ensures IsGrouping(results, tickets, StatusOf)
    ensures tickets == [] ==> results == []
    ensures forall j :: 0 <= j < |tickets| ==>
      Has(results, tickets[j].stateName) && tickets[j] in Get(results, tickets[j].stateName)
  {
    results := GroupBy(tickets, StatusOf);
    GroupingPartitions(results, tickets, StatusOf);
  }
}
