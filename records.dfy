/** The tracker's records as the analysis reads them: tickets and cycles. */
module Records {
  import opened Wrappers

  /** An ISO-8601 timestamp: the text the tracker sends, and the instant it
      denotes in seconds (what `datetime.fromisoformat` recovers from it). */
  datatype Timestamp = Timestamp(text: string, seconds: int)

  /** A project; the tracker may send a project whose name is null. */
  datatype Project = Project(name: Option<string>)

  /** A ticket. A date that is absent from the record and one that is `null`
      are both `None`. `labels` holds the names of the label nodes. */
  datatype Ticket = Ticket(
    identifier: string,
    title: string,
    url: string,
    stateName: string,
    description: Option<string>,
    labels: seq<string>,
    project: Option<Project>,
    createdAt: Option<Timestamp>,
    startedAt: Option<Timestamp>,
    completedAt: Option<Timestamp>)

  /** `ticket['state']['name']`. */
  function StatusOf(t: Ticket): string {
    t.stateName
  }

  /** The three date fields the bug analysis pairs up. */
  datatype DateKey = CreatedAt | StartedAt | CompletedAt

  /** `item[key]`, with `None` when the key is missing or null. */
  function Field(t: Ticket, k: DateKey): Option<Timestamp> {
    match k
    case CreatedAt => t.createdAt
    case StartedAt => t.startedAt
    case CompletedAt => t.completedAt
  }

  /** A time-delta statistic: the mean in hours and how many tickets it averages. */
  datatype Delta = Delta(valueHours: real, sampleSize: nat)

  /** The three statistics of the bug analysis; `None` is a statistic that
      no ticket qualified for. */
  datatype Timedelta = Timedelta(
    createdStarted: Option<Delta>,
    startedCompleted: Option<Delta>,
    createdCompleted: Option<Delta>)

  /** A cycle (iteration). The histories are sampled scope counts; `progress`
      is the progress score in ten-thousandths, already rounded. */
  datatype Cycle = Cycle(
    name: string,
    startsAt: string,
    endsAt: string,
    scopeHistory: seq<int>,
    inProgressScopeHistory: seq<int>,
    completedScopeHistory: seq<int>,
    progress: nat,
    uncompletedIssuesUponClose: seq<Ticket>)

  /** `item['name']`. */
  function NameOf(c: Cycle): string {
    c.name
  }
}
