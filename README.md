# linear-stats-to-notion, modelled in Dafny

The system reads tickets and cycles from Linear and writes report pages into Notion databases. This project models the in-memory part of that pipeline:

- **Three analysis services.** The ticket, bug and cycle services bucket, filter and index the records they are given.
- **The page builders.** They turn those buckets into the ordered list of Notion blocks of a page:
  - the status section, with its exhaustive and simplified pie charts;
  - the description and type sections of the ticket report;
  - the resolution-time section and its Gantt chart in the bug report;
  - the summary, evolution and details sections of the cycle report, capped at 100 blocks.
- **The configuration loader.** It validates the command line and the properties file.

The files:

- `wrappers.dfy`: `Option`, and `Result` with the Python exception kinds as errors.
- `records.dfy`: tickets, cycles, blocks and pages.
- `dicts.dfy`: an insertion-ordered dict, a sequence of pairs with distinct keys.
- `text.dfy`: integer and fixed-point rendering, and `int()` on a real.
- `buckets.dfy`: one bucketing loop (`GroupBy`), its fold specification (`GroupOf`) and the grouping properties.
- `sorting.dfy`: the stable ascending sort of `sorted(key=len)`.
- `subsequences.dfy`: order-preserving embedding.
- `analysis_service.dfy`, `ticket_analysis_service.dfy`, `bug_analysis_service.dfy`, `cycle_analysis_service.dfy`: the services.
- `document_builder.dfy`: the shared builder.
- `last_ticket_page.dfy`, `last_bug_page.dfy`, `cycle_page.dfy`: the three reports.
- `notion_store.dfy`: the Notion database as a class holding the inserted pages.
- `properties.dfy`: the configuration.

The loops of the source are methods with loop invariants, proved equal to a specification function. The properties are proved about those functions. Exceptions become `Err` values of the same kind (`KeyError`, `ValueError`, `IndexError`, `TypeError`, `AttributeError`, `AssertionError`). A service's `run` takes the records it would fetch as parameters and writes into a `PageStore` object.

Error paths worth knowing, all modelled as the code behaves:

- **A missing mean fails the bug report.** `_compute_sub_timedelta` returns `None` when no ticket has both dates, and the bug page builder subscripts that `None` (`src/notion/last_bug_analysis_page_builder.py:55-56`). The report then fails with `TypeError`. `BugPage.ResolutionOutcome` states exactly when this happens.
- **An unknown status fails the status section.** The status section looks every status up in the status colour table (`src/notion/document_builder.py:136`). A status outside the table, such as `Done`, fails the section with `KeyError("Done")`. `DocumentBuilder.StatusSectionOutcome` states this.
- **A report whose tickets all have a description fails.** The description section reads the `'No Description'` bucket directly (`src/notion/last_ticket_analysis_page_builder.py:93`), and the bucketer creates that bucket only for a ticket without a description. The ticket report is modelled as written, so it fails with `KeyError('No Description')`. `TicketPage.TicketPageOfTickets` states this, and "## Findings" records it with its correction.

## Model

| member | source | states |
|---|---|---|
| AnalysisService.BucketTicketsPerStatus | src/analysis_service/analysis_service.py:26-35 | The status dict is a grouping of the tickets by status name: each ticket sits in the bucket of its own status. An empty input gives an empty dict. |
| Buckets.GroupBy | src/analysis_service/analysis_service.py:27-35 | The append-or-create loop computes the fold specification of bucketing, for any key function. |
| Buckets.GroupOfIsGrouping | src/analysis_service/analysis_service.py:28-33 | The buckets have these properties: distinct keys; the keys are exactly the keys that occur; no bucket is empty; each bucket holds exactly the elements with its key, in input order; keys come in order of first occurrence; the buckets together are a permutation of the input. |
| Buckets.GroupingPartitions | src/analysis_service/analysis_service.py:28-33 | The buckets' sizes add up to the input length. Every element sits in the bucket of its own key, and a bucket holds only elements with its key. |
| Buckets.BucketMembers | src/analysis_service/analysis_service.py:30-33 | An element is in the bucket of key k if and only if it is in the input and its key is k. |
| Buckets.BucketIsSubsequence | src/analysis_service/analysis_service.py:30-31 | Every bucket is a subsequence of the input, embedded at increasing positions. |
| Buckets.GroupingCount | src/notion/document_builder.py:485-488 | The size of a key's bucket, or 0 when the key is absent, is the number of input elements with that key. |
| Sorting.SortByValue | src/notion/document_builder.py:135 | The key-by-count sort yields entries in ascending count order. The result is a permutation of its input. |
| Sorting.SortIsStable | src/notion/document_builder.py:135 | The sort is stable: for every count, the entries with that count keep their input order. |
| Sorting.SortedHasSameEntries | src/notion/document_builder.py:135 | The sorted entries are exactly the input entries. |
| TicketAnalysisService.DescriptionKey | src/analysis_service/ticket_analysis_service.py:46-49 | A ticket is `Description` if and only if its description is present and non-empty. Otherwise it is `No Description`. |
| TicketAnalysisService.TypeKey | src/analysis_service/ticket_analysis_service.py:62-70 | First-match type rules. A `Bug` label wins over any project. A non-bug with a named technical project is `Tech Task`. A non-bug with any other project, even an unnamed one, is a product task with a project. A non-bug without a project is a product task without one. The four cases cover every ticket. |
| TicketAnalysisService.BucketTicketsPerDescriptionStatus | src/analysis_service/ticket_analysis_service.py:43-56 | The result is a grouping by description key with at most the two keys. `Description` is present if and only if some ticket has a description. `No Description` is present if and only if some ticket lacks one. |
| TicketAnalysisService.BucketTicketsPerType | src/analysis_service/ticket_analysis_service.py:58-77 | The result is a grouping by type key, over at most the four type keys. Every ticket sits in the bucket of its own type. |
| BugAnalysisService.SublistContainsKeys | src/analysis_service/bug_analysis_service.py:67-74 | The loop keeps the tickets that have every requested date, computing the reference filter. |
| BugAnalysisService.WithKeysMembers | src/analysis_service/bug_analysis_service.py:70-72 | A ticket is kept if and only if it is in the input and every requested date is present. |
| BugAnalysisService.WithKeysIsSubsequence | src/analysis_service/bug_analysis_service.py:69-72 | The kept tickets are a subsequence of the input and no longer than it. |
| BugAnalysisService.SubTimedelta | src/analysis_service/bug_analysis_service.py:54-65 | There is no mean if and only if no ticket has both dates. Otherwise the sample size is the number of such tickets and is positive, and the mean times the sample size is the sum of their durations in hours. |
| BugAnalysisService.ComputeSubTimedelta | src/analysis_service/bug_analysis_service.py:54-65 | The accumulating loop computes that mean. |
| BugAnalysisService.ComputeTimedelta | src/analysis_service/bug_analysis_service.py:42-51 | There are three means: creation to start, start to resolution, and creation to resolution. The first is absent exactly when no ticket has both dates. |
| BugAnalysisService.NoneWhenNoneQualifies | src/analysis_service/bug_analysis_service.py:56-65 | No qualifying ticket means no mean, and otherwise the sample is the qualifying tickets. |
| BugAnalysisService.AverageOfTwo | src/analysis_service/bug_analysis_service.py:57-64 | Take two tickets resolved 2 h and 4 h after creation, plus one never resolved. Their creation-to-resolution mean is 3 h over a sample of 2. |
| BugAnalysisService.FirstTen | src/analysis_service/bug_analysis_service.py:37 | The details list is the first min(10, n) tickets, in order. |
| BugAnalysisService.Run | src/analysis_service/bug_analysis_service.py:23-40 | The bug report is built from the ticket count, the status buckets, the three means and the first ten tickets. It is inserted into the store exactly when it builds. |
| CycleAnalysisService.BucketCycleDataByName | src/analysis_service/cycle_analysis_service.py:36-41 | The indexing loop computes the fold that overwrites by name. |
| CycleAnalysisService.ByNameLastWins | src/analysis_service/cycle_analysis_service.py:39-40 | The keys are distinct. A name is a key if and only if some cycle has it, and its value is the last cycle with that name. |
| CycleAnalysisService.StoredUnderOwnName | src/analysis_service/cycle_analysis_service.py:40 | The cycle stored under a name carries that name. |
| CycleAnalysisService.ByNameKeysInFirstOccurrenceOrder | src/analysis_service/cycle_analysis_service.py:39-40 | The names appear in order of their first occurrence. |
| CycleAnalysisService.Run | src/analysis_service/cycle_analysis_service.py:21-34 | The cycles are indexed by name and the names visited in order. A name whose page already exists is skipped. Otherwise the page is built from that name's own cycle and inserted. The first build error stops the run. The store gains exactly the inserted pages. |
| CycleAnalysisService.PostMissing | src/analysis_service/cycle_analysis_service.py:25-34 | The skip-if-exists loop inserts exactly the pages of that specification. |
| CycleAnalysisService.PostedOnlyNew | src/analysis_service/cycle_analysis_service.py:25-34 | Each inserted page was built from one entry's own data. It is a cycle page for that entry's name, and no page for that name existed before it. |
| CycleAnalysisService.PostedCovers | src/analysis_service/cycle_analysis_service.py:25-34 | After a run without error, every cycle name has a page. |
| CycleAnalysisService.RunIsIdempotent | src/analysis_service/cycle_analysis_service.py:25-34 | A second run over the same cycles after an error-free run inserts nothing, so each cycle name is inserted at most once. |
| CycleAnalysisService.RunInsertsOnlyNewDocs | src/analysis_service/cycle_analysis_service.py:25-34 | Every page the run inserts is the cycle page of a name that had no page yet. |
| DocumentBuilder.NbValuesForKey | src/notion/document_builder.py:485-488 | The result is the size of the key's bucket when the key is present, else 0. |
| DocumentBuilder.PieChartBlock | src/notion/document_builder.py:405-427 | The i-th colour is named `pie{i+1}`. The data entries are kept in key order. |
| DocumentBuilder.PieThemeNamesDistinct | src/notion/document_builder.py:406 | The colour names of a pie chart are pairwise distinct. |
| DocumentBuilder.MaxOf | src/notion/document_builder.py:460 | The top of the y axis is an element of the history and no element exceeds it. |
| DocumentBuilder.XYChartBlock | src/notion/document_builder.py:457-482 | An empty history raises `ValueError`. Otherwise the x labels are d0..d(n-1), the y axis tops at the maximum, and the bars are the history. |
| DocumentBuilder.BuildPage | src/notion/document_builder.py:73-98 | A page carries the database id, the icon, the cover, the properties and the children. |
| DocumentBuilder.TicketBlocks | src/notion/document_builder.py:113-122 | Per ticket: a linked heading, its status, one paragraph per present date, then a blank line. That is 3 to 6 blocks. |
| DocumentBuilder.TicketDetails | src/notion/document_builder.py:108-124 | A heading and a blank line come first. In total there are between 2 + 3n and 2 + 6n blocks. |
| DocumentBuilder.TicketDetailsBlocks | src/notion/document_builder.py:108-124 | The appending loop computes those blocks. |
| DocumentBuilder.TicketBlocksOf | src/notion/document_builder.py:113-122 | The per-ticket steps compute one ticket's blocks: the linked heading, the status, each present date, then a blank line. |
| DocumentBuilder.SimplifiedData | src/notion/document_builder.py:148-157 | The simplified data always has exactly the five groups, in the order To Do, Dev, Review, Done, Canceled. |
| DocumentBuilder.SimplifiedRegroups | src/notion/document_builder.py:148-157 | The five groups together count the buckets of the nine raw statuses. |
| DocumentBuilder.SimplifiedCountsAll | src/notion/document_builder.py:148-157 | When the status section builds from the status grouping, the simplified counts add up to the number of tickets. |
| DocumentBuilder.ColoredEntries | src/notion/document_builder.py:135-139 | The loop over sorted keys yields colours, data and coloured bullets. It fails with `KeyError` on the first key the colour table lacks. |
| DocumentBuilder.StatusBlocks | src/notion/document_builder.py:126-164 | The status loop computes the status-section specification. |
| DocumentBuilder.StatusSectionOutcome | src/notion/document_builder.py:135-139 | The section builds if and only if every status has a colour. Otherwise it fails with a `KeyError` naming a status of the dict that has none. |
| DocumentBuilder.StatusSectionContents | src/notion/document_builder.py:128-162 | k buckets give k + 9 blocks. There is one coloured bullet per status, with its bucket size and colour name, in ascending count order. |
| TicketPage.Properties | src/notion/last_ticket_analysis_page_builder.py:44-60 | The keys are exactly `Nom` (titled team - date), `nb_tickets`, `generation method` = automated, and `Date of inspection`. |
| TicketPage.DescriptionBlocks | src/notion/last_ticket_analysis_page_builder.py:74-96 | The description loops compute the section as written. That includes `KeyError('No Description')` when the dict has no such bucket. |
| TicketPage.DescriptionAsWrittenOutcome | src/notion/last_ticket_analysis_page_builder.py:74-96 | As written, the section builds if and only if every key has a description colour and the `'No Description'` bucket exists. Otherwise the `KeyError` names an uncoloured key of the dict, or `'No Description'`. |
| TicketPage.DescriptionSectionOutcome | src/notion/last_ticket_analysis_page_builder.py:80-81 | The corrected section, which reads a missing `'No Description'` bucket as empty, builds if and only if every key has a description colour. Otherwise it fails with that key's `KeyError`. |
| TicketPage.DescriptionSectionContents | src/notion/last_ticket_analysis_page_builder.py:76-95 | The section has 8 + m blocks. Its paragraph reports the size of the `Description` bucket, or 0. It has one linked bullet per ticket without a description, in bucket order. |
| TicketPage.DescriptionOfTickets | src/notion/last_ticket_analysis_page_builder.py:74-96 | On the description grouping the corrected section always builds. It counts the described tickets and lists exactly the tickets without a description, in input order. |
| TicketPage.AllDescribedAsWrittenFails | src/notion/last_ticket_analysis_page_builder.py:93 | As written, the section fails with `KeyError('No Description')` whenever every ticket has a description. |
| TicketPage.OneDescribedTicketFails | src/notion/last_ticket_analysis_page_builder.py:93 | A single described ticket makes the section as written fail. |
| TicketPage.TypeBlocks | src/notion/last_ticket_analysis_page_builder.py:98-114 | The type loop computes the type-section specification. |
| TicketPage.TypeSectionOutcome | src/notion/last_ticket_analysis_page_builder.py:98-114 | The section builds if and only if every type has a colour, and otherwise fails with a `KeyError`. It has k + 5 blocks, with one coloured bullet per type in ascending count order. |
| TicketPage.TypeOfTickets | src/notion/last_ticket_analysis_page_builder.py:98-114 | On the type grouping the type section always builds. |
| TicketPage.UndescribedBucket | src/analysis_service/ticket_analysis_service.py:43-56 | The description grouping has a `'No Description'` bucket if and only if some ticket lacks a description. |
| TicketPage.DescriptionWhenUndescribed | src/notion/last_ticket_analysis_page_builder.py:74-96 | When some ticket lacks a description, the section as written builds and equals the corrected one. |
| TicketPage.TicketPageOfTickets | src/notion/last_ticket_analysis_page_builder.py:62-72 | Built from the three groupings, the report builds if and only if some ticket lacks a description and the status section builds. When every ticket is described it fails with `KeyError('No Description')`. Otherwise a status error is the report's error. |
| TicketPage.BuildTicketPageIs | src/notion/last_ticket_analysis_page_builder.py:62-72 | When the three sections build, the page has the database id and the report's properties. Its children are description, divider, status, divider, type. |
| BugPage.Properties | src/notion/last_bug_analysis_page_builder.py:23-31 | The keys are exactly `Name`, `Nb Tickets`, `Generation Method` and `Date of Inspection`, with their values. |
| BugPage.ResolutionOutcome | src/notion/last_bug_analysis_page_builder.py:47-100 | The section builds if and only if all three means exist. A missing one raises `TypeError`. The section has 14 blocks. |
| BugPage.ResolutionBullets | src/notion/last_bug_analysis_page_builder.py:55-73 | Each bullet shows the integer part of its mean and each caveat its sample size. |
| BugPage.ResolutionChart | src/notion/last_bug_analysis_page_builder.py:79-99 | The two segments that start at creation begin at 0 and end at their own mean. The work segment runs from the creation-to-start mean to the creation-to-resolution mean and lasts the start-to-resolution mean. |
| BugPage.ChildrenOutcome | src/notion/last_bug_analysis_page_builder.py:33-45 | The children build if and only if both sections do. The status error comes first. |
| BugPage.ChildrenLayout | src/notion/last_bug_analysis_page_builder.py:33-45 | The children are status, divider, the 14 resolution blocks, divider, and the details titled `Last n bugs synthesis`. |
| CyclePage.Properties | src/notion/cycle_analysis_page_builder.py:15-29 | The keys are exactly `Nom` (team - cycle), `Cycle` (the cycle name), `generation method` and `Date of inspection`. |
| CyclePage.ScopeWalk | src/notion/cycle_analysis_page_builder.py:52-61 | Both totals are non-negative. The walk ends on the last element, or on -1 for an empty history. |
| CyclePage.ScopeWalkSumsChanges | src/notion/cycle_analysis_page_builder.py:52-61 | On a non-negative history, added is the sum of the rises between neighbours and removed the sum of the falls. |
| CyclePage.ScopeTelescopes | src/notion/cycle_analysis_page_builder.py:52-61 | On a non-empty non-negative history, added minus removed is last minus first. |
| CyclePage.ScopeNeverFalls | src/notion/cycle_analysis_page_builder.py:52-61 | A strictly increasing history removes nothing and adds last minus first. |
| CyclePage.ScopeWalkExample | src/notion/cycle_analysis_page_builder.py:52-61 | [5,7,6,6,9] adds 5 and removes 1. |
| CyclePage.SummarySection | src/notion/cycle_analysis_page_builder.py:44-69 | An empty scope history raises `ValueError`. An empty completed history raises `IndexError`. Otherwise there are 8 blocks, headed `Summary`. |
| CyclePage.WalkScope | src/notion/cycle_analysis_page_builder.py:52-61 | The loop computes the scope walk. |
| CyclePage.SummaryBlocks | src/notion/cycle_analysis_page_builder.py:44-69 | The summary method computes the summary specification. |
| CyclePage.SummaryFigures | src/notion/cycle_analysis_page_builder.py:49-68 | The summary shows the maximum of the scope history, the added and removed totals of the walk, the last completed count, and the progress to four decimals. |
| CyclePage.EvolutionSection | src/notion/cycle_analysis_page_builder.py:71-80 | The section builds if and only if all three histories are non-empty, else it raises `ValueError`. It has 7 blocks: three headed bar charts of the scope, in-progress and completed histories. |
| CyclePage.ChildrenBlocks | src/notion/cycle_analysis_page_builder.py:31-42 | The children method computes the children specification. |
| CyclePage.ChildrenOutcome | src/notion/cycle_analysis_page_builder.py:31-42 | The children build if and only if all three histories are non-empty. The errors come in the source's order: `ValueError` for an empty scope history, `IndexError` for an empty completed history, `ValueError` for an empty in-progress history. |
| CyclePage.ChildrenLayout | src/notion/cycle_analysis_page_builder.py:31-42 | There are min(100, 17 + d) blocks: the summary, a divider, the evolution, a divider, then the uncompleted tickets' details cut to fit. |
| CyclePage.PageIsCycleDoc | src/notion/cycle_analysis_page_builder.py:21-29 | A built cycle page is found by the existence query for its database and cycle name. |
| NotionStore.PageStore.InsertPage | src/notion/notion_service.py:15-17 | Inserting appends the page to the database and changes nothing else. |
| Properties.ValidateStr | src/properties.py:93-98 | A value is accepted if and only if it is present and non-empty. It is returned unchanged, else `AssertionError` is raised. |
| Properties.ValidateInt | src/properties.py:106-110 | A value is accepted if and only if it is positive. It is returned unchanged, else `AssertionError` is raised. |
| Properties.ValidateListStr | src/properties.py:100-104 | A list is accepted if and only if it is non-empty and every item is non-empty. It is returned unchanged, else `AssertionError` is raised. |
| Properties.Lookup | src/properties.py:12-14 | A missing key raises `AttributeError`. An empty value raises `AssertionError`. Otherwise the result is the file's value. |
| Properties.LoadOutcome | src/properties.py:7-39 | The load succeeds if and only if all of these hold: the path is non-empty; the three common keys are defined; the modes are a non-empty list of non-empty names; each selected mode's two keys are defined; and, for `TICKET` or `BUG`, the limit is positive. |
| Properties.LoadFields | src/properties.py:12-39 | The common fields come from the file and the modes are unchanged. Each mode's fields are set from the file if and only if that mode is selected. The limit is set if and only if `TICKET` or `BUG` is selected, and is then positive. |
| Properties.MissingCommonProperty | src/properties.py:12-14 | The first missing common key, in reading order, decides the `AttributeError`. |
| Properties.CycleOnlyIgnoresLimit | src/properties.py:36-39 | A cycle-only load does not depend on the limit and leaves it unset. |
| Text.Truncate | src/notion/last_bug_analysis_page_builder.py:55 | `int()` on a float truncates toward zero. |

## Left out

- The HTTP clients are not part of this model. This covers the Linear fetches (`src/linear/`), the GraphQL templates, and the Notion HTTP calls (`src/http_client.py`). Fetched records are parameters of each `run`. The Notion database is the `PageStore` object, and its existence query is a predicate over the stored pages.
- `src/main.py` is not part of this model. It only dispatches on the modes.
- `src/properties.py:112-154`, the argument parser, is not modelled. The parsed command line is the `Args` value.
- `src/properties.py:86-91`, the loading of the properties file, is not modelled. The file is a map from keys to strings.
- `Properties.Load`: the source's `Properties()` constructor becomes a value and a function returning `Result`. A Dafny constructor cannot fail.
- `Properties.Lookup`: a missing key is reported as `AttributeError` naming the key. The source raises it on `None.data` (`src/properties.py:12`).
- The ticket analysis `run` (`src/analysis_service/ticket_analysis_service.py:22-40`) is not modelled as a method. `TicketPage.TicketPageOfTickets` states the page it builds from the three groupings.
- Timestamps are a text and a whole number of seconds. ISO-8601 parsing (`datetime.fromisoformat`) is not modelled. Time zones and leap seconds are taken as already resolved into the seconds value. Fractional seconds (Linear timestamps carry milliseconds) are dropped, although `total_seconds()` keeps them. So the mean resolution time in whole hours (`src/notion/last_bug_analysis_page_builder.py:55`) can differ by one from the code's when the exact mean lies within a second of a whole hour.
- Floating point is modelled with exact reals. Rounding of the Python float sum and division is not captured. `int()` is modelled by `Text.Truncate`.
- `CyclePage.SummarySection`: the progress score arrives already rounded to ten-thousandths, as a natural number. Python's `round` on a float and negative progress values are not modelled.
- The Mermaid and Notion payload texts are not modelled character by character. Blocks are structured values, including the pie, bar and Gantt charts. The whitespace of the Mermaid templates is left out.
- The inspection date is a string parameter. `datetime.now` is left out.
- `CycleAnalysisService.Run`: an error raised by a page build stops the run, with the pages inserted before it kept. A failing HTTP call is not modelled.

## Findings

| source | as written | input that shows it | evidently intended | confidence | as-written member | corrected member |
|---|---|---|---|---|---|---|
| src/notion/last_ticket_analysis_page_builder.py:93 | The description section indexes the dict with `'No Description'`. That key is absent when every ticket has a description, including when there are no tickets, so the report raises `KeyError`. | One ticket whose description is `"d"` | List no ticket when no ticket lacks a description (use an empty list for the missing key) | not executed | TicketPage.AllDescribedAsWrittenFails | TicketPage.DescriptionOfTickets |
