# Mass update of incidents — a Dafny model

This project models the core of the `mass_update_incidents` script. The
script acknowledges or resolves many incidents of an incident-management
platform at once. It has two parts that run one after the other:

- **Filter builder.** This part writes the query parameters for the incidents
  listing into a dictionary, `PARAMETERS`, that lives at module level. The
  dictionary starts with two fixed defaults (`is_overview = 'true'` and
  `date_range = 'all'`). A call adds `user_ids[]` and `service_ids[]` only when
  the matching argument is non-empty. Each is set to the comma-split of its
  argument. A call sets `statuses[]` when the action is `resolve` or
  `acknowledge`. The dictionary is updated in place, so an earlier call's
  values stay unless a later call overwrites them.
- **Bulk mutator.** This part walks the listing in order. In a dry run it
  prints a notice for each incident and counts it. Otherwise it sends an update
  to the incident's own resource, prints a confirmation, and then counts it. A
  client error stops the walk. The error's response text is printed if a
  response is attached, and the error is re-raised. In every case the total is
  printed last.

Files:

- `wrappers.dfy`: `Option`.
- `filters.dfy`, module `Filters`: `Split` and `Join` (Python's
  `str.split(',')` and `','.join`), the specification `Built` of one build, and
  the class `Parameters` that holds the dictionary and updates it in place.
- `mutator.dfy`, module `Mutator`: the remote API as data, the printed lines,
  the closed-form specification `Expected` of a run, the loop `RunUpdates`
  proved against it, and lemmas about `Expected`.
- `mass_update.dfy`, module `MassUpdate`: the whole invocation
  `MassUpdateIncidents`, and the two lemmas of the finding below.

How the environment is modelled:

- The remote listing is a finite sequence of `Listed` records. Each record
  pairs an incident (`id`, `self`) with the server's answer to that incident's
  update: accepted, or rejected with a client error.
- The listing may end in a fetch failure, which is a client error raised after
  the last incident it yielded.
- `MassUpdateIncidents` takes the server as a function from query parameters
  to such a listing.
- Printing is modelled as appending to a log of lines.
- Each call to the update endpoint is recorded as an `UpdateRequest` (URL and
  payload). The request that fails is recorded too, because it was sent.

Two points where the model follows the code closely:

- The action is any string, not one of two fixed values. An action other
  than `resolve` or `acknowledge` writes no status filter and leaves any
  earlier `statuses[]` in place.
- The total is incremented after the update call returns
  (`mass_update_incidents/mass_update_incidents.py:36-42`). So when the update
  of the k-th incident fails, the total printed is k, not k + 1.
  `Mutator.SecondUpdateRejected` shows "Total of 1 incidents updated." when
  the second of two updates fails.

## Model

| member | source | states |
|---|---|---|
| `Filters.Split` | mass_update_incidents/mass_update_incidents.py:21-23 | the comma-split of a string has one more piece than the string has commas, and no piece contains a comma |
| `Filters.JoinSplit` | mass_update_incidents/mass_update_incidents.py:21-23 | joining the pieces with ',' gives back the argument exactly |
| `Filters.SplitJoin` | mass_update_incidents/mass_update_incidents.py:21-23 | conversely, splitting the ','-join of one or more comma-free pieces gives back those pieces, so the split loses nothing |
| `Filters.Defaults` | mass_update_incidents/mass_update_incidents.py:12-15 | the dictionary at load time holds `is_overview = 'true'` and `date_range = 'all'` and no filter key |
| `Filters.Built` | mass_update_incidents/mass_update_incidents.py:20-27 | after one build the defaults are still present and no key is removed; `user_ids[]` and `service_ids[]` are set to the split of their argument exactly when it is non-empty, otherwise left as they were; `statuses[]` is [triggered, acknowledged] for `resolve`, [triggered] for `acknowledge`, and left as it was for any other action; every other key keeps its value |
| `Filters.FreshBuildWithoutIds` | mass_update_incidents/mass_update_incidents.py:12-15 | on a freshly loaded dictionary, empty or absent id arguments leave no user or service filter, so all users and services match |
| `Filters.FiltersPersistAcrossCalls` | mass_update_incidents/mass_update_incidents.py:12-21 | a user filter written by one call is still in the dictionary after a later call that gives no user id |
| `Filters.Parameters.constructor` | mass_update_incidents/mass_update_incidents.py:12-15 | the module-level dictionary starts as the two defaults |
| `Filters.Parameters.Build` | mass_update_incidents/mass_update_incidents.py:20-27 | the in-place updates leave the dictionary equal to `Built` of its previous contents |
| `Filters.StatusFilter` | mass_update_incidents/mass_update_incidents.py:24-27 | a status filter exists exactly for `resolve` and `acknowledge`; it always holds `triggered`, never `resolved`, and holds `acknowledged` only for `resolve` |
| `Mutator.TargetStatus` | mass_update_incidents/mass_update_incidents.py:39 | definition: the requested status is the action followed by one `d` |
| `Mutator.UpdateFor` | mass_update_incidents/mass_update_incidents.py:36-40 | definition: the request goes to the incident's `self`, with payload type `incident_reference`, the incident's id and `TargetStatus` of the action |
| `Mutator.DryRunNotice` | mass_update_incidents/mass_update_incidents.py:32-33 | definition: the line printed at 32-33; the incident id stands right after the 23-character lead-in, followed by a 32-character tail |
| `Mutator.Confirmation` | mass_update_incidents/mass_update_incidents.py:41 | definition: the line printed at 41; it starts with the target status and ends with the incident id |
| `Mutator.TotalLine` | mass_update_incidents/mass_update_incidents.py:48 | definition: the line printed at 48; it is longer than its 9-character lead-in and 19-character tail together, and the total's digits stand between them (see `Mutator.TotalLineReadsBack`) |
| `Mutator.TotalLineReadsBack` | mass_update_incidents/mass_update_incidents.py:48 | the digits between the 9-character lead-in and the 19-character tail of the summary line read back as the total |
| `Mutator.BodyLines` | mass_update_incidents/mass_update_incidents.py:44-45 | definition: one line, the response text, exactly when the error carries a response, and no line otherwise |
| `Mutator.Expected` | mass_update_incidents/mass_update_incidents.py:28-48 | the closed form of a run: the total never exceeds the listing; the log is one line per counted incident, then the response text if any, then the total line, which is last; a dry run sends nothing, a real run sends the counted incidents' requests plus at most the one that failed |
| `Mutator.FetchFailureBeforeAnyIncident` | mass_update_incidents/mass_update_incidents.py:30 | when the listing fails before yielding any incident, nothing is counted or sent, the log is the response text if any and then "Total of 0 incidents updated.", and the error is re-raised |
| `Mutator.Decimal` | mass_update_incidents/mass_update_incidents.py:48 | `%d` of the total is a non-empty string of decimal digits |
| `Mutator.ParseDecimalOfDecimal` | mass_update_incidents/mass_update_incidents.py:48 | the printed total reads back as the total |
| `Mutator.FirstRejected` | mass_update_incidents/mass_update_incidents.py:36-42 | the stopping point of a real run: every earlier update is accepted, and the update at that point, if there is one, is rejected |
| `Mutator.RunUpdates` | mass_update_incidents/mass_update_incidents.py:28-48 | the loop with its try/except/finally produces exactly the total, log, requests and outcome of `Expected` |
| `Mutator.DryRunOnlyReports` | mass_update_incidents/mass_update_incidents.py:31-35 | a dry run sends no request, counts every listed incident, and prints one "Not acting on incident …" line per incident in listing order; it raises only if the fetch fails |
| `Mutator.UpdatesFollowListing` | mass_update_incidents/mass_update_incidents.py:36-41 | a real run's i-th request goes to the i-th incident's `self`, with payload type `incident_reference`, that incident's id and status action + "d"; the i-th counted incident is confirmed with "<action>d incident <id>" |
| `Mutator.RejectedUpdateStopsRun` | mass_update_incidents/mass_update_incidents.py:36-46 | when the update of incident k is the first rejected, exactly k + 1 requests are sent, the total is k, the log is the k confirmations, then the response text if present, then the total line, and that error is re-raised |
| `Mutator.TotalIsPrintedLast` | mass_update_incidents/mass_update_incidents.py:43-48 | on every path the last line is "Total of N incidents updated." for the final total; when the run re-raises an error with a response, the response text is the line before it; the run raises exactly when an update is rejected or the fetch fails |
| `Mutator.FinishedRunCountsEverything` | mass_update_incidents/mass_update_incidents.py:29-42 | a run that ends normally has counted every listed incident, and the fetch did not fail |
| `Mutator.ResolveTwoIncidents` | mass_update_incidents/mass_update_incidents.py:36-48 | resolving two incidents that are both accepted sends two requests with status "resolved", prints two confirmations and "Total of 2 incidents updated.", and ends normally |
| `Mutator.SecondUpdateRejected` | mass_update_incidents/mass_update_incidents.py:36-48 | when the second of two updates is rejected with a response, the log is the first confirmation, the response text, then "Total of 1 incidents updated.", and the error is re-raised |
| `MassUpdate.MassUpdateIncidents` | mass_update_incidents/mass_update_incidents.py:17-48 | one invocation updates the shared dictionary as `Built` says, lists with exactly that dictionary as the query, and produces `Expected` of the resulting listing |
| `MassUpdate.AsWrittenChoicesCannotAcknowledge` | mass_update_incidents/mass_update_incidents.py:61 | the declared choices admit 'acknowldege' and not 'acknowledge'; that action writes no status filter and asks for status "acknowldeged", and no admitted action asks for "acknowledged" |
| `MassUpdate.IntendedChoicesSelectFilterAndStatus` | mass_update_incidents/mass_update_incidents.py:24-27 | for `acknowledge` and `resolve` the build writes the action's status filter, the update asks for "acknowledged" or "resolved", and that target status is not among the statuses the filter selects |

## Findings

| source | as written | input that shows it | evidently intended | confidence | as-written member | corrected member |
|---|---|---|---|---|---|---|
| mass_update_incidents/mass_update_incidents.py:61 | the `--action` choices are `'acknowldege'` and `'resolve'` | `--action acknowledge` is refused by the command line; `--action acknowldege` is accepted, writes no `statuses[]` filter and sends status "acknowldeged" | the choices `'acknowledge'` and `'resolve'` that lines 26 and 39 expect | high, not executed | `MassUpdate.AsWrittenChoicesCannotAcknowledge` | `MassUpdate.IntendedChoicesSelectFilterAndStatus` |

The core itself takes the action as any string, so it covers both choice
sets. The predicates `CliAcceptsAsWritten` and `CliAccepts` state the two sets.

## Left out

- Argument parsing in `main` (lines 50-68) is not modelled. Only the choice
  check for `--action` is modelled, as the finding above.
- The API session is not modelled: its construction, the API key, the
  requester email, authentication, HTTP transport and JSON encoding are
  foreign calls. The listing and the update answers are inputs instead.
- Pagination inside `list_all` is not modelled. The listing is one flattened
  finite sequence, possibly followed by a fetch failure.
- The listing admits more behaviours than the script shows. The client
  library's `list_all` (not part of this model) collects every page before
  it returns, so a page-fetch failure is raised before any incident is
  processed: that is the case `items == []` with a fetch failure
  (`Mutator.FetchFailureBeforeAnyIncident`). The model also admits a fetch
  failure after some incidents were yielded, as a lazy walk would produce.
  Every property above holds for both.
- Exceptions other than the client error are not modelled. They skip the
  response print but still print the total.
- The exact console formatting is modelled only for the lines the core prints.
  Unused imports are not modelled.
- An absent argument and an empty one both read as "not provided". This
  matches Python's truthiness test at lines 20 and 22.
