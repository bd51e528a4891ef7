# Daily job-intake pipeline: deduplicator and run graph

A model of the two pieces of sequential logic of a small job-search pipeline.

- **Deduplicator** (`deduplicate_jobs.py`). It loads today's and yesterday's dated job snapshots. A missing snapshot reads as an empty list. It collects the truthy ids of yesterday's postings and keeps, in order, every posting of today whose id is not among them. The result is written to `new_jobs_<today>`.
- **Run graph** (`agent_graph.py`). Four nodes pass an accumulated state record along the fixed graph `START → load_profile → load_jobs → (route) → match_jobs? → save_results → END`. Each node returns a new record built by additive merges of the fields and of the `stats` map. `load_jobs` prefers `new_jobs_<date>`, then `jobs_<date>`, and otherwise uses an empty batch with the source `"NONE"`. An empty batch goes straight to `save_results`. `match_jobs` is a placeholder that only records `matching_ran = false` and a note. `save_results` writes `{run_date, stats, matches, rejected}` to `matches_<run_date>`.

Files:
- `wrappers.dfy` holds `Option` and `Result`.
- `snapshots.dfy` holds the `Job` record, Python truthiness of optional strings, and the snapshot paths. The store is a `map` from file path to job array, so "the file exists" is "the path is a key".
- `deduplicate_jobs.dfy` holds the deduplicator and its properties.
- `agent_graph.dfy` holds the state record, the four nodes, the graph as a transition function over a node enumeration, `Run`, and the whole-run lemmas.
- `daily_flow.dfy` connects the two: the graph run after deduplication loads exactly the new postings.

Both source files are pure apart from their I/O, so every operation is a function. The I/O is modelled as follows:
- the current date is a parameter (`Env.today`, and `today`/`yesterday` for the deduplicator);
- file reads are map lookups;
- the profile file is a separate map, and its absence is a `Failure` (the source raises there);
- the one file write of a run is returned in the run's `Outcome.writes`.

`match_jobs_node` is a placeholder for matching that is not written yet (its docstring at agent_graph.py:92-94 says so). It never fills `matches` or `rejected`, and the model keeps it as that stub.

## Model

| member | source | states |
|---|---|---|
| `Snapshots.OrElse` | agent_graph.py:48 | `x or default` on an optional string: a truthy value is kept, None and `""` give the default |
| `Snapshots.PathsDistinct` | deduplicate_jobs.py:26-28 | the `jobs_`, `new_jobs_` and `matches_` paths never name the same file: paths of different kinds never coincide, and paths of the same kind coincide only for the same date |
| `DeduplicateJobs.LoadJobs` | deduplicate_jobs.py:6-11 | a missing file reads as `[]`; an existing one reads as the list it holds |
| `DeduplicateJobs.SeenIds` | deduplicate_jobs.py:35 | the seen set holds exactly the truthy ids of yesterday's postings: each truthy id is in it, each member comes from some posting, and `""` is never in it |
| `DeduplicateJobs.FilterNew` | deduplicate_jobs.py:38-41 | the filter adds nothing: its result is no longer than today's list, and every element is a posting of today whose id is not in the seen set |
| `DeduplicateJobs.Dedup` | deduplicate_jobs.py:35-41 | no kept posting carries an id that is a truthy id of some posting of yesterday; every kept posting is one of today's |
| `DeduplicateJobs.FilterNewIsSubsequence` | deduplicate_jobs.py:38-41 | the filter's result is a subsequence of today's list: order kept, a filter and not a re-sort |
| `DeduplicateJobs.FilterNewCounts` | deduplicate_jobs.py:38-41 | every posting occurs in the result as often as in today's list if its id is unseen, and not at all otherwise (duplicates within today are kept) |
| `DeduplicateJobs.DedupIsSubsequence` | deduplicate_jobs.py:35-41 | the deduplicated list is a subsequence of today's postings |
| `DeduplicateJobs.DedupComplete` | deduplicate_jobs.py:35-41 | completeness: a posting whose id matches no truthy id of yesterday keeps all its occurrences; a posting with a missing or empty id is always kept |
| `DeduplicateJobs.FilterNothingSeen` | deduplicate_jobs.py:38-41 | with an empty seen set the filter returns today's list unchanged |
| `DeduplicateJobs.DedupEmptyYesterday` | deduplicate_jobs.py:6-11 | with an empty yesterday, including a missing snapshot loaded as `[]`, the result equals today's list |
| `DeduplicateJobs.FalsyIdsNotSeen` | deduplicate_jobs.py:35 | yesterday's postings with a missing or empty id add nothing to the seen set |
| `DeduplicateJobs.DedupIgnoresFalsyYesterday` | deduplicate_jobs.py:35-41 | appending postings without a truthy id to yesterday's list leaves the result unchanged |
| `DeduplicateJobs.SkippedIsCountSeen` | deduplicate_jobs.py:38-49 | the "duplicates skipped" figure `len(today) - len(new)` is exactly the number of today's postings whose id was seen |
| `DeduplicateJobs.FilterNewIdempotent` | deduplicate_jobs.py:38-41 | filtering the result again against the same seen set changes nothing |
| `DeduplicateJobs.DeduplicateDay` | deduplicate_jobs.py:21-49 | the store gains `new_jobs_<today>` holding the deduplication of today's snapshot against yesterday's (missing as empty); every other file is unchanged; the report has `0 <= skipped <= total` and `new + skipped == total` |
| `AgentGraph.LoadProfileNode` | agent_graph.py:42-51 | fails exactly when the profile file is missing; otherwise keeps a truthy run date or uses today, stores the profile, sets `profile_loaded = true`, keeps every other stats key and every other field |
| `AgentGraph.SelectJobs` | agent_graph.py:58-70 | priority order: the `new_jobs` file of the date if it exists, otherwise its `jobs` file, otherwise `[]` with source `"NONE"` |
| `AgentGraph.SourceIsTheFileRead` | agent_graph.py:58-70 | the source is `"NONE"` exactly when neither file exists; otherwise it is the path whose contents were loaded |
| `AgentGraph.LoadJobsNode` | agent_graph.py:54-82 | `jobs` is the selected batch and `jobs_loaded` its length; `jobs_source` is recorded; `matches`/`rejected` keep an earlier value or default to `[]`; run date, profile and every other stats key are unchanged |
| `AgentGraph.RouteIfNoJobs` | agent_graph.py:85-88 | routes to save_results exactly when `jobs` is empty or absent, to match_jobs exactly otherwise |
| `AgentGraph.MatchJobsNode` | agent_graph.py:91-99 | only `stats` changes: `matching_ran = false` and the note are set and every other stats key is kept; jobs, matches, rejected, run date and profile are unchanged |
| `AgentGraph.SaveResultsNode` | agent_graph.py:102-120 | returns the state unchanged and one write of `{run_date, stats, matches, rejected}` (absent lists as `[]`) to `matches_<run_date>` |
| `AgentGraph.Successor` | agent_graph.py:132-146 | the graph's edges: after load_jobs the route decides; every other edge goes one step nearer END; no edge leads back (the graph is acyclic) |
| `AgentGraph.Execute` | agent_graph.py:132-146 | running the graph from a node until END: the trace starts at that node and ends at END; only a run through load_profile can fail, and it fails exactly when the profile is missing; a run that reaches save_results writes exactly one payload, one that starts at END writes nothing |
| `AgentGraph.Run` | agent_graph.py:148-153 | the compiled graph run from START: it fails exactly when the profile is missing; otherwise the trace goes from START to END with exactly one write (the whole behaviour is stated by RunShape) |
| `AgentGraph.TodayState` | agent_graph.py:151-153 | the script's initial state `{"run_date": today}`: only the run date is set, so the resolved run date is today |
| `AgentGraph.RunDateSettled` | agent_graph.py:48-55 | once load_profile has run, load_jobs and save_results resolve the same run date load_profile stored |
| `AgentGraph.ExecuteFromLoadJobs` | agent_graph.py:136-146 | from load_jobs the run visits match_jobs only for a non-empty batch, then save_results once, then END, with exactly one write |
| `AgentGraph.ExecuteFromStart` | agent_graph.py:132-133 | a run starts with load_profile then load_jobs; a missing profile fails the run before anything is written |
| `AgentGraph.FinalStats` | agent_graph.py:46-99 | the final stats are the initial ones plus exactly the keys of the nodes visited; no earlier field or stats key is dropped |
| `AgentGraph.RunShape` | agent_graph.py:124-148 | a whole run: fails iff the profile is missing; otherwise the visit order is fixed with match_jobs iff the batch is non-empty; there is one write under `matches_<date>`; jobs, source, `jobs_loaded` and `profile_loaded` are as loaded; the merge is additive |
| `AgentGraph.EmptyBatchSkipsMatching` | agent_graph.py:151-153 | the script's run with an empty batch never visits match_jobs and saves empty matches and rejected, `jobs_loaded == 0` and no `matching_ran` |
| `DailyFlow.DailyRun` | deduplicate_jobs.py:38-44 | after deduplication, the graph run of the same day loads exactly the new postings from `new_jobs_<today>`, skips matching iff there are none, and loads all of today's postings when yesterday's snapshot is missing |

## Left out

- File I/O: JSON reading and writing, `mkdir` and path objects are replaced by maps keyed by path. A file that exists but holds malformed JSON or a non-list value, and a failing write, are not modelled.
- Clocks: `date.today()` and `datetime.now()` become parameters. The date "yesterday" is passed in, so no calendar arithmetic is modelled.
- `print` progress and summary lines are left out; the deduplicator's counts are returned in a `Summary` instead.
- The LangGraph runtime (`StateGraph`, `compile`, `invoke`) is replaced by the transition function `Successor` and the recursive `Execute` over the `Node` enumeration.
- The profile document is opaque (`Profile` carries a string map); no node looks inside it.
- `matches` and `rejected` hold `Job` values; the source never fills them, so no decision record type is modelled.
- Job ids that are JSON numbers or other non-string values are not modelled: an id is an optional string. The other fields of a posting are modelled as strings too, so a null `company`, `description`, `location` or `url` (as fetch_job.py:36-39 can produce) is not representable; the deduplicator and the graph never read those fields.
- `fetch_job.py` (the paginated HTTP fetch) is not part of this model.
- `match_jobs_node` (agent_graph.py:91-99) does no matching; the model keeps it as the stub it is.
