/**
 * Job records and the dated snapshot store they are kept in.
 *
 * A snapshot file is a JSON array of job objects under `data/`; the store is
 * the map from a file path to the array it holds, so "the file exists" is
 * "the path is a key".
 */
module Snapshots {
  import opened Wrappers

  /** A posting: its optional "id" value and the other keys of the JSON object. */
  datatype Job = Job(id: Option<string>, fields: map<string, string>)

  /** The snapshot store: file path to the job array that file holds. */
  type Files = map<string, seq<Job>>

  /** Python truthiness of an optional string: None and "" are falsy. */
  predicate Truthy(o: Option<string>) {
    o.Some? && o.value != ""
  }

  /** Python's `o or default` for an optional string. */
  function OrElse(o: Option<string>, default: string): (r: string)
    ensures Truthy(o) ==> Some(r) == o
    ensures !Truthy(o) ==> r == default
  {
    if Truthy(o) then o.value else default
  }

  /** Whether `job.get("id")` is truthy. */
  predicate HasTruthyId(j: Job) {
    Truthy(j.id)
  }

  /** `data/jobs_<date>.json`: the day's fetched postings. */
  function JobsPath(date: string): string {
    "data/jobs_" + date + ".json"
  }

  /** `data/new_jobs_<date>.json`: the day's postings not seen the day before. */
  function NewJobsPath(date: string): string {
    "data/new_jobs_" + date + ".json"
  }

  /** `data/matches_<date>.json`: the run artifact of one date. */
  function MatchesPath(date: string): string {
    "data/matches_" + date + ".json"
  }

  /**
   * Snapshot paths never name the same file: paths of different kinds differ,
   * and paths of the same kind differ for different dates.
   */
  lemma PathsDistinct(a: string, b: string)
    ensures JobsPath(a) != NewJobsPath(b)
    ensures JobsPath(a) != MatchesPath(b)
    ensures NewJobsPath(a) != MatchesPath(b)
    ensures a != b ==> JobsPath(a) != JobsPath(b)
    ensures a != b ==> NewJobsPath(a) != NewJobsPath(b)
    ensures a != b ==> MatchesPath(a) != MatchesPath(b)
  {
    assert JobsPath(a)[5] == 'j';
    assert NewJobsPath(a)[5] == 'n' && NewJobsPath(b)[5] == 'n';
    assert MatchesPath(b)[5] == 'm';
    if JobsPath(a) == JobsPath(b) {
      assert a == JobsPath(a)[10..10 + |a|] && b == JobsPath(b)[10..10 + |b|];
    }
    if NewJobsPath(a) == NewJobsPath(b) {
      assert a == NewJobsPath(a)[14..14 + |a|] && b == NewJobsPath(b)[14..14 + |b|];
    }
    if MatchesPath(a) == MatchesPath(b) {
      assert a == MatchesPath(a)[13..13 + |a|] && b == MatchesPath(b)[13..13 + |b|];
    }
  }
}
