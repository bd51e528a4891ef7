/**
 * The day-over-day deduplicator: keep today's postings whose id was not
 * among yesterday's truthy ids, in today's order.
 */
module DeduplicateJobs {
  import opened Wrappers
  import opened Snapshots

  /** `load_jobs`: the job array at `path`, or the empty list if there is no such file. */
  function LoadJobs(files: Files, path: string): (r: seq<Job>)
    ensures path !in files ==> r == []
    ensures path in files ==> r == files[path]
  {
    if path in files then files[path] else []
  }

  /**
   * `{job.get("id") for job in yesterday_jobs if job.get("id")}`: exactly the
   * truthy ids of yesterday's postings.
   */
  function SeenIds(yesterday: seq<Job>): (ids: set<string>)
    ensures "" !in ids
    ensures forall k :: 0 <= k < |yesterday| && HasTruthyId(yesterday[k]) ==> yesterday[k].id.value in ids
    ensures forall s :: s in ids ==> exists k :: 0 <= k < |yesterday| && yesterday[k].id == Some(s)
  {
    set k | 0 <= k < |yesterday| && HasTruthyId(yesterday[k]) :: yesterday[k].id.value
  }

  /** `job.get("id") not in yesterday_ids`. */
  predicate IsNew(j: Job, seen: set<string>) {
    !(j.id.Some? && j.id.value in seen)
  }

  /** The list comprehension of lines 38-41: the postings of `today` that are new, in order. */
  function FilterNew(today: seq<Job>, seen: set<string>): (r: seq<Job>)
    ensures |r| <= |today|
    ensures forall k :: 0 <= k < |r| ==> r[k] in today && IsNew(r[k], seen)
  {
    if today == [] then []
    else (if IsNew(today[0], seen) then [today[0]] else []) + FilterNew(today[1..], seen)
  }

  /**
   * The new postings of today with respect to yesterday. No kept posting
   * carries a truthy id of yesterday's, postings without a truthy id are always
   * kept, and nothing is added.
   */
  function Dedup(today: seq<Job>, yesterday: seq<Job>): (r: seq<Job>)
    ensures |r| <= |today|
    ensures forall k, m :: 0 <= k < |r| && 0 <= m < |yesterday| && HasTruthyId(yesterday[m])
              ==> r[k].id != yesterday[m].id
    ensures forall k :: 0 <= k < |r| ==> r[k] in today
  {
    FilterNew(today, SeenIds(yesterday))
  }

  /** `a` is obtained from `b` by deleting elements: order is kept, nothing is added. */
  predicate IsSubsequence(a: seq<Job>, b: seq<Job>)
    decreases |b|
  {
    if b == [] then a == []
    else (a != [] && a[0] == b[0] && IsSubsequence(a[1..], b[1..])) || IsSubsequence(a, b[1..])
  }

  /** The filter keeps today's order: its result is a subsequence of today's list. */
  lemma {:induction false} FilterNewIsSubsequence(today: seq<Job>, seen: set<string>)
    ensures IsSubsequence(FilterNew(today, seen), today)
  {
    if today != [] {
      FilterNewIsSubsequence(today[1..], seen);
      var rest := FilterNew(today[1..], seen);
      if IsNew(today[0], seen) {
        var r := [today[0]] + rest;
        assert FilterNew(today, seen) == r;
        assert r[0] == today[0] && r[1..] == rest;
      } else {
        assert FilterNew(today, seen) == rest;
      }
    }
  }

  /**
   * Completeness and exclusion at once: every posting occurs in the result
   * exactly as often as in today's list when it is new, and not at all
   * otherwise. In particular duplicates within today's own list are kept.
   */
  lemma {:induction false} FilterNewCounts(today: seq<Job>, seen: set<string>)
    ensures forall j :: multiset(FilterNew(today, seen))[j] == if IsNew(j, seen) then multiset(today)[j] else 0
  {
    if today != [] {
      FilterNewCounts(today[1..], seen);
      assert today == [today[0]] + today[1..];
      var head := if IsNew(today[0], seen) then [today[0]] else [];
      assert multiset(FilterNew(today, seen)) == multiset(head) + multiset(FilterNew(today[1..], seen));
      assert multiset(today) == multiset{today[0]} + multiset(today[1..]);
    }
  }

  /** The result of `Dedup` is a subsequence of today's postings, in their original order. */
  lemma DedupIsSubsequence(today: seq<Job>, yesterday: seq<Job>)
    ensures IsSubsequence(Dedup(today, yesterday), today)
  {
    FilterNewIsSubsequence(today, SeenIds(yesterday));
  }

  /**
   * Every posting of today whose id is not a truthy id of yesterday's is in
   * the result, as many times as it occurs today; in particular every posting
   * with a missing or empty id is kept.
   */
  lemma DedupComplete(today: seq<Job>, yesterday: seq<Job>)
    ensures forall k :: 0 <= k < |today| && (forall m :: 0 <= m < |yesterday| && HasTruthyId(yesterday[m]) ==> yesterday[m].id != today[k].id)
              ==> multiset(Dedup(today, yesterday))[today[k]] == multiset(today)[today[k]]
    ensures forall k :: 0 <= k < |today| && !HasTruthyId(today[k]) ==> today[k] in Dedup(today, yesterday)
  {
    var seen := SeenIds(yesterday);
    FilterNewCounts(today, seen);
    forall k | 0 <= k < |today| && !IsNew(today[k], seen)
      ensures exists m :: 0 <= m < |yesterday| && HasTruthyId(yesterday[m]) && yesterday[m].id == today[k].id
    {
      var m :| 0 <= m < |yesterday| && yesterday[m].id == Some(today[k].id.value);
    }
    forall k | 0 <= k < |today| && !HasTruthyId(today[k])
      ensures today[k] in Dedup(today, yesterday)
    {
      assert today[k] in multiset(today);
    }
  }

  /** With nothing seen, the filter keeps every posting. */
  lemma {:induction false} FilterNothingSeen(today: seq<Job>)
    ensures FilterNew(today, {}) == today
  {
    if today != [] {
      FilterNothingSeen(today[1..]);
      assert today == [today[0]] + today[1..];
    }
  }

  /** An empty yesterday (a missing snapshot loads as one) leaves today's list unchanged. */
  lemma DedupEmptyYesterday(today: seq<Job>, files: Files, yesterdayPath: string)
    ensures Dedup(today, []) == today
    ensures yesterdayPath !in files ==> Dedup(today, LoadJobs(files, yesterdayPath)) == today
  {
    assert SeenIds([]) == {};
    FilterNothingSeen(today);
  }

  /** Yesterday's postings with a missing or empty id do not change the seen set. */
  lemma FalsyIdsNotSeen(yesterday: seq<Job>, extra: seq<Job>)
    requires forall k :: 0 <= k < |extra| ==> !HasTruthyId(extra[k])
    ensures SeenIds(yesterday + extra) == SeenIds(yesterday)
  {
    var all := yesterday + extra;
    forall s | s in SeenIds(all) ensures s in SeenIds(yesterday) {
      var k :| 0 <= k < |all| && all[k].id == Some(s);
      assert HasTruthyId(all[k]);
      assert k < |yesterday|;
      assert yesterday[k] == all[k];
    }
    forall s | s in SeenIds(yesterday) ensures s in SeenIds(all) {
      var k :| 0 <= k < |yesterday| && yesterday[k].id == Some(s);
      assert all[k] == yesterday[k];
    }
  }

  /** Hence adding such postings to yesterday's list does not change what is deduplicated. */
  lemma DedupIgnoresFalsyYesterday(today: seq<Job>, yesterday: seq<Job>, extra: seq<Job>)
    requires forall k :: 0 <= k < |extra| ==> !HasTruthyId(extra[k])
    ensures Dedup(today, yesterday + extra) == Dedup(today, yesterday)
  {
    FalsyIdsNotSeen(yesterday, extra);
  }

  /** The number of postings of `today` that the filter drops. */
  function CountSeen(today: seq<Job>, seen: set<string>): nat {
    if today == [] then 0
    else (if IsNew(today[0], seen) then 0 else 1) + CountSeen(today[1..], seen)
  }

  /** The "duplicates skipped" figure is exactly the number of postings whose id was seen. */
  lemma {:induction false} SkippedIsCountSeen(today: seq<Job>, seen: set<string>)
    ensures |today| - |FilterNew(today, seen)| == CountSeen(today, seen)
  {
    if today != [] {
      SkippedIsCountSeen(today[1..], seen);
    }
  }

  /** Deduplicating again against the same yesterday changes nothing. */
  lemma {:induction false} FilterNewIdempotent(today: seq<Job>, seen: set<string>)
    ensures FilterNew(FilterNew(today, seen), seen) == FilterNew(today, seen)
  {
    if today != [] {
      FilterNewIdempotent(today[1..], seen);
      var rest := FilterNew(today[1..], seen);
      if IsNew(today[0], seen) {
        var r := [today[0]] + rest;
        assert FilterNew(today, seen) == r;
        assert r[0] == today[0] && r[1..] == rest;
        assert FilterNew(r, seen) == [r[0]] + FilterNew(r[1..], seen);
      } else {
        assert FilterNew(today, seen) == rest;
      }
    }
  }

  /** The counts printed by `deduplicate_jobs`. */
  datatype Summary = Summary(total: nat, newCount: nat, skipped: int)

  /**
   * `deduplicate_jobs` for the given dates: read today's and yesterday's
   * snapshots (missing ones as empty), write the new postings to
   * `new_jobs_<today>` and report the counts. Every other file is untouched.
   */
  function DeduplicateDay(files: Files, today: string, yesterday: string): (r: (Files, Summary))
    ensures r.0.Keys == files.Keys + {NewJobsPath(today)}
    ensures forall p :: p in files && p != NewJobsPath(today) ==> r.0[p] == files[p]
    ensures r.0[NewJobsPath(today)] == Dedup(LoadJobs(files, JobsPath(today)), LoadJobs(files, JobsPath(yesterday)))
    ensures r.1.total == |LoadJobs(files, JobsPath(today))| && r.1.newCount == |r.0[NewJobsPath(today)]|
    ensures 0 <= r.1.skipped <= r.1.total && r.1.newCount + r.1.skipped == r.1.total
  {
    var todayJobs := LoadJobs(files, JobsPath(today));
    var yesterdayJobs := LoadJobs(files, JobsPath(yesterday));
    var newJobs := Dedup(todayJobs, yesterdayJobs);
    (files[NewJobsPath(today) := newJobs], Summary(|todayJobs|, |newJobs|, |todayJobs| - |newJobs|))
  }
}
