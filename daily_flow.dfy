/**
 * The two scripts run one after the other on the same day: deduplication
 * writes `new_jobs_<today>`, which the graph then prefers as its batch.
 */
module DailyFlow {
  import opened Wrappers
  import opened Snapshots
  import opened DeduplicateJobs
  import G = AgentGraph

  /**
   * After deduplicating today against yesterday, the graph run for today
   * loads exactly the new postings from `new_jobs_<today>`, skips matching
   * exactly when there are none, and with no snapshot of yesterday loads all
   * of today's postings.
   */
  lemma {:induction false} DailyRun(files: Files, today: string, yesterday: string, profiles: map<string, G.Profile>)
    requires G.ProfilePath in profiles
    ensures var stored := DeduplicateDay(files, today, yesterday).0;
      var newJobs := Dedup(LoadJobs(files, JobsPath(today)), LoadJobs(files, JobsPath(yesterday)));
      var r := G.Run(G.TodayState(today), G.Env(today, profiles, stored));
      && r.Success?
      && r.value.final.jobs == Some(newJobs)
      && G.HasStat(r.value.final, G.JobsSourceKey, G.StrVal(NewJobsPath(today)))
      && G.HasStat(r.value.final, G.JobsLoadedKey, G.IntVal(DeduplicateDay(files, today, yesterday).1.newCount))
      && (G.MatchJobs in r.value.trace <==> newJobs != [])
      && (JobsPath(yesterday) !in files ==> r.value.final.jobs == Some(LoadJobs(files, JobsPath(today))))
  {
    var stored := DeduplicateDay(files, today, yesterday).0;
    var env := G.Env(today, profiles, stored);
    var newJobs := Dedup(LoadJobs(files, JobsPath(today)), LoadJobs(files, JobsPath(yesterday)));
    assert G.SelectJobs(stored, today) == G.Batch(newJobs, NewJobsPath(today));
    G.RunShape(G.TodayState(today), env);
    DedupEmptyYesterday(LoadJobs(files, JobsPath(today)), files, JobsPath(yesterday));
  }
}
