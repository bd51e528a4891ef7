/**
 * The run graph: four nodes over an accumulated state record, composed by a
 * fixed graph with one conditional edge. Each node returns a new state built
 * by additive merges of the fields and of the stats map.
 */
module AgentGraph {
  import opened Wrappers
  import opened Snapshots

  /** A value in the run statistics map. */
  datatype StatVal = BoolVal(b: bool) | IntVal(n: int) | StrVal(s: string)

  type Stats = map<string, StatVal>

  /** The candidate profile document; the graph only carries it along. */
  datatype Profile = Profile(doc: map<string, string>)

  /** The accumulated run state; every key is optional (a non-total record). */
  datatype State = State(
    runDate: Option<string>,
    profile: Option<Profile>,
    jobs: Option<seq<Job>>,
    matches: Option<seq<Job>>,
    rejected: Option<seq<Job>>,
    stats: Option<Stats>)

  /** What a run reads: the current date, the profile files and the snapshot store. */
  datatype Env = Env(today: string, profiles: map<string, Profile>, files: Files)

  /** The run artifact `{run_date, stats, matches, rejected}`. */
  datatype Payload = Payload(runDate: string, stats: Stats, matches: seq<Job>, rejected: seq<Job>)

  /** One file write: the payload and the path it is written to. */
  datatype Write = Write(path: string, payload: Payload)

  /** The only failure a run surfaces: the profile file is not there. */
  datatype RunError = ProfileNotFound(path: string)

  const ProfilePath := "profiles/me.json"
  const NoSource := "NONE"
  const MatchingNote := "LLM matching not implemented yet"

  const ProfileLoadedKey := "profile_loaded"
  const JobsSourceKey := "jobs_source"
  const JobsLoadedKey := "jobs_loaded"
  const MatchingRanKey := "matching_ran"
  const NoteKey := "note"

  /** `state.get("stats", {})` */
  function StatsOf(s: State): Stats {
    s.stats.GetOr(map[])
  }

  /** `state.get("run_date") or today` */
  function RunDateOr(s: State, today: string): string {
    OrElse(s.runDate, today)
  }

  /** The stats of `s` hold `v` under key `k`. */
  predicate HasStat(s: State, k: string, v: StatVal) {
    k in StatsOf(s) && StatsOf(s)[k] == v
  }

  /** `t` keeps every stats key of `s`, adds none but `owned`, and changes only `owned` ones. */
  predicate StatsKeptExcept(s: Stats, t: Stats, owned: set<string>) {
    && s.Keys <= t.Keys
    && t.Keys <= s.Keys + owned
    && forall k :: k in s && k !in owned ==> t[k] == s[k]
  }

  /** Additive merge: every field and every stats key present in `s` is still present in `t`. */
  predicate Extends(s: State, t: State) {
    && (s.runDate.Some? ==> t.runDate.Some?)
    && (s.profile.Some? ==> t.profile.Some?)
    && (s.jobs.Some? ==> t.jobs.Some?)
    && (s.matches.Some? ==> t.matches.Some?)
    && (s.rejected.Some? ==> t.rejected.Some?)
    && (s.stats.Some? ==> t.stats.Some?)
    && StatsOf(s).Keys <= StatsOf(t).Keys
  }

  /**
   * `load_profile_node`: read the profile (a missing file fails the run),
   * keep a truthy run date or use today's, and set `profile_loaded`.
   */
  function LoadProfileNode(s: State, env: Env): (r: Result<State, RunError>)
    ensures r.Failure? <==> ProfilePath !in env.profiles
    ensures r.Failure? ==> r.error == ProfileNotFound(ProfilePath)
    ensures r.Success? ==>
      && (Truthy(s.runDate) ==> r.value.runDate == s.runDate)
      && (!Truthy(s.runDate) ==> r.value.runDate == Some(env.today))
      && r.value.profile == Some(env.profiles[ProfilePath])
      && r.value.jobs == s.jobs && r.value.matches == s.matches && r.value.rejected == s.rejected
      && HasStat(r.value, ProfileLoadedKey, BoolVal(true))
      && StatsKeptExcept(StatsOf(s), StatsOf(r.value), {ProfileLoadedKey})
      && Extends(s, r.value)
  {
    if ProfilePath !in env.profiles then Failure(ProfileNotFound(ProfilePath))
    else
      Success(s.(runDate := Some(RunDateOr(s, env.today)),
                 profile := Some(env.profiles[ProfilePath]),
                 stats := Some(StatsOf(s)[ProfileLoadedKey := BoolVal(true)])))
  }

  /** The job batch of a date and where it came from. */
  datatype Batch = Batch(jobs: seq<Job>, source: string)

  /**
   * Lines 58-70 of `load_jobs_node`: the `new_jobs` file of the date if it
   * exists, otherwise its `jobs` file, otherwise nothing with source "NONE".
   */
  function SelectJobs(files: Files, date: string): (b: Batch)
    ensures NewJobsPath(date) in files ==> b == Batch(files[NewJobsPath(date)], NewJobsPath(date))
    ensures NewJobsPath(date) !in files && JobsPath(date) in files ==> b == Batch(files[JobsPath(date)], JobsPath(date))
    ensures NewJobsPath(date) !in files && JobsPath(date) !in files ==> b == Batch([], NoSource)
  {
    if NewJobsPath(date) in files then Batch(files[NewJobsPath(date)], NewJobsPath(date))
    else if JobsPath(date) in files then Batch(files[JobsPath(date)], JobsPath(date))
    else Batch([], NoSource)
  }

  /**
   * The recorded source is "NONE" exactly when neither file exists, and
   * otherwise it is the path of the file whose contents were loaded.
   */
  lemma SourceIsTheFileRead(files: Files, date: string)
    ensures SelectJobs(files, date).source == NoSource <==> NewJobsPath(date) !in files && JobsPath(date) !in files
    ensures SelectJobs(files, date).source != NoSource ==>
      var b := SelectJobs(files, date);
      b.source in files && files[b.source] == b.jobs
  {
    assert NewJobsPath(date)[0] == 'd' && JobsPath(date)[0] == 'd';
  }

  /**
   * `load_jobs_node`: load the batch of the state's run date, default
   * `matches` and `rejected` to empty lists, and record the source and the
   * count. Nothing else changes.
   */
  function LoadJobsNode(s: State, env: Env): (r: State)
    ensures var b := SelectJobs(env.files, RunDateOr(s, env.today));
      && r.jobs == Some(b.jobs)
      && HasStat(r, JobsSourceKey, StrVal(b.source))
      && HasStat(r, JobsLoadedKey, IntVal(|b.jobs|))
    ensures r.matches == Some(s.matches.GetOr([])) && r.rejected == Some(s.rejected.GetOr([]))
    ensures s.matches.Some? ==> r.matches == s.matches
    ensures s.rejected.Some? ==> r.rejected == s.rejected
    ensures r.runDate == s.runDate && r.profile == s.profile
    ensures StatsKeptExcept(StatsOf(s), StatsOf(r), {JobsSourceKey, JobsLoadedKey})
    ensures Extends(s, r)
  {
    var b := SelectJobs(env.files, RunDateOr(s, env.today));
    s.(jobs := Some(b.jobs),
       matches := Some(s.matches.GetOr([])),
       rejected := Some(s.rejected.GetOr([])),
       stats := Some(StatsOf(s)[JobsSourceKey := StrVal(b.source)][JobsLoadedKey := IntVal(|b.jobs|)]))
  }

  /** The nodes of the graph, with its START and END. */
  datatype Node = Start | LoadProfile | LoadJobs | MatchJobs | SaveResults | End

  /** `route_if_no_jobs`: skip matching exactly when the batch is empty or absent. */
  function RouteIfNoJobs(s: State): (n: Node)
    ensures n == SaveResults <==> s.jobs.GetOr([]) == []
    ensures n == MatchJobs <==> s.jobs.GetOr([]) != []
  {
    if |s.jobs.GetOr([])| == 0 then SaveResults else MatchJobs
  }

  /**
   * `match_jobs_node`, a placeholder: it records `matching_ran = false` and a
   * note in the stats and changes nothing else.
   */
  function MatchJobsNode(s: State): (r: State)
    ensures r.runDate == s.runDate && r.profile == s.profile && r.jobs == s.jobs
    ensures r.matches == s.matches && r.rejected == s.rejected
    ensures HasStat(r, MatchingRanKey, BoolVal(false)) && HasStat(r, NoteKey, StrVal(MatchingNote))
    ensures StatsKeptExcept(StatsOf(s), StatsOf(r), {MatchingRanKey, NoteKey})
    ensures Extends(s, r)
  {
    s.(stats := Some(StatsOf(s)[MatchingRanKey := BoolVal(false)][NoteKey := StrVal(MatchingNote)]))
  }

  /**
   * `save_results_node`: the state is returned unchanged and one payload is
   * written under the matches path of the run date; absent lists are saved
   * as empty ones.
   */
  function SaveResultsNode(s: State, env: Env): (r: (State, Write))
    ensures r.0 == s
    ensures var date := RunDateOr(s, env.today);
      r.1 == Write(MatchesPath(date), Payload(date, StatsOf(s), s.matches.GetOr([]), s.rejected.GetOr([])))
  {
    var date := RunDateOr(s, env.today);
    (s, Write(MatchesPath(date), Payload(date, StatsOf(s), s.matches.GetOr([]), s.rejected.GetOr([]))))
  }

  /** Distance to END along the graph. */
  function Rank(n: Node): nat {
    match n
    case Start => 5
    case LoadProfile => 4
    case LoadJobs => 3
    case MatchJobs => 2
    case SaveResults => 1
    case End => 0
  }

  /**
   * The edges of `build_graph`, given the state the node produced. Every edge
   * moves strictly closer to END, so the graph has no cycle.
   */
  function Successor(n: Node, s: State): (m: Node)
    ensures n != End ==> Rank(m) < Rank(n)
    ensures n == LoadJobs ==> m == RouteIfNoJobs(s)
    ensures n != LoadJobs && n != End ==> Rank(m) == Rank(n) - 1
  {
    match n
    case Start => LoadProfile
    case LoadProfile => LoadJobs
    case LoadJobs => RouteIfNoJobs(s)
    case MatchJobs => SaveResults
    case SaveResults => End
    case End => End
  }

  /** Running one node: the new state and the files it writes. */
  function Step(n: Node, s: State, env: Env): Result<(State, seq<Write>), RunError> {
    match n
    case LoadProfile =>
      (match LoadProfileNode(s, env)
       case Success(t) => Success((t, []))
       case Failure(e) => Failure(e))
    case LoadJobs => Success((LoadJobsNode(s, env), []))
    case MatchJobs => Success((MatchJobsNode(s), []))
    case SaveResults => var (t, w) := SaveResultsNode(s, env); Success((t, [w]))
    case _ => Success((s, []))
  }

  /** The result of a run: the final state, the nodes visited in order, the files written. */
  datatype Outcome = Outcome(final: State, trace: seq<Node>, writes: seq<Write>)

  /** Runs the graph from node `n` until END. */
  function Execute(n: Node, s: State, env: Env): (r: Result<Outcome, RunError>)
    ensures (n == Start || n == LoadProfile) ==> (r.Failure? <==> ProfilePath !in env.profiles)
    ensures n != Start && n != LoadProfile ==> r.Success?
    ensures r.Success? ==> r.value.trace != [] && r.value.trace[0] == n && r.value.trace[|r.value.trace| - 1] == End
    ensures r.Success? ==> |r.value.writes| == (if n == End then 0 else 1)
    decreases Rank(n)
  {
    if n == End then Success(Outcome(s, [End], []))
    else
      match Step(n, s, env)
      case Failure(e) => Failure(e)
      case Success((t, ws)) =>
        match Execute(Successor(n, t), t, env)
        case Failure(e) => Failure(e)
        case Success(o) => Success(Outcome(o.final, [n] + o.trace, ws + o.writes))
  }

  /** `app.invoke(initial)`: the compiled graph run from START. */
  function Run(initial: State, env: Env): (r: Result<Outcome, RunError>)
    ensures r.Failure? <==> ProfilePath !in env.profiles
    ensures r.Success? ==> r.value.trace != [] && r.value.trace[0] == Start && r.value.trace[|r.value.trace| - 1] == End
    ensures r.Success? ==> |r.value.writes| == 1
  {
    Execute(Start, initial, env)
  }

  /** The initial state of the script entry point: only the run date, set to today. */
  function TodayState(today: string): (s: State)
    ensures s.runDate == Some(today) && RunDateOr(s, today) == today
    ensures s.profile.None? && s.jobs.None? && s.matches.None? && s.rejected.None? && s.stats.None?
  {
    State(Some(today), None, None, None, None, None)
  }

  /** After `load_profile_node` the run date is settled: later nodes resolve the same date. */
  lemma RunDateSettled(s: State, env: Env)
    requires ProfilePath in env.profiles
    ensures RunDateOr(LoadProfileNode(s, env).value, env.today) == RunDateOr(s, env.today)
    ensures LoadProfileNode(s, env).value.runDate == Some(RunDateOr(s, env.today))
  {
  }

  /** The state save_results receives: after load_jobs, and after match_jobs when the route takes it. */
  function Matched(s2: State): State {
    if s2.jobs.GetOr([]) == [] then s2 else MatchJobsNode(s2)
  }

  /** The nodes visited from load_jobs on, for a batch that is empty or not. */
  function PathFromLoadJobs(empty: bool): seq<Node> {
    [LoadJobs] + (if empty then [] else [MatchJobs]) + [SaveResults, End]
  }

  /** From load_jobs the graph runs to END through the route and writes one payload. */
  lemma {:induction false} ExecuteFromLoadJobs(s1: State, env: Env)
    ensures var s3 := Matched(LoadJobsNode(s1, env));
      Execute(LoadJobs, s1, env)
        == Success(Outcome(s3, PathFromLoadJobs(LoadJobsNode(s1, env).jobs.GetOr([]) == []), [SaveResultsNode(s3, env).1]))
  {
    var s2 := LoadJobsNode(s1, env);
    var s3 := Matched(s2);
    var w := SaveResultsNode(s3, env).1;
    var fromSave := Outcome(s3, [SaveResults, End], [w]);
    assert Execute(End, s3, env) == Success(Outcome(s3, [End], []));
    assert Step(SaveResults, s3, env) == Success((s3, [w]));
    assert [SaveResults] + [End] == fromSave.trace && [w] + [] == [w];
    assert Execute(SaveResults, s3, env) == Success(fromSave);
    assert Step(LoadJobs, s1, env) == Success((s2, []));
    assert [] + [w] == [w];
    if s2.jobs.GetOr([]) == [] {
      assert Successor(LoadJobs, s2) == SaveResults;
      assert PathFromLoadJobs(true) == [LoadJobs] + fromSave.trace;
    } else {
      assert Successor(LoadJobs, s2) == MatchJobs;
      assert Step(MatchJobs, s2, env) == Success((s3, []));
      assert Execute(MatchJobs, s2, env) == Success(Outcome(s3, [MatchJobs] + fromSave.trace, [w]));
      assert PathFromLoadJobs(false) == [LoadJobs] + ([MatchJobs] + fromSave.trace);
    }
  }

  /** From START a run is load_profile then the run from load_jobs, or the profile failure. */
  lemma {:induction false} ExecuteFromStart(initial: State, env: Env)
    ensures ProfilePath !in env.profiles ==> Run(initial, env) == Failure(ProfileNotFound(ProfilePath))
    ensures ProfilePath in env.profiles ==>
      var s1 := LoadProfileNode(initial, env).value;
      var o := Execute(LoadJobs, s1, env).value;
      && Execute(LoadJobs, s1, env).Success?
      && Run(initial, env) == Success(Outcome(o.final, [Start, LoadProfile] + o.trace, o.writes))
  {
    assert Step(Start, initial, env) == Success((initial, []));
    if ProfilePath in env.profiles {
      var s1 := LoadProfileNode(initial, env).value;
      ExecuteFromLoadJobs(s1, env);
      var o := Execute(LoadJobs, s1, env).value;
      assert Step(LoadProfile, initial, env) == Success((s1, []));
      assert Successor(LoadProfile, s1) == LoadJobs;
      assert [] + o.writes == o.writes;
      assert Execute(LoadProfile, initial, env) == Success(Outcome(o.final, [LoadProfile] + o.trace, o.writes));
      assert [Start] + ([LoadProfile] + o.trace) == [Start, LoadProfile] + o.trace;
    }
  }

  /** Composing two additive merges gives an additive merge owning both key sets. */
  lemma StatsKeptCompose(a: Stats, b: Stats, c: Stats, o1: set<string>, o2: set<string>)
    requires StatsKeptExcept(a, b, o1) && StatsKeptExcept(b, c, o2)
    ensures StatsKeptExcept(a, c, o1 + o2)
  {
  }

  /**
   * The stats after the three nodes: the initial ones with exactly the keys
   * the visited nodes own added or overwritten.
   */
  lemma {:induction false} FinalStats(initial: State, env: Env)
    requires ProfilePath in env.profiles
    ensures var s1 := LoadProfileNode(initial, env).value;
      var s2 := LoadJobsNode(s1, env);
      var added := {ProfileLoadedKey, JobsSourceKey, JobsLoadedKey}
        + (if s2.jobs.GetOr([]) == [] then {} else {MatchingRanKey, NoteKey});
      && StatsKeptExcept(StatsOf(initial), StatsOf(Matched(s2)), added)
      && StatsOf(Matched(s2)).Keys == StatsOf(initial).Keys + added
      && Extends(initial, Matched(s2))
  {
    var s1 := LoadProfileNode(initial, env).value;
    var s2 := LoadJobsNode(s1, env);
    StatsKeptCompose(StatsOf(initial), StatsOf(s1), StatsOf(s2), {ProfileLoadedKey}, {JobsSourceKey, JobsLoadedKey});
    assert {ProfileLoadedKey} + {JobsSourceKey, JobsLoadedKey} == {ProfileLoadedKey, JobsSourceKey, JobsLoadedKey};
    assert ProfileLoadedKey in StatsOf(s2);
    if s2.jobs.GetOr([]) != [] {
      StatsKeptCompose(StatsOf(initial), StatsOf(s2), StatsOf(MatchJobsNode(s2)),
        {ProfileLoadedKey, JobsSourceKey, JobsLoadedKey}, {MatchingRanKey, NoteKey});
    }
  }

  /**
   * Every run from START either fails because the profile is missing (and
   * then writes nothing) or visits load_profile, load_jobs, match_jobs only
   * for a non-empty batch, and save_results exactly once before END. Its one
   * write is the payload of the resolved run date under `matches_<date>`,
   * and the final state keeps every field and stats key of the initial one.
   */
  lemma RunShape(initial: State, env: Env)
    ensures Run(initial, env).Failure? <==> ProfilePath !in env.profiles
    ensures Run(initial, env).Success? ==>
      var o := Run(initial, env).value;
      var date := RunDateOr(initial, env.today);
      var b := SelectJobs(env.files, date);
      var added := {ProfileLoadedKey, JobsSourceKey, JobsLoadedKey} + (if b.jobs == [] then {} else {MatchingRanKey, NoteKey});
      && o.trace == [Start, LoadProfile, LoadJobs] + (if b.jobs == [] then [] else [MatchJobs]) + [SaveResults, End]
      && o.writes == [Write(MatchesPath(date), Payload(date, StatsOf(o.final), initial.matches.GetOr([]), initial.rejected.GetOr([])))]
      && o.final.runDate == Some(date)
      && o.final.jobs == Some(b.jobs)
      && HasStat(o.final, ProfileLoadedKey, BoolVal(true))
      && HasStat(o.final, JobsSourceKey, StrVal(b.source))
      && HasStat(o.final, JobsLoadedKey, IntVal(|b.jobs|))
      && (b.jobs != [] ==> HasStat(o.final, MatchingRanKey, BoolVal(false)) && HasStat(o.final, NoteKey, StrVal(MatchingNote)))
      && StatsKeptExcept(StatsOf(initial), StatsOf(o.final), added)
      && StatsOf(o.final).Keys == StatsOf(initial).Keys + added
      && Extends(initial, o.final)
  {
    ExecuteFromStart(initial, env);
    if ProfilePath in env.profiles {
      var date := RunDateOr(initial, env.today);
      var b := SelectJobs(env.files, date);
      var s1 := LoadProfileNode(initial, env).value;
      RunDateSettled(initial, env);
      var s2 := LoadJobsNode(s1, env);
      assert s2.jobs == Some(b.jobs);
      ExecuteFromLoadJobs(s1, env);
      FinalStats(initial, env);
      var s3 := Matched(s2);
      assert [Start, LoadProfile] + PathFromLoadJobs(b.jobs == [])
        == [Start, LoadProfile, LoadJobs] + (if b.jobs == [] then [] else [MatchJobs]) + [SaveResults, End];
      assert HasStat(s2, ProfileLoadedKey, BoolVal(true));
      assert HasStat(s3, JobsLoadedKey, IntVal(|b.jobs|));
      assert HasStat(s3, JobsSourceKey, StrVal(b.source));
    }
  }

  /**
   * The script's own run with an empty batch: match_jobs is never visited,
   * and the saved payload has no matches, no rejections, `jobs_loaded` 0 and
   * no `matching_ran` entry.
   */
  lemma EmptyBatchSkipsMatching(env: Env)
    requires ProfilePath in env.profiles
    requires SelectJobs(env.files, env.today).jobs == []
    ensures Run(TodayState(env.today), env).Success?
    ensures var o := Run(TodayState(env.today), env).value;
      && MatchJobs !in o.trace
      && |o.writes| == 1
      && var p := o.writes[0].payload;
      && o.writes[0].path == MatchesPath(env.today)
      && p.matches == [] && p.rejected == []
      && JobsLoadedKey in p.stats && p.stats[JobsLoadedKey] == IntVal(0)
      && MatchingRanKey !in p.stats
  {
    RunShape(TodayState(env.today), env);
  }
}
