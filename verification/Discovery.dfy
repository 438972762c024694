/** Discovery of queued jobs: runs are listed page by page, and the jobs of a run are fetched
    only if its updated_at moved since the last poll. Over error-free polls that gate loses
    nothing. */
module Discovery {
  import opened Records
  import opened Text

  datatype Run = Run(id: int, updatedAt: string)

  datatype JobInfo = JobInfo(id: int, runId: int, runAttempt: int, status: string, labels: seq<string>)

  datatype JobRef = JobRef(repo: string, jobId: int, runId: int, runAttempt: int, labels: seq<string>)

  /** What GitHub replies to each request of one poll; None is an error. */
  datatype Github = Github(
    runs: (string, string, int) -> Option<seq<Run>>,    // repo, status, page
    jobs: (string, int, int) -> Option<seq<JobInfo>>)   // repo, run, page

  const PER_PAGE := 100
  const RUN_PAGES := 5
  const JOB_PAGES := 3

  // ---------------------------------------------------------------- labels

  predicate Offered(l: string, ours: seq<string>) {
    exists i :: 0 <= i < |ours| && Lower(ours[i]) == Lower(l)
  }

  /** The job targets self-hosted runners and ours offer every label, case aside. */
  predicate Satisfiable(jobLabels: seq<string>, ours: seq<string>) {
    jobLabels != [] && forall i :: 0 <= i < |jobLabels| ==> Offered(jobLabels[i], ours)
  }

  method LabelsSatisfiable(jobLabels: seq<string>, ourLabels: seq<string>) returns (ok: bool)
    ensures ok <==> Satisfiable(jobLabels, ourLabels)
  {
    if |jobLabels| == 0 {
      return false;
    }
    var ours: set<string> := {};
    for n := 0 to |ourLabels|
      invariant forall l :: l in ours <==> exists i :: 0 <= i < n && Lower(ourLabels[i]) == l
    {
      ours := ours + {Lower(ourLabels[n])};
    }
    for n := 0 to |jobLabels|
      invariant forall i :: 0 <= i < n ==> Offered(jobLabels[i], ourLabels)
    {
      if Lower(jobLabels[n]) !in ours {
        return false;
      }
    }
    return true;
  }

  // ---------------------------------------------------------------- the jobs of one run

  function Wanted(repo: string, jobs: seq<JobInfo>, ours: seq<string>): seq<JobRef> {
    if jobs == [] then []
    else
      var front, j := Wanted(repo, jobs[..|jobs| - 1], ours), jobs[|jobs| - 1];
      if j.status == "queued" && Satisfiable(j.labels, ours)
      then front + [JobRef(repo, j.id, j.runId, j.runAttempt, j.labels)]
      else front
  }

  /** From page `page` on, at most three pages in all. */
  function JobsFrom(gh: Github, repo: string, run: int, ours: seq<string>, page: int): Option<seq<JobRef>>
    decreases JOB_PAGES - page
  {
    if page > JOB_PAGES then Some([])
    else match gh.jobs(repo, run, page)
      case None => None
      case Some(jobs) =>
        if |jobs| < PER_PAGE then Some(Wanted(repo, jobs, ours))
        else Joined(Wanted(repo, jobs, ours), JobsFrom(gh, repo, run, ours, page + 1))
  }

  function JobsOf(gh: Github, repo: string, run: int, ours: seq<string>): Option<seq<JobRef>> {
    JobsFrom(gh, repo, run, ours, 1)
  }

  function Joined(refs: seq<JobRef>, rest: Option<seq<JobRef>>): Option<seq<JobRef>> {
    if rest.None? then None else Some(refs + rest.value)
  }

  lemma JoinedTwice(a: seq<JobRef>, b: seq<JobRef>, rest: Option<seq<JobRef>>)
    ensures Joined([], rest) == rest
    ensures Joined(a, Joined(b, rest)) == Joined(a + b, rest)
  {
    if rest.Some? {
      assert [] + rest.value == rest.value;
      assert a + (b + rest.value) == a + b + rest.value;
    }
  }

  method ListQueuedJobsInRun(gh: Github, repo: string, run: int, ours: seq<string>) returns (refs: Option<seq<JobRef>>)
    ensures refs == JobsOf(gh, repo, run, ours)
  {
    var all: seq<JobRef> := [];
    var page := 1;
    JoinedTwice([], [], JobsOf(gh, repo, run, ours));
    while page <= JOB_PAGES
      invariant 1 <= page <= JOB_PAGES + 1
      invariant Joined(all, JobsFrom(gh, repo, run, ours, page)) == JobsOf(gh, repo, run, ours)
    {
      var reply := gh.jobs(repo, run, page);
      if reply.None? {
        return None;
      }
      var jobs := reply.value;
      ghost var before := all;
      for n := 0 to |jobs|
        invariant all == before + Wanted(repo, jobs[..n], ours)
      {
        var j := jobs[n];
        assert jobs[..n + 1][..n] == jobs[..n];
        var fits := LabelsSatisfiable(j.labels, ours);
        if j.status == "queued" && fits {
          all := all + [JobRef(repo, j.id, j.runId, j.runAttempt, j.labels)];
        }
      }
      assert jobs[..|jobs|] == jobs;
      JoinedTwice(before, Wanted(repo, jobs, ours), JobsFrom(gh, repo, run, ours, page + 1));
      if |jobs| < PER_PAGE {
        return Some(all);
      }
      page := page + 1;
    }
    assert all + [] == all;
    return Some(all);
  }

  // ---------------------------------------------------------------- one poll

  /** A poll in progress: the gate, the runs met so far, the refs found so far, no error yet. */
  datatype Sweep = Sweep(gate: map<int, string>, live: set<int>, refs: seq<JobRef>, ok: bool)

  /** `gated` is false in the reference that fetches the jobs of every run. */
  function RunStep(g: Sweep, gated: bool, gh: Github, repo: string, ours: seq<string>, run: Run): Sweep {
    if run.id in g.live then g
    else
      var h := g.(live := g.live + {run.id});
      if gated && run.id in g.gate && g.gate[run.id] == run.updatedAt && run.updatedAt != "" then h
      else match JobsOf(gh, repo, run.id, ours)
        case None => h.(ok := false)
        case Some(refs) => h.(refs := g.refs + refs, gate := g.gate[run.id := run.updatedAt])
  }

  function RunsFold(g: Sweep, gated: bool, gh: Github, repo: string, ours: seq<string>, runs: seq<Run>): Sweep
    decreases |runs|
  {
    if runs == [] || !g.ok then g
    else RunsFold(RunStep(g, gated, gh, repo, ours, runs[0]), gated, gh, repo, ours, runs[1..])
  }

  function PagesFold(g: Sweep, gated: bool, gh: Github, repo: string, ours: seq<string>, status: string, page: int): Sweep
    decreases RUN_PAGES - page
  {
    if page > RUN_PAGES || !g.ok then g
    else match gh.runs(repo, status, page)
      case None => g.(ok := false)
      case Some(runs) =>
        var h := RunsFold(g, gated, gh, repo, ours, runs);
        if |runs| < PER_PAGE then h else PagesFold(h, gated, gh, repo, ours, status, page + 1)
  }

  /** Runs may be queued as a whole or in progress with jobs still queued. */
  function RepoFold(g: Sweep, gated: bool, gh: Github, repo: string, ours: seq<string>): Sweep {
    PagesFold(PagesFold(g, gated, gh, repo, ours, "queued", 1), gated, gh, repo, ours, "in_progress", 1)
  }

  /** A broken repository contributes no refs and does not stop the others. */
  function RepoStep(g: Sweep, gated: bool, gh: Github, repo: string, ours: seq<string>): Sweep {
    var h := RepoFold(Sweep(g.gate, g.live, [], true), gated, gh, repo, ours);
    Sweep(h.gate, h.live, if h.ok then g.refs + h.refs else g.refs, g.ok && h.ok)
  }

  function ReposFold(g: Sweep, gated: bool, gh: Github, repos: seq<string>, ours: seq<string>): Sweep
    decreases |repos|
  {
    if repos == [] then g
    else ReposFold(RepoStep(g, gated, gh, repos[0], ours), gated, gh, repos[1..], ours)
  }

  function Pruned(g: Sweep): Sweep {
    g.(gate := map id | id in g.gate && id in g.live :: g.gate[id])
  }

  function Poll(gate: map<int, string>, gated: bool, gh: Github, repos: seq<string>, ours: seq<string>): Sweep {
    Pruned(ReposFold(Sweep(gate, {}, [], true), gated, gh, repos, ours))
  }

  class Discoverer {
    var runUpdated: map<int, string>

    constructor ()
      ensures runUpdated == map[]
    {
      runUpdated := map[];
    }

    method ListQueuedJobsInRepo(gh: Github, repo: string, ours: seq<string>, liveRuns: set<int>)
      returns (refs: Option<seq<JobRef>>, live: set<int>)
      modifies this
      ensures var h := RepoFold(Sweep(old(runUpdated), liveRuns, [], true), true, gh, repo, ours);
              runUpdated == h.gate && live == h.live && refs == if h.ok then Some(h.refs) else None
    {
      var all := [];
      live := liveRuns;
      ghost var first := Sweep(runUpdated, liveRuns, [], true);
      for half := 0 to 2
        invariant half == 0 ==> runUpdated == old(runUpdated) && live == liveRuns && all == []
        invariant half == 1 ==> Sweep(runUpdated, live, all, true) == PagesFold(first, true, gh, repo, ours, "queued", 1)
        invariant half == 2 ==> Sweep(runUpdated, live, all, true) == RepoFold(first, true, gh, repo, ours)
      {
        var status := if half == 0 then "queued" else "in_progress";
        ghost var start := Sweep(runUpdated, live, all, true);
        ghost var end := PagesFold(start, true, gh, repo, ours, status, 1);
        var page := 1;
        while page <= RUN_PAGES
          invariant 1 <= page <= RUN_PAGES + 1
          invariant PagesFold(Sweep(runUpdated, live, all, true), true, gh, repo, ours, status, page) == end
        {
          var reply := gh.runs(repo, status, page);
          if reply.None? {
            return None, live;
          }
          var ok;
          ok, all, live := VisitRuns(gh, repo, ours, reply.value, all, live);
          if !ok {
            return None, live;
          }
          if |reply.value| < PER_PAGE {
            break;
          }
          page := page + 1;
        }
        assert Sweep(runUpdated, live, all, true) == end;
      }
      return Some(all), live;
    }

    /** One page of runs. */
    method VisitRuns(gh: Github, repo: string, ours: seq<string>, runs: seq<Run>, refs: seq<JobRef>, liveRuns: set<int>)
      returns (ok: bool, all: seq<JobRef>, live: set<int>)
      modifies this
      ensures Sweep(runUpdated, live, all, ok) ==
              RunsFold(Sweep(old(runUpdated), liveRuns, refs, true), true, gh, repo, ours, runs)
    {
      all, live := refs, liveRuns;
      ghost var end := RunsFold(Sweep(runUpdated, live, all, true), true, gh, repo, ours, runs);
      for n := 0 to |runs|
        invariant RunsFold(Sweep(runUpdated, live, all, true), true, gh, repo, ours, runs[n..]) == end
      {
        var run := runs[n];
        assert runs[n..][1..] == runs[n + 1..];
        if run.id !in live {
          live := live + {run.id};
          var same := run.id in runUpdated && runUpdated[run.id] == run.updatedAt && run.updatedAt != "";
          if !same {
            var jobRefs := ListQueuedJobsInRun(gh, repo, run.id, ours);
            if jobRefs.None? {
              return false, all, live;
            }
            all := all + jobRefs.value;
            runUpdated := runUpdated[run.id := run.updatedAt];
          }
        }
      }
      ok := true;
    }

    /** A shutdown ends the poll at the first repository that fails from `stop` on; what was
        found is dropped and the gate is left as it stands. */
    method ListQueuedJobs(gh: Github, repos: seq<string>, ours: seq<string>, stop: nat) returns (refs: Option<seq<JobRef>>)
      modifies this
      ensures refs.Some? ==> forall n :: stop <= n < |repos| ==> !Breaks(old(runUpdated), gh, repos, ours, n)
      ensures refs.Some? ==>
                && refs.value == Poll(old(runUpdated), true, gh, repos, ours).refs
                && runUpdated == Poll(old(runUpdated), true, gh, repos, ours).gate
      ensures refs.None? ==>
                exists n :: stop <= n < |repos| && Breaks(old(runUpdated), gh, repos, ours, n)
                            && (forall m :: stop <= m < n ==> !Breaks(old(runUpdated), gh, repos, ours, m))
                            && runUpdated == PartOfPoll(old(runUpdated), gh, repos, ours, n + 1).gate
    {
      var all := [];
      var live: set<int> := {};
      ghost var ok := true;
      for n := 0 to |repos|
        invariant Sweep(runUpdated, live, all, ok) == PartOfPoll(old(runUpdated), gh, repos, ours, n)
        invariant forall m :: stop <= m < n ==> !Breaks(old(runUpdated), gh, repos, ours, m)
      {
        PartGrows(old(runUpdated), gh, repos, ours, n);
        var repoRefs;
        repoRefs, live := ListQueuedJobsInRepo(gh, repos[n], ours, live);
        if repoRefs.Some? {
          all := all + repoRefs.value;
        } else {
          assert Breaks(old(runUpdated), gh, repos, ours, n);
          if stop <= n {
            return None;
          }
          ok := false;
        }
      }
      assert repos[..|repos|] == repos;
      runUpdated := map id | id in runUpdated && id in live :: runUpdated[id];
      return Some(all);
    }
  }

  /** A poll that has come to repository `n`. */
  function PartOfPoll(gate: map<int, string>, gh: Github, repos: seq<string>, ours: seq<string>, n: nat): Sweep
    requires n <= |repos|
  {
    ReposFold(Sweep(gate, {}, [], true), true, gh, repos[..n], ours)
  }

  /** ... and fails there. */
  predicate Breaks(gate: map<int, string>, gh: Github, repos: seq<string>, ours: seq<string>, n: nat)
    requires n < |repos|
  {
    var g := PartOfPoll(gate, gh, repos, ours, n);
    !RepoFold(Sweep(g.gate, g.live, [], true), true, gh, repos[n], ours).ok
  }

  lemma {:induction false} ReposFoldEnd(g: Sweep, gh: Github, repos: seq<string>, repo: string, ours: seq<string>)
    ensures ReposFold(g, true, gh, repos + [repo], ours) == RepoStep(ReposFold(g, true, gh, repos, ours), true, gh, repo, ours)
    decreases |repos|
  {
    hide RepoFold;
    if repos == [] {
      assert [repo][1..] == [];
    } else {
      assert (repos + [repo])[1..] == repos[1..] + [repo];
      ReposFoldEnd(RepoStep(g, true, gh, repos[0], ours), gh, repos[1..], repo, ours);
    }
  }

  lemma PartGrows(gate: map<int, string>, gh: Github, repos: seq<string>, ours: seq<string>, n: nat)
    requires n < |repos|
    ensures PartOfPoll(gate, gh, repos, ours, n + 1) == RepoStep(PartOfPoll(gate, gh, repos, ours, n), true, gh, repos[n], ours)
  {
    assert repos[..n + 1] == repos[..n] + [repos[n]];
    ReposFoldEnd(Sweep(gate, {}, [], true), gh, repos[..n], repos[n], ours);
  }

  // ---------------------------------------------------------------- the gate loses nothing

  /** A poll asks for this page of runs if all pages before it are full. */
  predicate Asked(gh: Github, repos: seq<string>, repo: string, status: string, page: int) {
    && repo in repos && (status == "queued" || status == "in_progress") && 1 <= page <= RUN_PAGES
    && forall p {:trigger gh.runs(repo, status, p)} :: 1 <= p < page ==>
         gh.runs(repo, status, p).Some? && |gh.runs(repo, status, p).value| >= PER_PAGE
  }

  predicate ListedAt(gh: Github, repos: seq<string>, repo: string, status: string, page: int, n: int) {
    && Asked(gh, repos, repo, status, page)
    && gh.runs(repo, status, page).Some? && 0 <= n < |gh.runs(repo, status, page).value|
  }

  /** If the jobs of a run listed with a time stamp can be read, their refs depend on the run's
      ID and that stamp only. */
  ghost predicate Stable(gh: Github, repos: seq<string>, ours: seq<string>, f: (int, string) -> seq<JobRef>) {
    forall repo, status, page: int, n :: ListedAt(gh, repos, repo, status, page, n) ==>
      Faithful(gh, repo, ours, gh.runs(repo, status, page).value[n], f)
  }

  ghost predicate Faithful(gh: Github, repo: string, ours: seq<string>, run: Run, f: (int, string) -> seq<JobRef>) {
    var refs := JobsOf(gh, repo, run.id, ours);
    run.updatedAt != "" && refs.Some? ==> refs.value == f(run.id, run.updatedAt)
  }

  /** GitHub answers every request of a poll that fetches the jobs of all runs. */
  ghost predicate Answered(gh: Github, repos: seq<string>, ours: seq<string>) {
    && (forall repo, status, page: int :: Asked(gh, repos, repo, status, page) ==> gh.runs(repo, status, page).Some?)
    && (forall repo, status, page: int, n :: ListedAt(gh, repos, repo, status, page, n) ==>
          JobsOf(gh, repo, gh.runs(repo, status, page).value[n].id, ours).Some?)
  }

  /** For each gate entry the refs it stands for have been returned. */
  ghost predicate Known(gate: map<int, string>, f: (int, string) -> seq<JobRef>, returned: set<JobRef>) {
    forall id :: id in gate && gate[id] != "" ==> Set(f(id, gate[id])) <= returned
  }

  function Set(refs: seq<JobRef>): set<JobRef> {
    set r | r in refs
  }

  lemma SetJoined(a: seq<JobRef>, b: seq<JobRef>)
    ensures Set(a + b) == Set(a) + Set(b)
  {
  }

  // ---------------------------------------------------------------- answered polls

  /** The gated poll `g` and the ungated `u` side by side, `seen` having been returned before. */
  ghost predicate Abreast(g: Sweep, u: Sweep, f: (int, string) -> seq<JobRef>, seen: set<JobRef>) {
    && g.live == u.live && g.ok && u.ok
    && seen + Set(g.refs) == seen + Set(u.refs) && Known(g.gate, f, seen + Set(g.refs))
  }

  lemma StepAbreast(g: Sweep, u: Sweep, gh: Github, repo: string, ours: seq<string>, run: Run,
                    f: (int, string) -> seq<JobRef>, seen: set<JobRef>)
    requires Abreast(g, u, f, seen) && JobsOf(gh, repo, run.id, ours).Some? && Faithful(gh, repo, ours, run, f)
    ensures Abreast(RunStep(g, true, gh, repo, ours, run), RunStep(u, false, gh, repo, ours, run), f, seen)
  {
    hide JobsOf;
    SetJoined(g.refs, JobsOf(gh, repo, run.id, ours).value);
    SetJoined(u.refs, JobsOf(gh, repo, run.id, ours).value);
  }

  lemma {:induction false} RunsAbreast(g: Sweep, u: Sweep, gh: Github, repo: string, ours: seq<string>, runs: seq<Run>,
                    f: (int, string) -> seq<JobRef>, seen: set<JobRef>)
    requires Abreast(g, u, f, seen)
    requires forall n :: 0 <= n < |runs| ==> JobsOf(gh, repo, runs[n].id, ours).Some? && Faithful(gh, repo, ours, runs[n], f)
    ensures Abreast(RunsFold(g, true, gh, repo, ours, runs), RunsFold(u, false, gh, repo, ours, runs), f, seen)
    decreases |runs|
  {
    assert g.ok && u.ok;
    hide Abreast, RunStep, JobsOf, Faithful;
    if runs != [] {
      StepAbreast(g, u, gh, repo, ours, runs[0], f, seen);
      RunsAbreast(RunStep(g, true, gh, repo, ours, runs[0]), RunStep(u, false, gh, repo, ours, runs[0]),
                  gh, repo, ours, runs[1..], f, seen);
    }
  }

  lemma PageAnswered(gh: Github, repos: seq<string>, repo: string, ours: seq<string>, status: string, page: int,
                     f: (int, string) -> seq<JobRef>)
    requires Stable(gh, repos, ours, f) && Answered(gh, repos, ours) && Asked(gh, repos, repo, status, page)
    ensures gh.runs(repo, status, page).Some?
    ensures var runs := gh.runs(repo, status, page).value;
            forall n :: 0 <= n < |runs| ==> JobsOf(gh, repo, runs[n].id, ours).Some? && Faithful(gh, repo, ours, runs[n], f)
  {
    hide JobsOf, Faithful;
    assert gh.runs(repo, status, page).Some?;
    var runs := gh.runs(repo, status, page).value;
    forall n | 0 <= n < |runs| ensures JobsOf(gh, repo, runs[n].id, ours).Some? && Faithful(gh, repo, ours, runs[n], f) {
      assert ListedAt(gh, repos, repo, status, page, n);
    }
  }

  lemma {:induction false} PagesAbreast(g: Sweep, u: Sweep, gh: Github, repos: seq<string>, repo: string, ours: seq<string>,
                    status: string, page: int, f: (int, string) -> seq<JobRef>, seen: set<JobRef>)
    requires Abreast(g, u, f, seen) && Stable(gh, repos, ours, f) && Answered(gh, repos, ours)
    requires page <= RUN_PAGES ==> Asked(gh, repos, repo, status, page)
    ensures Abreast(PagesFold(g, true, gh, repo, ours, status, page), PagesFold(u, false, gh, repo, ours, status, page), f, seen)
    decreases RUN_PAGES - page
  {
    assert g.ok && u.ok;
    hide Abreast, RunsFold, JobsOf, Stable, Answered;
    if page <= RUN_PAGES {
      PageAnswered(gh, repos, repo, ours, status, page, f);
      var runs := gh.runs(repo, status, page).value;
      RunsAbreast(g, u, gh, repo, ours, runs, f, seen);
      if |runs| >= PER_PAGE {
        PagesAbreast(RunsFold(g, true, gh, repo, ours, runs), RunsFold(u, false, gh, repo, ours, runs),
                     gh, repos, repo, ours, status, page + 1, f, seen);
      }
    }
  }

  lemma RepoAbreast(g: Sweep, u: Sweep, gh: Github, repos: seq<string>, repo: string, ours: seq<string>,
                    f: (int, string) -> seq<JobRef>, seen: set<JobRef>)
    requires Abreast(g, u, f, seen) && Stable(gh, repos, ours, f) && Answered(gh, repos, ours) && repo in repos
    ensures Abreast(RepoStep(g, true, gh, repo, ours), RepoStep(u, false, gh, repo, ours), f, seen)
  {
    var got := seen + Set(g.refs);
    var g0, u0 := Sweep(g.gate, g.live, [], true), Sweep(u.gate, u.live, [], true);
    assert Set([]) == {};
    assert got + Set([]) == got;
    assert Asked(gh, repos, repo, "queued", 1) && Asked(gh, repos, repo, "in_progress", 1);
    hide PagesFold, Stable, Answered, Asked;
    PagesAbreast(g0, u0, gh, repos, repo, ours, "queued", 1, f, got);
    var g1, u1 := PagesFold(g0, true, gh, repo, ours, "queued", 1), PagesFold(u0, false, gh, repo, ours, "queued", 1);
    PagesAbreast(g1, u1, gh, repos, repo, ours, "in_progress", 1, f, got);
    SetJoined(g.refs, RepoFold(g0, true, gh, repo, ours).refs);
    SetJoined(u.refs, RepoFold(u0, false, gh, repo, ours).refs);
  }

  lemma {:induction false} ReposAbreast(g: Sweep, u: Sweep, gh: Github, repos: seq<string>, rest: seq<string>, ours: seq<string>,
                    f: (int, string) -> seq<JobRef>, seen: set<JobRef>)
    requires Abreast(g, u, f, seen) && Stable(gh, repos, ours, f) && Answered(gh, repos, ours)
    requires forall repo :: repo in rest ==> repo in repos
    ensures Abreast(ReposFold(g, true, gh, rest, ours), ReposFold(u, false, gh, rest, ours), f, seen)
    decreases |rest|
  {
    hide Abreast, RepoStep, Stable, Answered;
    if rest != [] {
      RepoAbreast(g, u, gh, repos, rest[0], ours, f, seen);
      ReposAbreast(RepoStep(g, true, gh, rest[0], ours), RepoStep(u, false, gh, rest[0], ours), gh, repos, rest[1..], ours, f, seen);
    }
  }

  /** The gate is invisible in a poll that GitHub answers: together with what was returned
      before, it returns exactly what fetching the jobs of every run would. */
  lemma AnsweredPoll(gate: map<int, string>, gh: Github, repos: seq<string>, ours: seq<string>,
                     f: (int, string) -> seq<JobRef>, seen: set<JobRef>)
    requires Known(gate, f, seen) && Stable(gh, repos, ours, f) && Answered(gh, repos, ours)
    ensures var g, u := Poll(gate, true, gh, repos, ours), Poll(map[], false, gh, repos, ours);
            && g.ok && u.ok && seen + Set(g.refs) == seen + Set(u.refs) && Known(g.gate, f, seen + Set(g.refs))
  {
    assert Set([]) == {};
    assert seen + Set([]) == seen;
    hide Stable, Answered, ReposFold;
    ReposAbreast(Sweep(gate, {}, [], true), Sweep(map[], {}, [], true), gh, repos, repos, ours, f, seen);
  }

  // ---------------------------------------------------------------- polls with errors

  /** The refs read of a run with a time stamp. */
  function RunRead(g: Sweep, gh: Github, repo: string, ours: seq<string>, run: Run): set<JobRef> {
    if run.id in g.live || run.updatedAt == "" || (run.id in g.gate && g.gate[run.id] == run.updatedAt) then {}
    else match JobsOf(gh, repo, run.id, ours)
      case None => {}
      case Some(refs) => Set(refs)
  }

  function RunsRead(g: Sweep, gh: Github, repo: string, ours: seq<string>, runs: seq<Run>): set<JobRef>
    decreases |runs|
  {
    if runs == [] || !g.ok then {}
    else RunRead(g, gh, repo, ours, runs[0]) + RunsRead(RunStep(g, true, gh, repo, ours, runs[0]), gh, repo, ours, runs[1..])
  }

  function PagesRead(g: Sweep, gh: Github, repo: string, ours: seq<string>, status: string, page: int): set<JobRef>
    decreases RUN_PAGES - page
  {
    if page > RUN_PAGES || !g.ok || gh.runs(repo, status, page).None? then {}
    else
      var runs := gh.runs(repo, status, page).value;
      var h := RunsFold(g, true, gh, repo, ours, runs);
      RunsRead(g, gh, repo, ours, runs) + if |runs| < PER_PAGE then {} else PagesRead(h, gh, repo, ours, status, page + 1)
  }

  /** What a repository's listing reads before it ends or fails. */
  function RepoRead(g: Sweep, gh: Github, repo: string, ours: seq<string>): set<JobRef> {
    PagesRead(g, gh, repo, ours, "queued", 1)
    + PagesRead(PagesFold(g, true, gh, repo, ours, "queued", 1), gh, repo, ours, "in_progress", 1)
  }

  /** What the failing repositories read before their failures; none of it is returned. */
  function Dropped(g: Sweep, gh: Github, repos: seq<string>, ours: seq<string>): set<JobRef>
    decreases |repos|
  {
    if repos == [] then {}
    else
      var start := Sweep(g.gate, g.live, [], true);
      (if RepoFold(start, true, gh, repos[0], ours).ok then {} else RepoRead(start, gh, repos[0], ours))
      + Dropped(RepoStep(g, true, gh, repos[0], ours), gh, repos[1..], ours)
  }

  /** A run met in this poll hides a ref that was not returned. */
  ghost predicate Hides(g: Sweep, f: (int, string) -> seq<JobRef>, got: set<JobRef>) {
    exists id :: id in g.live && id in g.gate && g.gate[id] != "" && !(Set(f(id, g.gate[id])) <= got)
  }

  /** From `g` to `h` the refs in `read` were read: the gate stays known exactly if all of them
      have been returned, and what is hidden stays hidden. */
  ghost predicate Tracks(g: Sweep, h: Sweep, read: set<JobRef>, f: (int, string) -> seq<JobRef>, got: set<JobRef>) {
    && (Hides(g, f, got) ==> Hides(h, f, got))
    && (Known(g.gate, f, got) ==> if read <= got then Known(h.gate, f, got) else Hides(h, f, got))
  }

  lemma TracksOn(g: Sweep, h: Sweep, i: Sweep, a: set<JobRef>, b: set<JobRef>, f: (int, string) -> seq<JobRef>, got: set<JobRef>)
    requires Tracks(g, h, a, f, got) && Tracks(h, i, b, f, got)
    ensures Tracks(g, i, a + b, f, got)
  {
    assert a + b <= got <==> a <= got && b <= got;
    hide Hides, Known;
  }

  lemma TracksNothing(g: Sweep, h: Sweep, f: (int, string) -> seq<JobRef>, got: set<JobRef>)
    requires h.gate == g.gate && h.live == g.live
    ensures Tracks(g, h, {}, f, got)
  {
  }

  lemma RunTracks(g: Sweep, gh: Github, repo: string, ours: seq<string>, run: Run, f: (int, string) -> seq<JobRef>, got: set<JobRef>)
    requires Faithful(gh, repo, ours, run, f)
    ensures Tracks(g, RunStep(g, true, gh, repo, ours, run), RunRead(g, gh, repo, ours, run), f, got)
  {
    hide JobsOf;
    var h := RunStep(g, true, gh, repo, ours, run);
    if Hides(g, f, got) {
      var id :| id in g.live && id in g.gate && g.gate[id] != "" && !(Set(f(id, g.gate[id])) <= got);
      assert id in h.live && h.gate[id] == g.gate[id];
    }
    if run.id in h.gate && run.id in h.live && !(RunRead(g, gh, repo, ours, run) <= got) {
      assert h.gate[run.id] == run.updatedAt;
    }
  }

  lemma {:induction false} RunsTrack(g: Sweep, gh: Github, repo: string, ours: seq<string>, runs: seq<Run>,
                                     f: (int, string) -> seq<JobRef>, got: set<JobRef>)
    requires forall n :: 0 <= n < |runs| ==> Faithful(gh, repo, ours, runs[n], f)
    ensures Tracks(g, RunsFold(g, true, gh, repo, ours, runs), RunsRead(g, gh, repo, ours, runs), f, got)
    decreases |runs|
  {
    hide Tracks, RunStep, RunRead, Faithful;
    if runs == [] || !g.ok {
      TracksNothing(g, g, f, got);
    } else {
      var h := RunStep(g, true, gh, repo, ours, runs[0]);
      RunTracks(g, gh, repo, ours, runs[0], f, got);
      RunsTrack(h, gh, repo, ours, runs[1..], f, got);
      TracksOn(g, h, RunsFold(h, true, gh, repo, ours, runs[1..]), RunRead(g, gh, repo, ours, runs[0]),
               RunsRead(h, gh, repo, ours, runs[1..]), f, got);
    }
  }

  lemma PageFaithful(gh: Github, repos: seq<string>, repo: string, ours: seq<string>, status: string, page: int,
                     f: (int, string) -> seq<JobRef>)
    requires Stable(gh, repos, ours, f) && Asked(gh, repos, repo, status, page) && gh.runs(repo, status, page).Some?
    ensures var runs := gh.runs(repo, status, page).value;
            forall n :: 0 <= n < |runs| ==> Faithful(gh, repo, ours, runs[n], f)
  {
    hide Faithful;
    var runs := gh.runs(repo, status, page).value;
    forall n | 0 <= n < |runs| ensures Faithful(gh, repo, ours, runs[n], f) {
      assert ListedAt(gh, repos, repo, status, page, n);
    }
  }

  lemma {:induction false} PagesTrack(g: Sweep, gh: Github, repos: seq<string>, repo: string, ours: seq<string>, status: string,
                                      page: int, f: (int, string) -> seq<JobRef>, got: set<JobRef>)
    requires Stable(gh, repos, ours, f) && (page <= RUN_PAGES ==> Asked(gh, repos, repo, status, page))
    ensures Tracks(g, PagesFold(g, true, gh, repo, ours, status, page), PagesRead(g, gh, repo, ours, status, page), f, got)
    decreases RUN_PAGES - page
  {
    hide Tracks, RunsFold, RunsRead, Stable;
    TracksNothing(g, g, f, got);
    if page <= RUN_PAGES && g.ok {
      if gh.runs(repo, status, page).None? {
        TracksNothing(g, g.(ok := false), f, got);
      } else {
        var runs := gh.runs(repo, status, page).value;
        var h := RunsFold(g, true, gh, repo, ours, runs);
        PageFaithful(gh, repos, repo, ours, status, page, f);
        RunsTrack(g, gh, repo, ours, runs, f, got);
        if |runs| < PER_PAGE {
          assert RunsRead(g, gh, repo, ours, runs) + {} == RunsRead(g, gh, repo, ours, runs);
        } else {
          PagesTrack(h, gh, repos, repo, ours, status, page + 1, f, got);
          TracksOn(g, h, PagesFold(h, true, gh, repo, ours, status, page + 1), RunsRead(g, gh, repo, ours, runs),
                   PagesRead(h, gh, repo, ours, status, page + 1), f, got);
        }
      }
    }
  }

  lemma RepoTracks(g: Sweep, gh: Github, repos: seq<string>, repo: string, ours: seq<string>,
                   f: (int, string) -> seq<JobRef>, got: set<JobRef>)
    requires Stable(gh, repos, ours, f) && repo in repos
    ensures Tracks(g, RepoFold(g, true, gh, repo, ours), RepoRead(g, gh, repo, ours), f, got)
  {
    assert Asked(gh, repos, repo, "queued", 1) && Asked(gh, repos, repo, "in_progress", 1);
    hide Tracks, PagesFold, PagesRead, Stable, Asked;
    var h := PagesFold(g, true, gh, repo, ours, "queued", 1);
    PagesTrack(g, gh, repos, repo, ours, "queued", 1, f, got);
    PagesTrack(h, gh, repos, repo, ours, "in_progress", 1, f, got);
    TracksOn(g, h, PagesFold(h, true, gh, repo, ours, "in_progress", 1), PagesRead(g, gh, repo, ours, "queued", 1),
             PagesRead(h, gh, repo, ours, "in_progress", 1), f, got);
  }

  // What is read ends up among the refs, unless the repository fails.

  lemma {:induction false} RunsReturn(g: Sweep, gh: Github, repo: string, ours: seq<string>, runs: seq<Run>)
    ensures Set(g.refs) + RunsRead(g, gh, repo, ours, runs) <= Set(RunsFold(g, true, gh, repo, ours, runs).refs)
    decreases |runs|
  {
    hide JobsOf;
    if runs != [] && g.ok {
      var h := RunStep(g, true, gh, repo, ours, runs[0]);
      RunsReturn(h, gh, repo, ours, runs[1..]);
      assert Set(g.refs) + RunRead(g, gh, repo, ours, runs[0]) <= Set(h.refs);
    }
  }

  lemma {:induction false} PagesReturn(g: Sweep, gh: Github, repo: string, ours: seq<string>, status: string, page: int)
    ensures Set(g.refs) + PagesRead(g, gh, repo, ours, status, page) <= Set(PagesFold(g, true, gh, repo, ours, status, page).refs)
    decreases RUN_PAGES - page
  {
    hide RunsFold, RunsRead;
    if page <= RUN_PAGES && g.ok && gh.runs(repo, status, page).Some? {
      var runs := gh.runs(repo, status, page).value;
      RunsReturn(g, gh, repo, ours, runs);
      if |runs| >= PER_PAGE {
        PagesReturn(RunsFold(g, true, gh, repo, ours, runs), gh, repo, ours, status, page + 1);
      }
    }
  }

  lemma RepoReturns(g: Sweep, gh: Github, repo: string, ours: seq<string>)
    ensures RepoRead(g, gh, repo, ours) <= Set(RepoFold(g, true, gh, repo, ours).refs)
  {
    hide PagesFold, PagesRead;
    PagesReturn(g, gh, repo, ours, "queued", 1);
    PagesReturn(PagesFold(g, true, gh, repo, ours, "queued", 1), gh, repo, ours, "in_progress", 1);
  }

  lemma {:induction false} RefsStay(g: Sweep, gated: bool, gh: Github, repos: seq<string>, ours: seq<string>)
    ensures Set(g.refs) <= Set(ReposFold(g, gated, gh, repos, ours).refs)
    decreases |repos|
  {
    hide RepoFold;
    if repos != [] {
      RefsStay(RepoStep(g, gated, gh, repos[0], ours), gated, gh, repos[1..], ours);
    }
  }

  lemma {:induction false} ReposTrack(g: Sweep, gh: Github, repos: seq<string>, rest: seq<string>, ours: seq<string>,
                                      f: (int, string) -> seq<JobRef>, got: set<JobRef>)
    requires Stable(gh, repos, ours, f) && forall repo :: repo in rest ==> repo in repos
    requires Set(ReposFold(g, true, gh, rest, ours).refs) <= got
    ensures Tracks(g, ReposFold(g, true, gh, rest, ours), Dropped(g, gh, rest, ours), f, got)
    decreases |rest|
  {
    hide Tracks, RepoFold, RepoRead, Stable, Set;
    if rest == [] {
      TracksNothing(g, g, f, got);
    } else {
      var start := Sweep(g.gate, g.live, [], true);
      var h, end := RepoStep(g, true, gh, rest[0], ours), RepoFold(start, true, gh, rest[0], ours);
      var lost := if end.ok then {} else RepoRead(start, gh, rest[0], ours);
      RepoTracks(start, gh, repos, rest[0], ours, f, got);
      RefsStay(h, true, gh, rest[1..], ours);
      RepoReturns(start, gh, rest[0], ours);
      SetJoined(g.refs, end.refs);
      assert RepoRead(start, gh, rest[0], ours) <= got <==> lost <= got;
      SameTrack(start, g, end, h, RepoRead(start, gh, rest[0], ours), lost, f, got);
      ReposTrack(h, gh, repos, rest[1..], ours, f, got);
      TracksOn(g, h, ReposFold(h, true, gh, rest[1..], ours), lost, Dropped(h, gh, rest[1..], ours), f, got);
    }
  }

  lemma SameTrack(g: Sweep, g': Sweep, h: Sweep, h': Sweep, read: set<JobRef>, read': set<JobRef>,
                  f: (int, string) -> seq<JobRef>, got: set<JobRef>)
    requires Tracks(g, h, read, f, got) && (read <= got <==> read' <= got)
    requires g'.gate == g.gate && g'.live == g.live && h'.gate == h.gate && h'.live == h.live
    ensures Tracks(g', h', read', f, got)
  {
  }

  /** What an error costs: a poll keeps the gate truthful if and only if everything its failing
      repositories had read of stamped runs before they failed is returned, then or earlier. */
  lemma KnownExact(gate: map<int, string>, gh: Github, repos: seq<string>, ours: seq<string>,
                   f: (int, string) -> seq<JobRef>, seen: set<JobRef>)
    requires Known(gate, f, seen) && Stable(gh, repos, ours, f)
    ensures var g := Poll(gate, true, gh, repos, ours);
            Known(g.gate, f, seen + Set(g.refs)) <==> Dropped(Sweep(gate, {}, [], true), gh, repos, ours) <= seen + Set(g.refs)
  {
    var start := Sweep(gate, {}, [], true);
    var h := ReposFold(start, true, gh, repos, ours);
    var got := seen + Set(h.refs);
    hide Stable, ReposFold, Dropped;
    ReposTrack(start, gh, repos, repos, ours, f, got);
    if Hides(h, f, got) {
      var id :| id in h.live && id in h.gate && h.gate[id] != "" && !(Set(f(id, h.gate[id])) <= got);
      assert Pruned(h).gate[id] == h.gate[id];
    }
  }

  // ---------------------------------------------------------------- any number of polls

  /** The gate after a sequence of polls. */
  function GateAfter(polls: seq<Github>, repos: seq<string>, ours: seq<string>): map<int, string> {
    if polls == [] then map[]
    else Poll(GateAfter(polls[..|polls| - 1], repos, ours), true, polls[|polls| - 1], repos, ours).gate
  }

  /** Everything the service learnt from a sequence of polls. */
  function Found(polls: seq<Github>, repos: seq<string>, ours: seq<string>): set<JobRef> {
    if polls == [] then {}
    else
      var front := polls[..|polls| - 1];
      Found(front, repos, ours) + Set(Poll(GateAfter(front, repos, ours), true, polls[|polls| - 1], repos, ours).refs)
  }

  /** Everything it would have learnt by fetching the jobs of every run every time. */
  function FoundUngated(polls: seq<Github>, repos: seq<string>, ours: seq<string>): set<JobRef> {
    if polls == [] then {}
    else FoundUngated(polls[..|polls| - 1], repos, ours) + Set(Poll(map[], false, polls[|polls| - 1], repos, ours).refs)
  }

  /** The gate is invisible: over any sequence of answered polls, the refs returned are in
      total exactly those that ungated polls return. */
  lemma {:induction false} GateLosesNothing(polls: seq<Github>, repos: seq<string>, ours: seq<string>,
                                            f: (int, string) -> seq<JobRef>)
    requires forall n :: 0 <= n < |polls| ==> Stable(polls[n], repos, ours, f) && Answered(polls[n], repos, ours)
    ensures Found(polls, repos, ours) == FoundUngated(polls, repos, ours)
    ensures Known(GateAfter(polls, repos, ours), f, Found(polls, repos, ours))
  {
    hide Stable, Answered, Poll, Known;
    if polls == [] {
      KnownEmpty(f);
    } else {
      var n := |polls| - 1;
      GateLosesNothing(polls[..n], repos, ours, f);
      AnsweredPoll(GateAfter(polls[..n], repos, ours), polls[n], repos, ours, f, Found(polls[..n], repos, ours));
    }
  }

  lemma KnownEmpty(f: (int, string) -> seq<JobRef>)
    ensures Known(map[], f, {})
  {
  }

  /** In no poll did a failing repository drop a ref that is not returned by then. */
  ghost predicate NothingDropped(polls: seq<Github>, repos: seq<string>, ours: seq<string>)
    decreases |polls|
  {
    polls != [] ==>
      var n := |polls| - 1;
      && NothingDropped(polls[..n], repos, ours)
      && Dropped(Sweep(GateAfter(polls[..n], repos, ours), {}, [], true), polls[n], repos, ours) <= Found(polls, repos, ours)
  }

  /** Errors that drop nothing do no harm: after any such polls, an answered one returns, with
      what was returned before, exactly what an ungated one would. */
  lemma {:induction false} HarmlessErrors(polls: seq<Github>, last: Github, repos: seq<string>, ours: seq<string>,
                                          f: (int, string) -> seq<JobRef>)
    requires NothingDropped(polls, repos, ours)
    requires forall n :: 0 <= n < |polls| ==> Stable(polls[n], repos, ours, f)
    requires Stable(last, repos, ours, f) && Answered(last, repos, ours)
    ensures var seen := Found(polls, repos, ours);
            seen + Set(Poll(GateAfter(polls, repos, ours), true, last, repos, ours).refs)
            == seen + Set(Poll(map[], false, last, repos, ours).refs)
  {
    hide Stable, Answered, Poll, NothingDropped;
    StaysKnown(polls, repos, ours, f);
    AnsweredPoll(GateAfter(polls, repos, ours), last, repos, ours, f, Found(polls, repos, ours));
  }

  lemma {:induction false} StaysKnown(polls: seq<Github>, repos: seq<string>, ours: seq<string>, f: (int, string) -> seq<JobRef>)
    requires NothingDropped(polls, repos, ours)
    requires forall n :: 0 <= n < |polls| ==> Stable(polls[n], repos, ours, f)
    ensures Known(GateAfter(polls, repos, ours), f, Found(polls, repos, ours))
    decreases |polls|
  {
    hide Stable, Poll, Known, Dropped;
    if polls == [] {
      KnownEmpty(f);
    } else {
      var n := |polls| - 1;
      StaysKnown(polls[..n], repos, ours, f);
      KnownExact(GateAfter(polls[..n], repos, ours), polls[n], repos, ours, f, Found(polls[..n], repos, ours));
    }
  }

  /** The gate cannot grow for ever: it only remembers runs met in the latest poll. */
  lemma GateWithinLive(polls: seq<Github>, repos: seq<string>, ours: seq<string>, id: int)
    requires polls != [] && id in GateAfter(polls, repos, ours)
    ensures Listed(polls[|polls| - 1], repos, id)
  {
    hide ReposFold, Listed;
    var gh := polls[|polls| - 1];
    var g := Sweep(GateAfter(polls[..|polls| - 1], repos, ours), {}, [], true);
    ReposMet(g, true, gh, repos, repos, ours);
  }

  /** GitHub lists the run on a page the poll asks for. */
  ghost predicate Listed(gh: Github, repos: seq<string>, id: int) {
    exists repo, status, page: int, n ::
      ListedAt(gh, repos, repo, status, page, n) && gh.runs(repo, status, page).value[n].id == id
  }

  ghost predicate Met(g: Sweep, gh: Github, repos: seq<string>) {
    forall id :: id in g.live ==> Listed(gh, repos, id)
  }

  lemma {:induction false} RunsMet(g: Sweep, gated: bool, gh: Github, repos: seq<string>, repo: string, ours: seq<string>, runs: seq<Run>)
    requires Met(g, gh, repos) && forall n :: 0 <= n < |runs| ==> Listed(gh, repos, runs[n].id)
    ensures Met(RunsFold(g, gated, gh, repo, ours, runs), gh, repos)
    decreases |runs|
  {
    hide JobsOf, Listed;
    if runs != [] && g.ok {
      RunsMet(RunStep(g, gated, gh, repo, ours, runs[0]), gated, gh, repos, repo, ours, runs[1..]);
    }
  }

  lemma {:induction false} PagesMet(g: Sweep, gated: bool, gh: Github, repos: seq<string>, repo: string, ours: seq<string>,
                                    status: string, page: int)
    requires Met(g, gh, repos) && (page <= RUN_PAGES ==> Asked(gh, repos, repo, status, page))
    ensures Met(PagesFold(g, gated, gh, repo, ours, status, page), gh, repos)
    decreases RUN_PAGES - page
  {
    hide RunsFold;
    if page <= RUN_PAGES && g.ok && gh.runs(repo, status, page).Some? {
      var runs := gh.runs(repo, status, page).value;
      assert forall n :: 0 <= n < |runs| ==> ListedAt(gh, repos, repo, status, page, n);
      RunsMet(g, gated, gh, repos, repo, ours, runs);
      hide Listed;
      if |runs| >= PER_PAGE {
        PagesMet(RunsFold(g, gated, gh, repo, ours, runs), gated, gh, repos, repo, ours, status, page + 1);
      }
    }
  }

  lemma {:induction false} ReposMet(g: Sweep, gated: bool, gh: Github, repos: seq<string>, rest: seq<string>, ours: seq<string>)
    requires Met(g, gh, repos) && forall repo :: repo in rest ==> repo in repos
    ensures Met(ReposFold(g, gated, gh, rest, ours), gh, repos)
    decreases |rest|
  {
    if rest != [] {
      assert Asked(gh, repos, rest[0], "queued", 1) && Asked(gh, repos, rest[0], "in_progress", 1);
      hide PagesFold, Listed, Asked;
      var g0 := Sweep(g.gate, g.live, [], true);
      PagesMet(g0, gated, gh, repos, rest[0], ours, "queued", 1);
      PagesMet(PagesFold(g0, gated, gh, rest[0], ours, "queued", 1), gated, gh, repos, rest[0], ours, "in_progress", 1);
      ReposMet(RepoStep(g, gated, gh, rest[0], ours), gated, gh, repos, rest[1..], ours);
    }
  }

  // ---------------------------------------------------------------- an error that hides a job

  /** One repository with one queued run of one job; `broken`: listing the runs in progress fails. */
  function OneJob(broken: bool): Github {
    Github((repo, status, page) => if status == "queued" then Some([Run(1, "t")]) else if broken then None else Some([]),
           (repo, run, page) => Some([JobInfo(7, 1, 1, "queued", ["x"])]))
  }

  lemma OneJobPoll(g: Sweep, broken: bool, gated: bool)
    requires g == Sweep(g.gate, {}, [], true)
    ensures var skip := gated && 1 in g.gate && g.gate[1] == "t";
            Poll(g.gate, gated, OneJob(broken), ["r"], ["x"]) ==
              Sweep(map[1 := "t"], {1},
                    if skip || broken then [] else [JobRef("r", 7, 1, 1, ["x"])], !broken)
  {
    var gh := OneJob(broken);
    var j := JobInfo(7, 1, 1, "queued", ["x"]);
    assert Offered("x", ["x"]) by {
      assert ["x"][0] == "x";
    }
    assert Wanted("r", [j], ["x"]) == [JobRef("r", 7, 1, 1, ["x"])] by {
      assert [j][..0] == [];
    }
    assert JobsOf(gh, "r", 1, ["x"]) == Some([JobRef("r", 7, 1, 1, ["x"])]);
    var h := RunStep(g, gated, gh, "r", ["x"], Run(1, "t"));
    assert [Run(1, "t")][1..] == [];
    assert RunsFold(g, gated, gh, "r", ["x"], [Run(1, "t")]) == h;
    assert PagesFold(g, gated, gh, "r", ["x"], "queued", 1) == h;
    assert PagesFold(h, gated, gh, "r", ["x"], "in_progress", 1) == h.(ok := !broken);
    assert ["r"][1..] == [];
    assert [] + h.refs == h.refs;
    assert ReposFold(g, gated, gh, ["r"], ["x"]) == RepoStep(g, gated, gh, "r", ["x"]);
  }

  /** An error after a run's entry was written drops its refs, and the gate then hides the
      run from the next poll although nothing fails any more. */
  lemma ErrorHidesJob()
    ensures Found([OneJob(true), OneJob(false)], ["r"], ["x"]) == {}
    ensures FoundUngated([OneJob(true), OneJob(false)], ["r"], ["x"]) == {JobRef("r", 7, 1, 1, ["x"])}
  {
    hide Poll, OneJob;
    var polls := [OneJob(true), OneJob(false)];
    assert polls[..1] == [OneJob(true)] && polls[..1][..0] == [];
    OneJobPoll(Sweep(map[], {}, [], true), true, true);
    OneJobPoll(Sweep(map[1 := "t"], {}, [], true), false, true);
    OneJobPoll(Sweep(map[], {}, [], true), true, false);
    OneJobPoll(Sweep(map[], {}, [], true), false, false);
  }
}
