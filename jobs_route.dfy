/**
 * The job list routes of server/routes/jobs.js: GET / narrows the provider's list step by
 * step with the query's filters, scores what is left against the user's resume, keeps one
 * score bucket and sorts in place by score; GET /best-matches keeps the eight best.
 * The provider's list, the clock and the per-job language-model answers are parameters.
 */
module JobsRoute {
  import opened Wrappers
  import opened Strings
  import opened Seqs
  import opened LlmConfig
  import opened JobMatcher
  import opened Store

  /** The query string: a missing parameter reads as "". */
  type Query = map<string, string>

  function Param(q: Query, name: string): string {
    if name in q then q[name] else ""
  }

  // ---- the filter steps ----

  predicate SearchKeeps(job: Job, termLower: string) {
    Contains(Lower(job.title), termLower) || Contains(Lower(job.description), termLower)
  }

  /** `skills.split(',').map(s => s.trim().toLowerCase())`. */
  function WantedSkills(skills: string): (r: seq<string>)
    ensures |r| == |Split(skills, ',')|
    ensures forall i :: 0 <= i < |r| ==> r[i] == Lower(Trim(Split(skills, ',')[i]))
  {
    var pieces := Split(skills, ',');
    seq(|pieces|, i requires 0 <= i < |pieces| => Lower(Trim(pieces[i])))
  }

  /** Some skill of the job, lower-cased, is one of the wanted entries. */
  predicate SkillKeeps(job: Job, wanted: seq<string>) {
    exists i :: 0 <= i < |job.skills| && Lower(job.skills[i]) in wanted
  }

  /** The cutoffs table, in milliseconds; any other key has no cutoff. */
  function Cutoff(datePosted: string): (r: Option<nat>)
    ensures r.Some? <==> datePosted in {"24h", "week", "month"}
  {
    if datePosted == "24h" then Some(24 * 60 * 60 * 1000)
    else if datePosted == "week" then Some(7 * 24 * 60 * 60 * 1000)
    else if datePosted == "month" then Some(30 * 24 * 60 * 60 * 1000)
    else None
  }

  predicate DateKeeps(job: Job, now: int, cutoff: nat) {
    now - job.postedDate <= cutoff
  }

  predicate LocationKeeps(job: Job, locationLower: string) {
    Contains(Lower(job.location), locationLower)
  }

  // ---- what each step lets through, an absent parameter letting everything through ----

  predicate SearchOk(job: Job, q: Query) {
    Param(q, "search") == "" || SearchKeeps(job, Lower(Param(q, "search")))
  }

  predicate SkillsOk(job: Job, q: Query) {
    Param(q, "skills") == "" || SkillKeeps(job, WantedSkills(Param(q, "skills")))
  }

  predicate DateOk(job: Job, q: Query, now: int) {
    var d := Param(q, "datePosted");
    d == "" || d == "any" || Cutoff(d).None? || DateKeeps(job, now, Cutoff(d).value)
  }

  predicate TypeOk(job: Job, q: Query) {
    Param(q, "jobType") == "" || job.jobType == Param(q, "jobType")
  }

  predicate ModeOk(job: Job, q: Query) {
    Param(q, "workMode") == "" || job.workMode == Param(q, "workMode")
  }

  predicate LocationOk(job: Job, q: Query) {
    Param(q, "location") == "" || LocationKeeps(job, Lower(Param(q, "location")))
  }

  /** The first `n` steps of the chain let the job through. */
  predicate PassesFirst(job: Job, q: Query, now: int, n: nat) {
    && (n >= 1 ==> SearchOk(job, q))
    && (n >= 2 ==> SkillsOk(job, q))
    && (n >= 3 ==> DateOk(job, q, now))
    && (n >= 4 ==> TypeOk(job, q))
    && (n >= 5 ==> ModeOk(job, q))
    && (n >= 6 ==> LocationOk(job, q))
  }

  /** The whole chain lets the job through. */
  predicate Passes(job: Job, q: Query, now: int) {
    SearchOk(job, q) && SkillsOk(job, q) && DateOk(job, q, now) && TypeOk(job, q) && ModeOk(job, q) && LocationOk(job, q)
  }

  /** Two filters in a row are one filter by the conjunction. */
  lemma {:induction false} FilterNarrow<T>(s: seq<T>, keep: T -> bool, step: T -> bool, next: T -> bool)
    requires forall k :: 0 <= k < |s| ==> next(s[k]) == (keep(s[k]) && step(s[k]))
    ensures Filter(Filter(s, keep), step) == Filter(s, next)
    decreases |s|
  {
    if s != [] {
      FilterNarrow(s[1..], keep, step, next);
    }
  }

  /** Filters by predicates that agree on the list give the same list. */
  lemma {:induction false} FilterSame<T>(s: seq<T>, p: T -> bool, q: T -> bool)
    requires forall k :: 0 <= k < |s| ==> p(s[k]) == q(s[k])
    ensures Filter(s, p) == Filter(s, q)
    decreases |s|
  {
    if s != [] {
      FilterSame(s[1..], p, q);
    }
  }

  // ---- the steps as GET / runs them: each filters only when its parameter is given ----

  function BySearch(jobs: seq<Job>, q: Query): (r: seq<Job>)
    ensures r == Filter(jobs, (j: Job) => SearchOk(j, q))
  {
    var search := Param(q, "search");
    if search == "" then jobs
    else
      var searchLower := Lower(search);
      FilterSame(jobs, (j: Job) => SearchKeeps(j, searchLower), (j: Job) => SearchOk(j, q));
      Filter(jobs, (j: Job) => SearchKeeps(j, searchLower))
  }

  function BySkills(jobs: seq<Job>, q: Query): (r: seq<Job>)
    ensures r == Filter(jobs, (j: Job) => SkillsOk(j, q))
  {
    var skills := Param(q, "skills");
    if skills == "" then jobs
    else
      var skillsArray := WantedSkills(skills);
      FilterSame(jobs, (j: Job) => SkillKeeps(j, skillsArray), (j: Job) => SkillsOk(j, q));
      Filter(jobs, (j: Job) => SkillKeeps(j, skillsArray))
  }

  function ByDate(jobs: seq<Job>, q: Query, now: int): (r: seq<Job>)
    ensures r == Filter(jobs, (j: Job) => DateOk(j, q, now))
  {
    var datePosted := Param(q, "datePosted");
    if datePosted == "" || datePosted == "any" then jobs
    else match Cutoff(datePosted)
      case None => jobs
      case Some(cutoff) =>
        FilterSame(jobs, (j: Job) => DateKeeps(j, now, cutoff), (j: Job) => DateOk(j, q, now));
        Filter(jobs, (j: Job) => DateKeeps(j, now, cutoff))
  }

  function ByJobType(jobs: seq<Job>, q: Query): (r: seq<Job>)
    ensures r == Filter(jobs, (j: Job) => TypeOk(j, q))
  {
    var jobType := Param(q, "jobType");
    if jobType == "" then jobs
    else
      FilterSame(jobs, (j: Job) => j.jobType == jobType, (j: Job) => TypeOk(j, q));
      Filter(jobs, (j: Job) => j.jobType == jobType)
  }

  function ByWorkMode(jobs: seq<Job>, q: Query): (r: seq<Job>)
    ensures r == Filter(jobs, (j: Job) => ModeOk(j, q))
  {
    var workMode := Param(q, "workMode");
    if workMode == "" then jobs
    else
      FilterSame(jobs, (j: Job) => j.workMode == workMode, (j: Job) => ModeOk(j, q));
      Filter(jobs, (j: Job) => j.workMode == workMode)
  }

  function ByLocation(jobs: seq<Job>, q: Query): (r: seq<Job>)
    ensures r == Filter(jobs, (j: Job) => LocationOk(j, q))
  {
    var location := Param(q, "location");
    if location == "" then jobs
    else
      var locationLower := Lower(location);
      FilterSame(jobs, (j: Job) => LocationKeeps(j, locationLower), (j: Job) => LocationOk(j, q));
      Filter(jobs, (j: Job) => LocationKeeps(j, locationLower))
  }

  /** The search, skills and date steps of GET /. */
  method ContentFilters(all: seq<Job>, q: Query, now: int) returns (jobs: seq<Job>)
    ensures jobs == Filter(all, (j: Job) => PassesFirst(j, q, now, 3))
  {
    jobs := all;
    jobs := BySearch(jobs, q);
    FilterSame(all, (j: Job) => SearchOk(j, q), (j: Job) => PassesFirst(j, q, now, 1));
    jobs := BySkills(jobs, q);
    FilterNarrow(all, (j: Job) => PassesFirst(j, q, now, 1), (j: Job) => SkillsOk(j, q), (j: Job) => PassesFirst(j, q, now, 2));
    jobs := ByDate(jobs, q, now);
    FilterNarrow(all, (j: Job) => PassesFirst(j, q, now, 2), (j: Job) => DateOk(j, q, now), (j: Job) => PassesFirst(j, q, now, 3));
  }

  /** The filter steps of GET /, reassigning the list after each one. */
  method ApplyFilters(all: seq<Job>, q: Query, now: int) returns (jobs: seq<Job>)
    ensures jobs == Filter(all, (j: Job) => Passes(j, q, now))
  {
    jobs := ContentFilters(all, q, now);
    jobs := ByJobType(jobs, q);
    FilterNarrow(all, (j: Job) => PassesFirst(j, q, now, 3), (j: Job) => TypeOk(j, q), (j: Job) => PassesFirst(j, q, now, 4));
    jobs := ByWorkMode(jobs, q);
    FilterNarrow(all, (j: Job) => PassesFirst(j, q, now, 4), (j: Job) => ModeOk(j, q), (j: Job) => PassesFirst(j, q, now, 5));
    jobs := ByLocation(jobs, q);
    FilterNarrow(all, (j: Job) => PassesFirst(j, q, now, 5), (j: Job) => LocationOk(j, q), (j: Job) => PassesFirst(j, q, now, 6));
    FilterSame(all, (j: Job) => PassesFirst(j, q, now, 6), (j: Job) => Passes(j, q, now));
  }

  /** A job is listed exactly when it is in the provider's list and passes every given filter. */
  lemma ListedIff(all: seq<Job>, q: Query, now: int, job: Job)
    ensures job in Filter(all, (j: Job) => Passes(j, q, now)) <==> job in all && Passes(job, q, now)
  {
    var r := Filter(all, (j: Job) => Passes(j, q, now));
    if job in r {
      var k :| 0 <= k < |r| && r[k] == job;
    }
  }

  /** A query naming no filter removes nothing. */
  lemma NoFiltersKeepAll(all: seq<Job>, q: Query, now: int)
    requires forall name :: name in q ==> name !in {"search", "skills", "datePosted", "jobType", "workMode", "location"}
    ensures Filter(all, (j: Job) => Passes(j, q, now)) == all
  {
    assert Param(q, "search") == "" && Param(q, "skills") == "" && Param(q, "datePosted") == "";
    assert Param(q, "jobType") == "" && Param(q, "workMode") == "" && Param(q, "location") == "";
  }

  // ---- scoring ----

  /** A job with its match result spread in. */
  datatype ScoredJob = ScoredJob(job: Job, matchScore: int, matchExplanation: string, matchingSkills: seq<string>)

  function WithMatch(job: Job, m: MatchResult): ScoredJob {
    ScoredJob(job, m.score, m.explanation, m.matchingSkills)
  }

  /** `user?.resume?.text || ''`. */
  function ResumeTextOf(u: Option<User>): (r: string)
    ensures u.Some? && u.value.resume.Some? ==> r == u.value.resume.value.text
    ensures u.None? || u.value.resume.None? ==> r == ""
  {
    match u
    case Some(User(_, _, _, Some(resume))) => resume.text
    case _ => ""
  }

  /** Every job the keyword scorer would divide by has skills (the provider's jobs always do). */
  predicate Scorable(jobs: seq<Job>, resume: string, key: Option<string>, llm: Job -> LlmMatch) {
    forall k :: 0 <= k < |jobs| ==> (FallsBack(key, llm(jobs[k])) && resume != "" ==> |jobs[k].skills| > 0)
  }

  /** A sub-list of a scorable list is scorable. */
  lemma ScorableFilter(jobs: seq<Job>, p: Job -> bool, resume: string, key: Option<string>, llm: Job -> LlmMatch)
    requires Scorable(jobs, resume, key, llm)
    ensures Scorable(Filter(jobs, p), resume, key, llm)
  {
    var r := Filter(jobs, p);
    forall k | 0 <= k < |r|
      ensures FallsBack(key, llm(r[k])) && resume != "" ==> |r[k].skills| > 0
    {
      assert r[k] in jobs;
    }
  }

  /** `jobs.map(job => ({...job, ...matchJobWithResume(job, resumeText)}))`, `llm(job)` the model's answer. */
  function ScoreAll(jobs: seq<Job>, resume: string, key: Option<string>, llm: Job -> LlmMatch): (r: seq<ScoredJob>)
    requires Scorable(jobs, resume, key, llm)
    ensures |r| == |jobs|
    ensures forall k :: 0 <= k < |r| ==> r[k].job == jobs[k] && 0 <= r[k].matchScore <= 100
    ensures forall k :: 0 <= k < |r| ==> r[k] == WithMatch(jobs[k], AiMatch(jobs[k], resume, key, llm(jobs[k])))
  {
    seq(|jobs|, k requires 0 <= k < |jobs| => WithMatch(jobs[k], AiMatch(jobs[k], resume, key, llm(jobs[k]))))
  }

  /** Without a usable key and without a resume every job scores 0 with "No resume uploaded". */
  lemma NoResumeScoresZero(jobs: seq<Job>, key: Option<string>, llm: Job -> LlmMatch)
    requires !UsableKey(key)
    ensures forall k :: 0 <= k < |jobs| ==>
      ScoreAll(jobs, "", key, llm)[k] == ScoredJob(jobs[k], 0, NoResumeText, [])
  {
  }

  // ---- the match-score bucket ----

  /** The bucket `matchScore` selects: "high" above 70, "medium" 40 to 70, anything else all. */
  predicate InBucket(score: int, matchScore: string) {
    if matchScore == "high" then score > 70
    else if matchScore == "medium" then 40 <= score <= 70
    else true
  }

  function Bucketed(scored: seq<ScoredJob>, matchScore: string): seq<ScoredJob> {
    if matchScore == "high" then Filter(scored, (x: ScoredJob) => x.matchScore > 70)
    else if matchScore == "medium" then Filter(scored, (x: ScoredJob) => x.matchScore >= 40 && x.matchScore <= 70)
    else scored
  }

  /** The bucket keeps exactly the scored jobs in its band, in their order. */
  lemma BucketIff(scored: seq<ScoredJob>, matchScore: string, x: ScoredJob)
    ensures x in Bucketed(scored, matchScore) <==> x in scored && InBucket(x.matchScore, matchScore)
    ensures IsSubseq(Bucketed(scored, matchScore), scored)
  {
    var r := Bucketed(scored, matchScore);
    if matchScore != "high" && matchScore != "medium" {
      IsSubseqRefl(scored);
    } else if x in r {
      var k :| 0 <= k < |r| && r[k] == x;
    }
  }

  // ---- the sort: Array.prototype.sort is stable, the comparator puts higher scores first ----

  /** Scores never increase along the list. */
  ghost predicate Descending(s: seq<ScoredJob>) {
    forall i, j :: 0 <= i < j < |s| ==> s[i].matchScore >= s[j].matchScore
  }

  /** Insert `x` after every element scoring at least as much (from the right). */
  function Insert(x: ScoredJob, s: seq<ScoredJob>): (r: seq<ScoredJob>)
    ensures |r| == |s| + 1
    decreases |s|
  {
    if |s| == 0 then [x]
    else if s[|s| - 1].matchScore < x.matchScore then Insert(x, s[..|s| - 1]) + [s[|s| - 1]]
    else s + [x]
  }

  /** The stable descending order by score, built by inserting each element in list order. */
  function SortDesc(s: seq<ScoredJob>): (r: seq<ScoredJob>)
    ensures |r| == |s|
    decreases |s|
  {
    if |s| == 0 then [] else Insert(s[|s| - 1], SortDesc(s[..|s| - 1]))
  }

  lemma {:induction false} InsertMultiset(x: ScoredJob, s: seq<ScoredJob>)
    ensures multiset(Insert(x, s)) == multiset(s) + multiset{x}
    decreases |s|
  {
    if |s| > 0 {
      MultisetSnoc(s);
      if s[|s| - 1].matchScore < x.matchScore {
        InsertMultiset(x, s[..|s| - 1]);
        MultisetSnoc(Insert(x, s));
        assert Insert(x, s)[..|s|] == Insert(x, s[..|s| - 1]);
      }
    }
  }

  /** A lower bound on every score survives insertion of an element above it. */
  lemma {:induction false} InsertBound(x: ScoredJob, s: seq<ScoredJob>, b: int)
    requires x.matchScore >= b
    requires forall k :: 0 <= k < |s| ==> s[k].matchScore >= b
    ensures forall k :: 0 <= k < |s| + 1 ==> Insert(x, s)[k].matchScore >= b
    decreases |s|
  {
    if |s| > 0 && s[|s| - 1].matchScore < x.matchScore {
      InsertBound(x, s[..|s| - 1], b);
    }
  }

  lemma {:induction false} InsertDescending(x: ScoredJob, s: seq<ScoredJob>)
    requires Descending(s)
    ensures Descending(Insert(x, s))
    decreases |s|
  {
    if |s| > 0 {
      var init, last := s[..|s| - 1], s[|s| - 1];
      if last.matchScore < x.matchScore {
        InsertDescending(x, init);
        InsertBound(x, init, last.matchScore);
        assert Insert(x, s) == Insert(x, init) + [last];
      } else {
        assert Insert(x, s) == s + [x];
      }
    }
  }

  /** The sort puts scores in non-increasing order. */
  lemma {:induction false} SortDescDescending(s: seq<ScoredJob>)
    ensures Descending(SortDesc(s))
    decreases |s|
  {
    if |s| > 0 {
      SortDescDescending(s[..|s| - 1]);
      InsertDescending(s[|s| - 1], SortDesc(s[..|s| - 1]));
    }
  }

  /** The sort is a permutation. */
  lemma {:induction false} SortDescPermutes(s: seq<ScoredJob>)
    ensures multiset(SortDesc(s)) == multiset(s)
    decreases |s|
  {
    if |s| > 0 {
      var init, last := s[..|s| - 1], s[|s| - 1];
      SortDescPermutes(init);
      InsertMultiset(last, SortDesc(init));
      MultisetSnoc(s);
    }
  }

  /** The elements scoring exactly `v`, in list order. */
  function ScoreRun(s: seq<ScoredJob>, v: int): seq<ScoredJob>
    decreases |s|
  {
    if |s| == 0 then []
    else ScoreRun(s[..|s| - 1], v) + (if s[|s| - 1].matchScore == v then [s[|s| - 1]] else [])
  }

  lemma {:induction false} InsertStable(x: ScoredJob, s: seq<ScoredJob>, v: int)
    ensures ScoreRun(Insert(x, s), v) == ScoreRun(s, v) + (if x.matchScore == v then [x] else [])
    decreases |s|
  {
    if |s| == 0 {
      assert [x][..0] == [];
    } else {
      var init, last := s[..|s| - 1], s[|s| - 1];
      if last.matchScore < x.matchScore {
        InsertStable(x, init, v);
        var t := Insert(x, init);
        assert (t + [last])[..|t|] == t;
      } else {
        assert (s + [x])[..|s|] == s;
      }
    }
  }

  /** Stability: the jobs with any one score keep their relative order. */
  lemma {:induction false} SortDescStable(s: seq<ScoredJob>, v: int)
    ensures ScoreRun(SortDesc(s), v) == ScoreRun(s, v)
    decreases |s|
  {
    if |s| > 0 {
      var init, last := s[..|s| - 1], s[|s| - 1];
      SortDescStable(init, v);
      InsertStable(last, SortDesc(init), v);
    }
  }

  /** Insertion lands after the first `j` elements when all later ones score less and `p[j-1]` does not. */
  lemma {:induction false} InsertLands(x: ScoredJob, p: seq<ScoredJob>, j: nat)
    requires j <= |p|
    requires forall k :: j <= k < |p| ==> p[k].matchScore < x.matchScore
    requires j == 0 || p[j - 1].matchScore >= x.matchScore
    ensures Insert(x, p) == p[..j] + [x] + p[j..]
    decreases |p|
  {
    if j < |p| {
      var init := p[..|p| - 1];
      InsertLands(x, init, j);
      assert init[..j] == p[..j];
      assert p[j..] == init[j..] + [p[|p| - 1]];
    } else {
      assert p[..j] == p;
    }
  }

  /**
   * The shifting loop of one insertion: moves the elements before `i` that score less than `x`
   * one place right and returns the gap they leave.
   */
  method ShiftLower(a: array<ScoredJob>, i: nat, x: ScoredJob) returns (j: nat)
    requires i < a.Length
    modifies a
    ensures j <= i
    ensures forall k :: 0 <= k < j ==> a[k] == old(a[k])
    ensures forall k :: j < k <= i ==> a[k] == old(a[k - 1])
    ensures forall k :: i < k < a.Length ==> a[k] == old(a[k])
    ensures forall k :: j <= k < i ==> old(a[k]).matchScore < x.matchScore
    ensures j == 0 || old(a[j - 1]).matchScore >= x.matchScore
  {
    j := i;
    while j > 0 && a[j - 1].matchScore < x.matchScore
      invariant 0 <= j <= i
      invariant forall k :: 0 <= k < j ==> a[k] == old(a[k])
      invariant forall k :: j < k <= i ==> a[k] == old(a[k - 1])
      invariant forall k :: i < k < a.Length ==> a[k] == old(a[k])
      invariant forall k :: j <= k < i ==> old(a[k]).matchScore < x.matchScore
    {
      a[j] := a[j - 1];
      j := j - 1;
    }
  }

  /** One insertion step: `a[i]` moves left past the lower-scoring elements before it. */
  method InsertStep(a: array<ScoredJob>, i: nat)
    requires i < a.Length
    modifies a
    ensures a[..i + 1] == Insert(old(a[i]), old(a[..i]))
    ensures a[i + 1..] == old(a[i + 1..])
  {
    var x := a[i];
    ghost var p := a[..i];
    var j := ShiftLower(a, i, x);
    a[j] := x;
    InsertLands(x, p, j);
    assert a[..i + 1] == p[..j] + [x] + p[j..];
  }

  /** `filteredJobs.sort((a, b) => b.matchScore - a.matchScore)`: insertion sort in place. */
  method SortByScore(a: array<ScoredJob>)
    modifies a
    ensures a[..] == SortDesc(old(a[..]))
  {
    ghost var orig := a[..];
    var i := 0;
    while i < a.Length
      invariant 0 <= i <= a.Length
      invariant a[..i] == SortDesc(orig[..i])
      invariant a[i..] == orig[i..]
    {
      InsertStep(a, i);
      assert orig[..i + 1][..i] == orig[..i];
      i := i + 1;
    }
    assert orig[..a.Length] == orig;
  }

  /** GET /: filter, score against the user's resume, keep the requested bucket, sort. */
  method ListJobs(s: Store, userId: string, all: seq<Job>, q: Query, now: int,
                  key: Option<string>, llm: Job -> LlmMatch) returns (jobs: seq<ScoredJob>, total: nat)
    requires Scorable(all, ResumeTextOf(s.GetUserById(userId)), key, llm)
    ensures Scorable(Filter(all, (j: Job) => Passes(j, q, now)), ResumeTextOf(s.GetUserById(userId)), key, llm)
    ensures jobs == SortDesc(Bucketed(ScoreAll(Filter(all, (j: Job) => Passes(j, q, now)),
                                               ResumeTextOf(s.GetUserById(userId)), key, llm),
                                      Param(q, "matchScore")))
    ensures total == |jobs|
  {
    var filtered := ApplyFilters(all, q, now);
    var resumeText := ResumeTextOf(s.GetUserById(userId));
    ScorableFilter(all, (j: Job) => Passes(j, q, now), resumeText, key, llm);
    var scored := ScoreAll(filtered, resumeText, key, llm);
    var bucket := Bucketed(scored, Param(q, "matchScore"));
    var arr := new ScoredJob[|bucket|](k requires 0 <= k < |bucket| => bucket[k]);
    assert arr[..] == bucket;
    SortByScore(arr);
    jobs := arr[..];
    total := arr.Length;
  }

  /** The first eight of the sorted list: as many as there are up to eight, none left out scoring higher. */
  lemma BestAreBest(scored: seq<ScoredJob>)
    ensures |Take(SortDesc(scored), 8)| == if |scored| <= 8 then |scored| else 8
    ensures multiset(Take(SortDesc(scored), 8)) <= multiset(scored)
    ensures Descending(Take(SortDesc(scored), 8))
    ensures forall i, j :: 0 <= i < |Take(SortDesc(scored), 8)| <= j < |scored| ==>
      Take(SortDesc(scored), 8)[i].matchScore >= SortDesc(scored)[j].matchScore
  {
    var sorted := SortDesc(scored);
    SortDescDescending(scored);
    SortDescPermutes(scored);
    var r := Take(sorted, 8);
    assert sorted == r + sorted[|r|..];
    assert multiset(sorted) == multiset(r) + multiset(sorted[|r|..]);
    forall i, j | 0 <= i < j < |r|
      ensures r[i].matchScore >= r[j].matchScore
    {
      assert r[i] == sorted[i] && r[j] == sorted[j];
    }
    forall i, j | 0 <= i < |r| <= j < |scored|
      ensures r[i].matchScore >= sorted[j].matchScore
    {
      assert r[i] == sorted[i];
    }
  }

  /** GET /best-matches: nothing without a resume, otherwise the eight best-scoring jobs. */
  method BestMatches(s: Store, userId: string, all: seq<Job>, key: Option<string>, llm: Job -> LlmMatch)
    returns (jobs: seq<ScoredJob>, total: nat)
    requires Scorable(all, ResumeTextOf(s.GetUserById(userId)), key, llm)
    ensures ResumeTextOf(s.GetUserById(userId)) == "" ==> jobs == [] && total == 0
    ensures ResumeTextOf(s.GetUserById(userId)) != "" ==>
      jobs == Take(SortDesc(ScoreAll(all, ResumeTextOf(s.GetUserById(userId)), key, llm)), 8) && total == |jobs|
  {
    var resumeText := ResumeTextOf(s.GetUserById(userId));
    if resumeText == "" {
      return [], 0;
    }
    var scored := ScoreAll(all, resumeText, key, llm);
    var arr := new ScoredJob[|scored|](k requires 0 <= k < |scored| => scored[k]);
    assert arr[..] == scored;
    SortByScore(arr);
    jobs := Take(arr[..], 8);
    total := |jobs|;
  }
}
