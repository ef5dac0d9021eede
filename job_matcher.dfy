/**
 * The match scorer of server/services/jobMatcher.js: the keyword scorer `simpleMatch`
 * and `aiMatch`, which uses a language-model answer (an input here) when an API key
 * is configured and falls back to the keyword scorer otherwise.
 */
module JobMatcher {
  import opened Wrappers
  import opened Strings
  import opened Seqs
  import opened LlmConfig

  /** A job posting as delivered by the job source; `postedDate` is a millisecond timestamp. */
  datatype Job = Job(
    id: string, title: string, company: string, location: string, description: string,
    jobType: string, workMode: string, postedDate: int, skills: seq<string>, applyUrl: string)

  datatype MatchResult = MatchResult(score: int, explanation: string, matchingSkills: seq<string>)

  const NoResumeText := "No resume uploaded"
  const AiDefaultExplanation := "AI analysis completed"

  function Min(a: int, b: int): int { if a <= b then a else b }
  function Max(a: int, b: int): int { if a >= b then a else b }

  /** The job skills whose lower-cased form occurs in the (lower-cased) resume, in job order. */
  function MatchingSkills(skills: seq<string>, resumeLower: string): (r: seq<string>)
    ensures IsSubseq(r, skills)
    ensures forall k :: 0 <= k < |r| ==> r[k] in skills && Contains(resumeLower, Lower(r[k]))
    ensures forall k :: 0 <= k < |skills| && Contains(resumeLower, Lower(skills[k])) ==> skills[k] in r
  {
    Filter(skills, (s: string) => Contains(resumeLower, Lower(s)))
  }

  /** Each matching skill appears as many times as the job lists it. */
  lemma MatchingSkillsCounts(skills: seq<string>, resumeLower: string)
    ensures var r := MatchingSkills(skills, resumeLower);
      forall x :: multiset(r)[x] == if Contains(resumeLower, Lower(x)) then multiset(skills)[x] else 0
  {
    FilterMultiset(skills, (s: string) => Contains(resumeLower, Lower(s)));
  }

  /** Title tokens: split on a single space, keep those longer than 3 characters. */
  function TitleWords(titleLower: string): (r: seq<string>)
    ensures forall k :: 0 <= k < |r| ==> |r[k]| > 3 && ' ' !in r[k]
    ensures IsSubseq(r, Split(titleLower, ' '))
    ensures forall w :: w in Split(titleLower, ' ') && |w| > 3 ==> w in r
  {
    SplitSepFree(titleLower, ' ');
    Filter(Split(titleLower, ' '), (w: string) => |w| > 3)
  }

  /** Each title word appears as many times as the title holds it. */
  lemma TitleWordsCounts(titleLower: string)
    ensures var r := TitleWords(titleLower);
      forall w :: multiset(r)[w] == if |w| > 3 then multiset(Split(titleLower, ' '))[w] else 0
  {
    FilterMultiset(Split(titleLower, ' '), (w: string) => |w| > 3);
  }

  /**
   * Description tokens: split on a single space, keep those longer than 4, then the first 10.
   * When fewer than 10 remain, none was cut off.
   */
  function DescriptionWords(descLower: string): (r: seq<string>)
    ensures |r| <= 10
    ensures forall k :: 0 <= k < |r| ==> |r[k]| > 4 && ' ' !in r[k]
    ensures IsSubseq(r, Split(descLower, ' '))
    ensures |r| < 10 ==> forall w :: w in Split(descLower, ' ') && |w| > 4 ==> w in r
    ensures var long := Filter(Split(descLower, ' '), (w: string) => |w| > 4);
      |r| == (if |long| <= 10 then |long| else 10) && r == long[..|r|]
  {
    var long := (w: string) => |w| > 4;
    var tokens := Split(descLower, ' ');
    SplitSepFree(descLower, ' ');
    var kept := Filter(tokens, long);
    IsSubseqPrefix(kept, if |kept| <= 10 then |kept| else 10);
    IsSubseqTrans(Take(kept, 10), kept, tokens);
    Take(kept, 10)
  }

  /**
   * No description word appears more often than the description holds it, and when none was
   * cut off each appears exactly as often.
   */
  lemma DescriptionWordsCounts(descLower: string)
    ensures var r := DescriptionWords(descLower);
      forall w :: multiset(r)[w] <= if |w| > 4 then multiset(Split(descLower, ' '))[w] else 0
    ensures var r := DescriptionWords(descLower);
      |r| < 10 ==> forall w :: multiset(r)[w] == if |w| > 4 then multiset(Split(descLower, ' '))[w] else 0
  {
    var kept := Filter(Split(descLower, ' '), (w: string) => |w| > 4);
    var r := DescriptionWords(descLower);
    FilterMultiset(Split(descLower, ' '), (w: string) => |w| > 4);
    assert kept == r + kept[|r|..];
    assert multiset(kept) == multiset(r) + multiset(kept[|r|..]);
  }

  /** How many of the words occur in the resume, counting every position. */
  function Hits(words: seq<string>, resumeLower: string): (n: nat)
    ensures n <= |words|
    ensures n == |set k | 0 <= k < |words| && Contains(resumeLower, words[k])|
  {
    var found := (w: string) => Contains(resumeLower, w);
    FilterCount(words, found);
    assert Passing(words, found) == set k | 0 <= k < |words| && Contains(resumeLower, words[k]);
    |Filter(words, found)|
  }

  /** The six counts the keyword score is computed from. */
  datatype Counts = Counts(matched: nat, skills: nat, titleHits: nat, titleWords: nat, descHits: nat, descWords: nat)
  {
    predicate Valid() {
      skills > 0 && matched <= skills && titleHits <= titleWords && descHits <= descWords
    }
  }

  function CountsOf(job: Job, resumeLower: string): (c: Counts)
    requires |job.skills| > 0
    ensures c.Valid()
  {
    var tw := TitleWords(Lower(job.title));
    var dw := DescriptionWords(Lower(job.description));
    Counts(|MatchingSkills(job.skills, resumeLower)|, |job.skills|,
           Hits(tw, resumeLower), |tw|, Hits(dw, resumeLower), |dw|)
  }

  /** skillScore + titleScore + descScore in exact arithmetic; an empty word list divides by 1. */
  function WeightedSum(c: Counts): real
    requires c.skills > 0
  {
    (c.matched as real / c.skills as real) * 60.0
    + (c.titleHits as real / Max(c.titleWords, 1) as real) * 20.0
    + (c.descHits as real / Max(c.descWords, 1) as real) * 20.0
  }

  /** Math.round: halves round up. */
  function Round(x: real): int {
    (x + 0.5).Floor
  }

  /**
   * The same score in integer arithmetic: with N = skills * T * D (T, D the word counts,
   * at least 1), the sum is num / N and rounding half up is (2 num + N) div (2 N).
   */
  function IntegerScore(c: Counts): int
    requires c.skills > 0
  {
    var t := Max(c.titleWords, 1);
    var d := Max(c.descWords, 1);
    var n := c.skills * (t * d);
    var num := 60 * (c.matched * (t * d)) + 20 * (c.titleHits * (c.skills * d)) + 20 * (c.descHits * (c.skills * t));
    (2 * num + n) / (2 * n)
  }

  lemma CastMul(a: int, b: int)
    ensures (a * b) as real == a as real * b as real
  {
  }

  lemma FracScale(x: real, b: real, m: real)
    requires b > 0.0 && m > 0.0
    ensures x / b == (x * m) / (b * m)
  {
  }

  lemma FracTimes(x: real, b: real, k: real)
    requires b > 0.0
    ensures (x / b) * k == (x * k) / b
  {
  }

  lemma FracAdd(p: real, q: real, n: real)
    requires n > 0.0
    ensures p / n + q / n == (p + q) / n
  {
  }

  lemma HalfAdd(p: real, n: real)
    requires n > 0.0
    ensures p / n + 0.5 == (p * 2.0 + n) / (n * 2.0)
  {
    FracScale(p, n, 2.0);
    assert 0.5 == n / (n * 2.0);
    FracAdd(p * 2.0, n, n * 2.0);
  }

  lemma DivBelow(a: int, b: int, k: int)
    requires 0 <= a < b * k && b > 0
    ensures 0 <= a / b < k
  {
  }

  lemma MulMono(a: nat, b: nat, k: nat)
    requires a <= b
    ensures 0 <= a * k <= b * k
  {
  }

  lemma PosMul(a: nat, b: nat)
    requires a > 0 && b > 0
    ensures a * b > 0
  {
  }

  lemma Comm3(s: nat, t: nat, d: nat)
    ensures t * (s * d) == s * (t * d) && d * (s * t) == s * (t * d)
  {
  }

  /** The floor of an exact quotient is Euclidean integer division. */
  lemma FloorOfQuotient(a: int, b: int)
    requires b > 0
    ensures (a as real / b as real).Floor == a / b
  {
    var q, r := a / b, a % b;
    assert a == q * b + r;
    CastMul(q, b);
    assert (a as real) == (q as real) * (b as real) + (r as real);
    assert a as real / b as real == q as real + r as real / b as real;
    assert 0.0 <= r as real / b as real < 1.0;
  }

  /** (x / b) * k written over the denominator b * m. */
  lemma Term(x: nat, b: nat, k: nat, m: nat)
    requires b > 0 && m > 0
    ensures (x as real / b as real) * k as real == (k * (x * m)) as real / (b * m) as real
  {
    FracTimes(x as real, b as real, k as real);
    FracScale(x as real * k as real, b as real, m as real);
    CastMul(x, m);
    CastMul(k, x * m);
    CastMul(b, m);
    assert (x as real * k as real) * m as real == (k * (x * m)) as real;
  }

  /** Three fractions over one denominator, rounded half up. */
  lemma RoundCore(a1: int, a2: int, a3: int, n: int)
    requires n > 0
    ensures ((a1 as real / n as real + a2 as real / n as real + a3 as real / n as real) + 0.5).Floor
            == (2 * (a1 + a2 + a3) + n) / (2 * n)
  {
    var nr := n as real;
    FracAdd(a1 as real, a2 as real, nr);
    FracAdd(a1 as real + a2 as real, a3 as real, nr);
    var p := (a1 + a2 + a3) as real;
    HalfAdd(p, nr);
    assert (2 * (a1 + a2 + a3) + n) as real == p * 2.0 + nr;
    assert (2 * n) as real == nr * 2.0;
    FloorOfQuotient(2 * (a1 + a2 + a3) + n, 2 * n);
  }

  /** The exact rational sum, rounded half up, is the integer formula. */
  lemma RoundIsIntegerScore(c: Counts)
    requires c.skills > 0
    ensures Round(WeightedSum(c)) == IntegerScore(c)
  {
    var s := c.skills;
    var t := Max(c.titleWords, 1);
    var d := Max(c.descWords, 1);
    Term(c.matched, s, 60, t * d);
    Term(c.titleHits, t, 20, s * d);
    Term(c.descHits, d, 20, s * t);
    Comm3(s, t, d);
    RoundCore(60 * (c.matched * (t * d)), 20 * (c.titleHits * (s * d)), 20 * (c.descHits * (s * t)), s * (t * d));
  }

  lemma BoundsCore(a: nat, b: nat, c: nat, n: nat)
    requires 0 < n && a <= n && b <= n && c <= n
    ensures 0 <= (2 * (60 * a + 20 * b + 20 * c) + n) / (2 * n) <= 100
  {
    DivBelow(2 * (60 * a + 20 * b + 20 * c) + n, 2 * n, 101);
  }

  /** The integer formula on raw counts, each hit count at most its total. */
  lemma FormulaBounds(m: nat, s: nat, th: nat, t: nat, dh: nat, d: nat)
    requires 0 < s && 0 < t && 0 < d && m <= s && th <= t && dh <= d
    ensures 0 <= (2 * (60 * (m * (t * d)) + 20 * (th * (s * d)) + 20 * (dh * (s * t))) + s * (t * d))
                 / (2 * (s * (t * d))) <= 100
  {
    var td, sd, st := t * d, s * d, s * t;
    PosMul(t, d);
    PosMul(s, td);
    MulMono(m, s, td);
    MulMono(th, t, sd);
    MulMono(dh, d, st);
    Comm3(s, t, d);
    BoundsCore(m * td, th * sd, dh * st, s * td);
  }

  /** The integer formula never leaves [0, 100]. */
  lemma IntegerScoreBounds(c: Counts)
    requires c.Valid()
    ensures 0 <= IntegerScore(c) <= 100
  {
    FormulaBounds(c.matched, c.skills, c.titleHits, Max(c.titleWords, 1), c.descHits, Max(c.descWords, 1));
  }

  /** The explanation sentence for a score band. */
  function Explanation(score: int, skills: seq<string>, matching: seq<string>): string {
    if score > 70 then
      "Strong match! " + NatToString(|matching|) + " matching skills: " + Join(Take(matching, 3), ", ")
    else if score >= 40 then
      var listed := Join(matching, ", ");
      "Moderate match. " + NatToString(|matching|) + " matching skills: "
      + (if listed == "" then "some relevant experience" else listed)
    else
      "Low match. Consider building skills: " + Join(Take(skills, 3), ", ")
  }

  /** Integer division is determined by the bracketing multiples. */
  lemma DivUnique(t: nat, m: nat, q: nat)
    requires m > 0 && q * m <= t < q * m + m
    ensures t / m == q
  {
    var d, r := t / m, t % m;
    assert t == d * m + r && 0 <= r < m;
    if d < q {
      MulMono(d + 1, q, m);
    } else if d > q {
      MulMono(q + 1, d, m);
    }
  }

  lemma HundredCore(n: int)
    requires n > 0
    ensures (2 * (60 * n + 20 * n + 20 * n) + n) / (2 * n) == 100
  {
    DivUnique(2 * (60 * n + 20 * n + 20 * n) + n, 2 * n, 100);
  }

  /** Every weighted term at its maximum (non-empty word lists fully found) gives 100. */
  lemma FullMatchScoresHundred(c: Counts)
    requires c.skills > 0 && c.matched == c.skills
    requires c.titleHits == c.titleWords > 0 && c.descHits == c.descWords > 0
    ensures IntegerScore(c) == 100
  {
    var s, t, d := c.skills, c.titleWords, c.descWords;
    Comm3(s, t, d);
    assert Max(t, 1) == t && Max(d, 1) == d;
    HundredCore(s * (t * d));
  }

  /** Nothing found gives 0. */
  lemma NoMatchScoresZero(c: Counts)
    requires c.skills > 0 && c.matched == 0 && c.titleHits == 0 && c.descHits == 0
    ensures IntegerScore(c) == 0
  {
    var n := c.skills * (Max(c.titleWords, 1) * Max(c.descWords, 1));
    assert n > 0;
    assert n < 2 * n;
  }

  /** With no title or description words only the skill term counts: round(60 m / s). */
  lemma SkillsOnlyScore(c: Counts)
    requires c.Valid() && c.titleWords == 0 && c.descWords == 0
    ensures IntegerScore(c) == (120 * c.matched + c.skills) / (2 * c.skills)
  {
    assert c.titleHits == 0 && c.descHits == 0;
    assert c.skills * (Max(c.titleWords, 1) * Max(c.descWords, 1)) == c.skills;
  }

  lemma PrefixExtends(p: string, x: string, q: string)
    requires StartsWith(p, q)
    ensures StartsWith(p + x, q)
  {
    assert (p + x)[..|q|] == p[..|q|];
  }

  lemma PrefixDiffers(p: string, x: string, q: string)
    requires |p| > 0 && |q| > 0 && p[0] != q[0]
    ensures !StartsWith(p + x, q)
  {
    assert (p + x)[0] == p[0];
  }

  lemma SuffixExtends(p: string, x: string)
    ensures EndsWith(p + x, x)
  {
    assert (p + x)[|p + x| - |x|..] == x;
  }

  /** The explanation's opening words name the score band, and only that band. */
  lemma ExplanationBand(score: int, skills: seq<string>, matching: seq<string>)
    ensures StartsWith(Explanation(score, skills, matching), "Strong match!") <==> score > 70
    ensures StartsWith(Explanation(score, skills, matching), "Moderate match.") <==> 40 <= score <= 70
    ensures StartsWith(Explanation(score, skills, matching), "Low match.") <==> score < 40
  {
    var e := Explanation(score, skills, matching);
    var strong, moderate, low := "Strong match! ", "Moderate match. ", "Low match. Consider building skills: ";
    if score > 70 {
      var rest := NatToString(|matching|) + " matching skills: " + Join(Take(matching, 3), ", ");
      assert e == strong + rest;
      PrefixExtends(strong, rest, "Strong match!");
      PrefixDiffers(strong, rest, "Moderate match.");
      PrefixDiffers(strong, rest, "Low match.");
    } else if score >= 40 {
      var listed := Join(matching, ", ");
      var rest := NatToString(|matching|) + " matching skills: "
                  + (if listed == "" then "some relevant experience" else listed);
      assert e == moderate + rest;
      PrefixExtends(moderate, rest, "Moderate match.");
      PrefixDiffers(moderate, rest, "Strong match!");
      PrefixDiffers(moderate, rest, "Low match.");
    } else {
      var rest := Join(Take(skills, 3), ", ");
      assert e == low + rest;
      PrefixExtends(low, rest, "Low match.");
      PrefixDiffers(low, rest, "Strong match!");
      PrefixDiffers(low, rest, "Moderate match.");
    }
  }

  /**
   * The skills an explanation ends with: the first three matching skills (strong), all of
   * them or "some relevant experience" when none (moderate), the first three job skills (low).
   */
  lemma ExplanationListsSkills(score: int, skills: seq<string>, matching: seq<string>)
    ensures score > 70 ==> EndsWith(Explanation(score, skills, matching), Join(Take(matching, 3), ", "))
    ensures 40 <= score <= 70 && matching == [] ==>
      EndsWith(Explanation(score, skills, matching), "some relevant experience")
    ensures 40 <= score <= 70 && Join(matching, ", ") != "" ==>
      EndsWith(Explanation(score, skills, matching), Join(matching, ", "))
    ensures score < 40 ==> EndsWith(Explanation(score, skills, matching), Join(Take(skills, 3), ", "))
  {
    var n := NatToString(|matching|);
    if score > 70 {
      SuffixExtends("Strong match! " + n + " matching skills: ", Join(Take(matching, 3), ", "));
    } else if score >= 40 {
      var listed := Join(matching, ", ");
      SuffixExtends("Moderate match. " + n + " matching skills: ",
                    if listed == "" then "some relevant experience" else listed);
    } else {
      SuffixExtends("Low match. Consider building skills: ", Join(Take(skills, 3), ", "));
    }
  }

  /** `Math.min(Math.round(skillScore + titleScore + descScore), 100)`: the integer formula, in [0, 100]. */
  function KeywordScore(c: Counts): (r: int)
    requires c.Valid()
    ensures r == IntegerScore(c)
    ensures 0 <= r <= 100
  {
    RoundIsIntegerScore(c);
    IntegerScoreBounds(c);
    Min(Round(WeightedSum(c)), 100)
  }

  /** simpleMatch. Its callers guarantee a non-empty skill list whenever the resume is non-empty. */
  function SimpleMatch(job: Job, resume: string): (r: MatchResult)
    requires resume != "" ==> |job.skills| > 0
    ensures resume == "" ==> r == MatchResult(0, NoResumeText, [])
    ensures resume != "" ==> r.matchingSkills == MatchingSkills(job.skills, Lower(resume))
    ensures resume != "" ==> r.score == IntegerScore(CountsOf(job, Lower(resume)))
    ensures 0 <= r.score <= 100
    ensures r.explanation == if resume == "" then NoResumeText
                             else Explanation(r.score, job.skills, r.matchingSkills)
  {
    if resume == "" then
      MatchResult(0, NoResumeText, [])
    else
      var resumeLower := Lower(resume);
      var matching := MatchingSkills(job.skills, resumeLower);
      var score := KeywordScore(CountsOf(job, resumeLower));
      MatchResult(score, Explanation(score, job.skills, matching), matching)
  }

  /** Outcome of the language-model request, already extracted from its text answer. */
  datatype LlmMatch =
    | LlmFailed      // the request threw (network, quota, malformed JSON)
    | LlmNoJson      // the answer held no brace-delimited object
    | LlmParsed(score: Option<int>, explanation: Option<string>, matchingSkills: Option<seq<string>>)

  /** `Math.min(Math.max(parsed.score || 0, 0), 100)`. */
  function ClampScore(s: Option<int>): (r: int)
    ensures 0 <= r <= 100
    ensures s.None? ==> r == 0
    ensures s.Some? && 0 <= s.value <= 100 ==> r == s.value
    ensures s.Some? && s.value < 0 ==> r == 0
    ensures s.Some? && s.value > 100 ==> r == 100
  {
    Min(Max(s.GetOr(0), 0), 100)
  }

  /** The result built from a parsed model answer, with its defaults for missing fields. */
  function FromLlm(score: Option<int>, explanation: Option<string>, skills: Option<seq<string>>): (r: MatchResult)
    ensures 0 <= r.score <= 100
    ensures r.explanation != ""
    ensures explanation.Some? && explanation.value != "" ==> r.explanation == explanation.value
    ensures skills.Some? ==> r.matchingSkills == skills.value
    ensures skills.None? ==> r.matchingSkills == []
  {
    var e := explanation.GetOr("");
    MatchResult(ClampScore(score), if e == "" then AiDefaultExplanation else e, skills.GetOr([]))
  }

  /** The keyword scorer is used: no usable key, or the model gave no parsed answer. */
  predicate FallsBack(key: Option<string>, llm: LlmMatch) {
    !UsableKey(key) || !llm.LlmParsed?
  }

  /** aiMatch (and matchJobWithResume, which only delegates to it). */
  function AiMatch(job: Job, resume: string, key: Option<string>, llm: LlmMatch): (r: MatchResult)
    requires FallsBack(key, llm) && resume != "" ==> |job.skills| > 0
    ensures 0 <= r.score <= 100
    ensures FallsBack(key, llm) ==> r == SimpleMatch(job, resume)
    ensures !FallsBack(key, llm) ==> r == FromLlm(llm.score, llm.explanation, llm.matchingSkills)
  {
    if FallsBack(key, llm) then SimpleMatch(job, resume)
    else FromLlm(llm.score, llm.explanation, llm.matchingSkills)
  }
}
