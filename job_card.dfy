/** The display helpers of client/src/components/JobCard.jsx; the current time is a parameter. */
module JobCard {
  import opened Strings
  import opened Seqs
  import opened Wrappers

  /** getMatchBadgeClass. */
  function BadgeClass(score: int): (r: string)
    ensures r == "badge-success" <==> score > 70
    ensures r == "badge-warning" <==> 40 <= score <= 70
    ensures r == "badge-muted" <==> score < 40
  {
    if score > 70 then "badge-success"
    else if score >= 40 then "badge-warning"
    else "badge-muted"
  }

  const DayMs := 1000 * 60 * 60 * 24

  /** Math.ceil(a / b) for a non-negative a. */
  function CeilDiv(a: nat, b: nat): (r: nat)
    requires b > 0
    ensures b * r >= a
    ensures r > 0 ==> b * (r - 1) < a
  {
    (a + b - 1) / b
  }

  function Abs(x: int): nat {
    if x < 0 then -x else x
  }

  /** Whole days between the two instants, rounded up. */
  function DiffDays(now: int, date: int): nat {
    CeilDiv(Abs(now - date), DayMs)
  }

  /** The relative label for a day count. */
  function DateLabel(d: nat): (r: string)
    ensures d == 1 ==> r == "Today"
    ensures d == 2 ==> r == "Yesterday"
    ensures (d == 0 || 3 <= d <= 7) ==> r == NatToString(d) + " days ago"
    ensures 8 <= d <= 30 ==> exists w :: 2 <= w <= 5 && r == NatToString(w) + " weeks ago" && w == CeilDiv(d, 7)
    ensures d > 30 ==> exists m :: m >= 2 && r == NatToString(m) + " months ago" && m == CeilDiv(d, 30)
  {
    if d == 1 then "Today"
    else if d == 2 then "Yesterday"
    else if d <= 7 then NatToString(d) + " days ago"
    else if d <= 30 then NatToString(CeilDiv(d, 7)) + " weeks ago"
    else NatToString(CeilDiv(d, 30)) + " months ago"
  }

  /** formatDate. */
  function FormatDate(now: int, date: int): string {
    DateLabel(DiffDays(now, date))
  }

  /** A date `delta` ms in the past and one `delta` ms in the future get the same label. */
  lemma FormatDateSymmetric(now: int, delta: int)
    ensures FormatDate(now, now - delta) == FormatDate(now, now + delta)
  {
    assert Abs(now - (now - delta)) == Abs(now - (now + delta));
  }

  /** Anything under one full day after the instant (but not the instant itself) reads "Today". */
  lemma WithinADayIsToday(now: int, date: int)
    requires 0 < Abs(now - date) <= DayMs
    ensures FormatDate(now, date) == "Today"
  {
    assert DiffDays(now, date) == 1;
  }

  /** The skill badges shown: the first five. */
  function ShownSkills(skills: seq<string>): (r: seq<string>)
    ensures |r| == if |skills| <= 5 then |skills| else 5
    ensures r == skills[..|r|]
  {
    Take(skills, 5)
  }

  /** The "+N more" badge, present only beyond five skills. */
  function MoreBadge(skills: seq<string>): (r: Option<string>)
    ensures r.Some? <==> |skills| > 5
    ensures r.Some? ==> r.value == "+" + NatToString(|skills| - 5) + " more"
  {
    if |skills| > 5 then Some("+" + NatToString(|skills| - 5) + " more") else None
  }

  /** The shown badges and the number in the "+N more" badge account for every skill. */
  lemma BadgesAccountForAll(skills: seq<string>)
    ensures |ShownSkills(skills)| + (if MoreBadge(skills).Some? then |skills| - 5 else 0) == |skills|
  {
  }
}
