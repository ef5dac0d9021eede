/**
 * The filter panel of client/src/components/Filters.jsx. The selected skills travel as one
 * comma-separated string, the same string the job list route splits at its commas.
 */
module FiltersPanel {
  import opened Strings
  import opened Seqs
  import opened FilterValues

  /** handleChange: sets one key. */
  function HandleChange(f: Filters, key: string, value: FilterValue): (r: Filters)
    ensures key in r && r[key] == value
    ensures forall k :: k != key ==> (k in r <==> k in f)
    ensures forall k :: k != key && k in f ==> r[k] == f[k]
  {
    f[key := value]
  }

  /** `filters.skills.split` is only called on a string. */
  predicate SkillsReadable(f: Filters) {
    !Present(f, "skills") || f["skills"].Str?
  }

  /** The selected skills: the comma pieces of `filters.skills`, or none when it is unset or empty. */
  function CurrentSkills(f: Filters): seq<string>
    requires SkillsReadable(f)
  {
    if Present(f, "skills") then Split(f["skills"].s, ',') else []
  }

  /** The new selection: without every copy of `skill` when it is selected, else with it at the end. */
  function ToggledSkills(current: seq<string>, skill: string): (r: seq<string>)
    ensures skill in current ==> skill !in r && IsSubseq(r, current)
    ensures skill in current ==> forall k :: 0 <= k < |current| && current[k] != skill ==> current[k] in r
    ensures skill in current ==> forall x :: x != skill ==> multiset(r)[x] == multiset(current)[x]
    ensures skill !in current ==> r == current + [skill]
  {
    var other := (s: string) => s != skill;
    FilterMultiset(current, other);
    if skill in current then Filter(current, other) else current + [skill]
  }

  /** handleSkillToggle. */
  function HandleSkillToggle(f: Filters, skill: string): (r: Filters)
    requires SkillsReadable(f)
    ensures SkillsReadable(r)
    ensures "skills" in r && r["skills"] == Str(Join(ToggledSkills(CurrentSkills(f), skill), ","))
    ensures forall k :: k != "skills" ==> (k in r <==> k in f) && (k in f ==> r[k] == f[k])
  {
    HandleChange(f, "skills", Str(Join(ToggledSkills(CurrentSkills(f), skill), ",")))
  }

  /** Removing a skill that was appended to a list without it gives back the list. */
  lemma RemoveAppended(xs: seq<string>, skill: string)
    requires skill !in xs
    ensures Filter(xs + [skill], (s: string) => s != skill) == xs
  {
    var p := (s: string) => s != skill;
    FilterAppend(xs, [skill], p);
    assert Filter([skill], p) == [];
    assert Filter(xs, p) == xs;
  }

  /**
   * Toggling a comma-free skill that is not selected, twice, restores the selection; when a
   * selection was set, the very same string comes back.
   */
  lemma ToggleTwice(f: Filters, skill: string)
    requires SkillsReadable(f) && skill != "" && ',' !in skill && skill !in CurrentSkills(f)
    ensures var g := HandleSkillToggle(HandleSkillToggle(f, skill), skill);
      CurrentSkills(g) == CurrentSkills(f)
      && (Present(f, "skills") ==> g["skills"] == f["skills"])
  {
    var cur := CurrentSkills(f);
    var once := HandleSkillToggle(f, skill);
    SplitNoSep(skill, ',');
    if Present(f, "skills") {
      var s := f["skills"].s;
      JoinSplit(s, ',');
      SplitSepFree(s, ',');
      var xs := cur + [skill];
      forall k | 0 <= k < |xs|
        ensures ',' !in xs[k]
      {
        if k < |cur| {
          assert xs[k] == cur[k];
        }
      }
      SplitJoin(xs, ',');
      JoinAppend(cur, skill, ",");
      assert CurrentSkills(once) == xs;
      RemoveAppended(cur, skill);
    } else {
      assert Join([skill], ",") == skill;
      assert CurrentSkills(once) == [skill];
      assert [skill] == [] + [skill];
      RemoveAppended([], skill);
    }
  }
}
