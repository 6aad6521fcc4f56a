/**
 * The recruiter tools demo: a candidate grid narrowed by required skills,
 * a minimum score and a location, its summary statistics, and the
 * "Post a Role" form.
 */
module Recruitment {
  import opened Text
  import opened Seqs

  datatype Candidate = Candidate(id: string, name: string, role: string, score: int, skills: seq<string>, location: string)

  /** The three filter inputs: the ticked skills, the score slider and the location picker. */
  datatype CandidateFilters = CandidateFilters(selectedSkills: seq<string>, minScore: int, selectedLocation: string)

  /** The filters' initial values. */
  const InitialFilters := CandidateFilters([], 70, "all")

  /** No ticked skill, or the candidate has at least one ticked skill (exact, case-sensitive). */
  predicate SkillsMatch(c: Candidate, selectedSkills: seq<string>)
  {
    |selectedSkills| == 0 || exists k | 0 <= k < |selectedSkills| :: selectedSkills[k] in c.skills
  }

  /** A candidate is listed when the skill, score and location tests all pass. */
  predicate CandidateMatches(c: Candidate, f: CandidateFilters)
  {
    SkillsMatch(c, f.selectedSkills)
    && c.score >= f.minScore
    && (f.selectedLocation == "all" || c.location == f.selectedLocation)
  }

  /** The filter callback of `filteredCandidates`. */
  function Keeps(f: CandidateFilters): Candidate -> bool
  {
    (c: Candidate) => CandidateMatches(c, f)
  }

  /** `filteredCandidates`: the candidates every filter accepts. */
  function FilterCandidates(candidates: seq<Candidate>, f: CandidateFilters): (r: seq<Candidate>)
    ensures forall c :: c in r <==> c in candidates && CandidateMatches(c, f)
  {
    Filter(candidates, Keeps(f))
  }

  /** The filtered grid keeps the original order and adds nothing. */
  lemma FilteredCandidatesSubsequence(candidates: seq<Candidate>, f: CandidateFilters)
    ensures IsSubsequence(FilterCandidates(candidates, f), candidates)
  {
    FilterIsSubsequence(candidates, Keeps(f));
  }

  /**
   * With no ticked skill the skills impose nothing: when every candidate
   * reaches the minimum score and the location is "all", all are listed.
   */
  lemma NoSkillsNoConstraint(candidates: seq<Candidate>, minScore: int)
    requires forall k :: 0 <= k < |candidates| ==> candidates[k].score >= minScore
    ensures FilterCandidates(candidates, CandidateFilters([], minScore, "all")) == candidates
  {
    FilterKeepsAll(candidates, Keeps(CandidateFilters([], minScore, "all")));
  }

  /** With ticked skills, a candidate is kept only if it has one of them; the test is exact string equality. */
  lemma TickedSkillRequired(c: Candidate, f: CandidateFilters)
    requires |f.selectedSkills| > 0
    ensures CandidateMatches(c, f) ==> exists s :: s in f.selectedSkills && s in c.skills
    ensures ((exists s :: s in f.selectedSkills && s in c.skills) && c.score >= f.minScore
             && (f.selectedLocation == "all" || c.location == f.selectedLocation)) ==> CandidateMatches(c, f)
  {
    if exists s :: s in f.selectedSkills && s in c.skills {
      var s :| s in f.selectedSkills && s in c.skills;
      var k :| 0 <= k < |f.selectedSkills| && f.selectedSkills[k] == s;
    }
  }

  /** `handleSkillToggle`'s update: drop a ticked skill, or append an unticked one at the end. */
  function ToggleSkill(selected: seq<string>, skill: string): (r: seq<string>)
    ensures skill in r <==> skill !in selected
    ensures forall s :: s != skill ==> (s in r <==> s in selected)
    ensures NoDup(selected) ==> NoDup(r)
    ensures skill !in selected ==> r == selected + [skill]
    ensures skill in selected ==> IsSubsequence(r, selected)
  {
    if skill in selected then
      var r := Filter(selected, (s: string) => s != skill);
      assert NoDup(selected) ==> NoDup(r) by {
        if NoDup(selected) { FilterNoDup(selected, (s: string) => s != skill); }
      }
      FilterIsSubsequence(selected, (s: string) => s != skill);
      r
    else
      selected + [skill]
  }

  /** Ticking an unticked skill and unticking it again restores the list exactly. */
  lemma ToggleTwiceRestores(selected: seq<string>, skill: string)
    requires skill !in selected
    ensures ToggleSkill(ToggleSkill(selected, skill), skill) == selected
  {
    var ne := (s: string) => s != skill;
    FilterAppend(selected, [skill], ne);
    FilterKeepsAll(selected, ne);
  }

  /** The total of the listed scores (`reduce((sum, c) => sum + c.score, 0)`). */
  function SumScores(cs: seq<Candidate>): int
  {
    if cs == [] then 0 else cs[0].score + SumScores(cs[1..])
  }

  /**
   * The "Avg. Score" statistic: 0 for an empty list, otherwise
   * `Math.round(sum / n)`, the integer nearest the mean with halves
   * rounded up.
   */
  function AverageScore(cs: seq<Candidate>): (r: int)
    ensures cs == [] ==> r == 0
    ensures cs != [] ==> 2 * SumScores(cs) - |cs| < 2 * |cs| * r <= 2 * SumScores(cs) + |cs|
  {
    if |cs| == 0 then 0
    else
      var n := |cs|;
      var num, den := 2 * SumScores(cs) + n, 2 * n;
      var r := num / den;
      assert den * r + num % den == num && 0 <= num % den < den;
      r
  }

  /** Scores between `lo` and `hi` add up to between `n * lo` and `n * hi`. */
  lemma {:induction false} SumBounds(cs: seq<Candidate>, lo: int, hi: int)
    requires forall k :: 0 <= k < |cs| ==> lo <= cs[k].score <= hi
    ensures |cs| * lo <= SumScores(cs) <= |cs| * hi
  {
    if cs != [] {
      SumBounds(cs[1..], lo, hi);
      assert |cs| * lo == lo + (|cs| - 1) * lo;
      assert |cs| * hi == hi + (|cs| - 1) * hi;
    }
  }

  /** The average lies between the lowest and the highest listed score. */
  lemma AverageBetween(cs: seq<Candidate>, lo: int, hi: int)
    requires cs != []
    requires forall k :: 0 <= k < |cs| ==> lo <= cs[k].score <= hi
    ensures lo <= AverageScore(cs) <= hi
  {
    var n, s, r := |cs|, SumScores(cs), AverageScore(cs);
    SumBounds(cs, lo, hi);
    RoundedAtLeast(n, s, r, lo);
    RoundedAtMost(n, s, r, hi);
  }

  /** A mean rounded to the nearest integer is no smaller than a lower bound of the values. */
  lemma RoundedAtLeast(n: int, s: int, r: int, lo: int)
    requires n > 0 && n * lo <= s && 2 * s - n < 2 * n * r
    ensures lo <= r
  {
    assert 2 * n * (lo - 1) < 2 * n * r by {
      assert 2 * n * (lo - 1) == 2 * (n * lo) - 2 * n;
    }
    if r < lo {
      MulMonotone(2 * n, r, lo - 1);
    }
  }

  /** A mean rounded to the nearest integer is no larger than an upper bound of the values. */
  lemma RoundedAtMost(n: int, s: int, r: int, hi: int)
    requires n > 0 && s <= n * hi && 2 * n * r <= 2 * s + n
    ensures r <= hi
  {
    assert 2 * n * r < 2 * n * (hi + 1) by {
      assert 2 * n * (hi + 1) == 2 * (n * hi) + 2 * n;
    }
    if r > hi {
      MulMonotone(2 * n, hi + 1, r);
    }
  }

  /** Multiplying by a non-negative factor keeps an inequality. */
  lemma MulMonotone(m: int, a: int, b: int)
    requires m >= 0 && a <= b
    ensures m * a <= m * b
  {
    assert m * b - m * a == m * (b - a);
  }

  /** The role form's fields. */
  datatype RoleData = RoleData(title: string, skills: string, minScore: int)

  /** The form's empty state. */
  const EmptyRole := RoleData("", "", 80)

  /** The demo's state: the filters, the role form and its confirmation banner. */
  class RecruiterDemo {
    const candidates: seq<Candidate>
    var selectedSkills: seq<string>
    var minScore: int
    var selectedLocation: string
    var showRoleForm: bool
    var roleData: RoleData
    var showConfirmation: bool

    constructor (candidates: seq<Candidate>)
      ensures this.candidates == candidates
      ensures Filters() == InitialFilters
      ensures !showRoleForm && !showConfirmation && roleData == EmptyRole
    {
      this.candidates := candidates;
      selectedSkills, minScore, selectedLocation := [], 70, "all";
      showRoleForm, roleData, showConfirmation := false, EmptyRole, false;
    }

    function Filters(): CandidateFilters
      reads this
    {
      CandidateFilters(selectedSkills, minScore, selectedLocation)
    }

    /** The grid's candidates and the "Filtered Results" count. */
    function Listed(): seq<Candidate>
      reads this
    {
      FilterCandidates(candidates, Filters())
    }

    /** The "Avg. Score" shown beside the grid. */
    function ListedAverage(): int
      reads this
    {
      AverageScore(Listed())
    }

    /** `handleSkillToggle`: the checkbox list keeps no skill twice. */
    method HandleSkillToggle(skill: string)
      requires NoDup(selectedSkills)
      modifies this`selectedSkills
      ensures selectedSkills == ToggleSkill(old(selectedSkills), skill)
      ensures NoDup(selectedSkills)
      ensures skill in selectedSkills <==> skill !in old(selectedSkills)
    {
      selectedSkills := ToggleSkill(selectedSkills, skill);
    }

    method SetMinScore(score: int)
      modifies this`minScore
      ensures minScore == score
    {
      minScore := score;
    }

    method SetLocation(location: string)
      modifies this`selectedLocation
      ensures selectedLocation == location
    {
      selectedLocation := location;
    }

    /** "Post a Role" opens the form; "Cancel" closes it. */
    method SetShowRoleForm(show: bool)
      modifies this`showRoleForm
      ensures showRoleForm == show
    {
      showRoleForm := show;
    }

    /** Typing into the form replaces its fields. */
    method EditRole(data: RoleData)
      modifies this`roleData
      ensures roleData == data
    {
      roleData := data;
    }

    /**
     * `handleRoleSubmit`: a title that is blank after trimming changes
     * nothing; otherwise the form closes, the confirmation shows and the
     * fields are emptied.
     */
    method HandleRoleSubmit()
      modifies this`showRoleForm, this`showConfirmation, this`roleData
      ensures Blank(old(roleData.title)) ==>
        showRoleForm == old(showRoleForm) && showConfirmation == old(showConfirmation) && roleData == old(roleData)
      ensures !Blank(old(roleData.title)) ==>
        !showRoleForm && showConfirmation && roleData == EmptyRole
    {
      if Trim(roleData.title) == "" {
        return;
      }
      showRoleForm := false;
      showConfirmation := true;
      roleData := EmptyRole;
    }

    /** The timer scheduled by a successful submit hides the confirmation. */
    method ConfirmationTimeout()
      modifies this`showConfirmation
      ensures !showConfirmation
    {
      showConfirmation := false;
    }
  }
}
