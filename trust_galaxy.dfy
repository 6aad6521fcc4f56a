/**
 * The testimonial galaxy: the skill filter bar built from every
 * testimonial's skills, the selected-skill toggle, the highlight and dim
 * rules on the orbiting cards, and the orbit geometry.
 */
module TrustGalaxy {
  import opened Wrappers
  import opened Text
  import opened Seqs

  datatype Testimonial = Testimonial(id: string, name: string, role: string, company: string,
                                     skills: seq<string>, quote: string, rating: int)

  /** `testimonials.flatMap(t => t.skills)`: every skill of every testimonial, in order. */
  function FlatSkills(ts: seq<Testimonial>): (r: seq<string>)
    ensures forall s :: s in r <==> exists k :: 0 <= k < |ts| && s in ts[k].skills
  {
    if ts == [] then []
    else
      var rest := FlatSkills(ts[1..]);
      assert forall s :: (exists k :: 0 <= k < |ts| && s in ts[k].skills) <==>
                        s in ts[0].skills || exists k :: 0 <= k < |ts[1..]| && s in ts[1..][k].skills by {
        forall s | exists k :: 0 <= k < |ts| && s in ts[k].skills
          ensures s in ts[0].skills || exists k :: 0 <= k < |ts[1..]| && s in ts[1..][k].skills
        {
          var k :| 0 <= k < |ts| && s in ts[k].skills;
          if k > 0 { assert ts[1..][k - 1] == ts[k]; }
        }
      }
      ts[0].skills + rest
  }

  /** `allSkills`: each skill once, in the order of its first appearance. */
  function AllSkills(ts: seq<Testimonial>): (r: seq<string>)
    ensures NoDup(r)
    ensures forall s :: s in r <==> exists k :: 0 <= k < |ts| && s in ts[k].skills
  {
    Dedup(FlatSkills(ts))
  }

  /** A skill listed earlier in `allSkills` first appears earlier in the flattened skills. */
  lemma AllSkillsFirstOccurrence(ts: seq<Testimonial>)
    ensures forall i, j :: 0 <= i < j < |AllSkills(ts)| ==>
      FirstIndex(FlatSkills(ts), AllSkills(ts)[i]) < FirstIndex(FlatSkills(ts), AllSkills(ts)[j])
  {
    DedupFirstOccurrenceOrder(FlatSkills(ts));
  }

  /** The filter bar offers the first eight entries of `allSkills`, or all of them when there are fewer. */
  function FilterBarSkills(ts: seq<Testimonial>): (r: seq<string>)
    ensures |r| <= 8 && |r| <= |AllSkills(ts)| && r == AllSkills(ts)[..|r|]
    ensures |AllSkills(ts)| <= 8 ==> r == AllSkills(ts)
    ensures NoDup(r)
  {
    Take(AllSkills(ts), 8)
  }

  /** A selection acts only when it is a non-empty string (JavaScript truthiness of `string | null`). */
  predicate Truthy(selected: Option<string>)
  {
    selected.Some? && selected.value != ""
  }

  function HasSkill(skill: string): Testimonial -> bool
  {
    (t: Testimonial) => skill in t.skills
  }

  /** `filteredTestimonials`: all of them with no selection, otherwise those listing the selected skill. */
  function FilterTestimonials(ts: seq<Testimonial>, selected: Option<string>): (r: seq<Testimonial>)
    ensures !Truthy(selected) ==> r == ts
    ensures Truthy(selected) ==> forall t :: t in r <==> t in ts && selected.value in t.skills
  {
    if Truthy(selected) then Filter(ts, HasSkill(selected.value)) else ts
  }

  /** The filtered list keeps the original order. */
  lemma FilteredTestimonialsSubsequence(ts: seq<Testimonial>, selected: Option<string>)
    ensures IsSubsequence(FilterTestimonials(ts, selected), ts)
  {
    if Truthy(selected) {
      FilterIsSubsequence(ts, HasSkill(selected.value));
    } else {
      SubsequenceRefl(ts);
    }
  }

  /** `handleSkillClick`'s update: clicking the selected skill clears the selection, any other click selects that skill. */
  function NextSelection(selected: Option<string>, skill: string): (r: Option<string>)
    ensures r == None <==> selected == Some(skill)
    ensures r != None ==> r == Some(skill)
  {
    if selected == Some(skill) then None else Some(skill)
  }

  /**
   * Two clicks on the same skill restore a selection of that skill, and
   * otherwise end with nothing selected; in particular from no selection
   * they return to no selection.
   */
  lemma TwoClicks(selected: Option<string>, skill: string)
    ensures selected == Some(skill) ==> NextSelection(NextSelection(selected, skill), skill) == selected
    ensures selected != Some(skill) ==> NextSelection(NextSelection(selected, skill), skill) == None
  {
  }

  /** `shouldHighlight`: false with no selection, otherwise whether the card lists the selected skill. */
  function ShouldHighlight(t: Testimonial, selected: Option<string>): (r: bool)
    ensures r <==> Truthy(selected) && selected.value in t.skills
  {
    if Truthy(selected) then selected.value in t.skills else false
  }

  /** A card is dimmed when a skill is selected and the card is not highlighted. */
  predicate IsDimmed(t: Testimonial, selected: Option<string>)
  {
    Truthy(selected) && !ShouldHighlight(t, selected)
  }

  /**
   * While a skill is selected, the highlighted cards are exactly the
   * filtered testimonials and the dimmed cards exactly the others; with
   * no selection no card is highlighted or dimmed.
   */
  lemma HighlightMatchesFilter(ts: seq<Testimonial>, selected: Option<string>, t: Testimonial)
    requires t in ts
    ensures Truthy(selected) ==> (ShouldHighlight(t, selected) <==> t in FilterTestimonials(ts, selected))
    ensures Truthy(selected) ==> (IsDimmed(t, selected) <==> t !in FilterTestimonials(ts, selected))
    ensures !Truthy(selected) ==> !ShouldHighlight(t, selected) && !IsDimmed(t, selected)
  {
  }

  /** The radius of the card's orbit, in pixels. */
  function OrbitRadius(index: int): int
  {
    120 + index * 30
  }

  /** The time of one revolution, in seconds. */
  function OrbitDuration(index: int): int
  {
    20 + index * 5
  }

  /** Outer cards orbit farther out and more slowly, and the radius grows six pixels per extra second. */
  lemma OrbitsGrow(i: int, j: int)
    requires 0 <= i < j
    ensures OrbitRadius(i) < OrbitRadius(j)
    ensures OrbitDuration(i) < OrbitDuration(j)
    ensures OrbitRadius(j) - OrbitRadius(i) == 6 * (OrbitDuration(j) - OrbitDuration(i))
  {
  }

  /** The results summary: "expert" pluralised unless exactly one testimonial is shown. */
  function ExpertLabel(ts: seq<Testimonial>, selected: Option<string>): (r: string)
    ensures r == "expert" <==> |FilterTestimonials(ts, selected)| == 1
  {
    Plural("expert", |FilterTestimonials(ts, selected)|)
  }

  /** The galaxy's selected skill. */
  class SkillFilter {
    var selectedSkill: Option<string>

    constructor ()
      ensures selectedSkill == None
    {
      selectedSkill := None;
    }

    /** `handleSkillClick`. */
    method HandleSkillClick(skill: string)
      modifies this
      ensures selectedSkill == NextSelection(old(selectedSkill), skill)
      ensures selectedSkill == None <==> old(selectedSkill) == Some(skill)
    {
      selectedSkill := if selectedSkill == Some(skill) then None else Some(skill);
    }

    /** The "All" button. */
    method SelectAll()
      modifies this
      ensures selectedSkill == None
    {
      selectedSkill := None;
    }

    /** The "All" button is drawn as active exactly when nothing is selected. */
    predicate AllActive()
      reads this
    {
      selectedSkill == None
    }

    /** The results summary line shows only while a skill is selected. */
    predicate ShowSummary()
      reads this
    {
      Truthy(selectedSkill)
    }
  }
}
