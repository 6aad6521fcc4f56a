/**
 * The profile explorer: a search box, a skill-category chip row, and
 * location and college pickers that together filter the profile grid.
 */
module Explore {
  import opened Text
  import opened Seqs

  datatype Profile = Profile(
    id: int,
    name: string,
    role: string,
    college: string,
    location: string,
    skills: seq<string>)

  /** The four filter inputs: search term, skill category id, location and college. */
  datatype Filters = Filters(searchTerm: string, activeSkillFilter: string, locationFilter: string, collegeFilter: string)

  /** The filters' initial values, which impose no constraint. */
  const DefaultFilters := Filters("", "all", "", "")

  /** The category ids the switch knows, besides "all". */
  const KnownCategories: set<string> :=
    {"ai-ml", "fullstack", "frontend", "backend", "design", "mobile", "devops", "data", "security", "blockchain", "game"}

  /** The search box: empty, or the lowercased term occurs in the name, college, location, role or some skill. */
  predicate SearchMatch(p: Profile, term: string)
  {
    var t := ToLower(term);
    term == ""
    || Includes(ToLower(p.name), t)
    || Includes(ToLower(p.college), t)
    || Includes(ToLower(p.location), t)
    || Includes(ToLower(p.role), t)
    || exists k | 0 <= k < |p.skills| :: Includes(ToLower(p.skills[k]), t)
  }

  /**
   * The keyword test of one category for one lowercased skill and the
   * lowercased role; an id the switch does not know matches nothing.
   */
  predicate CategoryKeyword(category: string, skill: string, role: string)
  {
    if category == "ai-ml" then
      Includes(skill, "ai") || Includes(skill, "ml") || Includes(skill, "machine learning") || Includes(skill, "tensorflow")
      || Includes(skill, "pytorch") || Includes(role, "ai") || Includes(skill, "computer vision") || Includes(skill, "nlp")
    else if category == "fullstack" then
      Includes(skill, "fullstack") || Includes(skill, "full-stack") || Includes(skill, "full stack") || Includes(role, "full-stack")
    else if category == "frontend" then
      Includes(skill, "react") || Includes(skill, "vue") || Includes(skill, "angular") || Includes(skill, "frontend")
      || Includes(skill, "javascript") || Includes(skill, "css") || Includes(role, "frontend")
    else if category == "backend" then
      Includes(skill, "node") || Includes(skill, "python") || Includes(skill, "backend") || Includes(skill, "api")
      || Includes(skill, "server") || Includes(role, "backend")
    else if category == "design" then
      Includes(skill, "design") || Includes(skill, "ui") || Includes(skill, "ux") || Includes(skill, "figma")
      || Includes(role, "designer") || Includes(skill, "prototyping")
    else if category == "mobile" then
      Includes(skill, "mobile") || Includes(skill, "ios") || Includes(skill, "android") || Includes(skill, "flutter")
      || Includes(skill, "react native") || Includes(skill, "swift") || Includes(skill, "kotlin") || Includes(role, "mobile")
    else if category == "devops" then
      Includes(skill, "devops") || Includes(skill, "docker") || Includes(skill, "kubernetes") || Includes(skill, "aws")
      || Includes(skill, "cloud") || Includes(skill, "terraform") || Includes(role, "devops")
    else if category == "data" then
      Includes(skill, "data") || Includes(skill, "analytics") || Includes(skill, "sql") || Includes(skill, "pandas")
      || Includes(skill, "tableau") || Includes(role, "data scientist") || Includes(skill, "machine learning")
    else if category == "security" then
      Includes(skill, "security") || Includes(skill, "cybersecurity") || Includes(skill, "penetration") || Includes(role, "security")
    else if category == "blockchain" then
      Includes(skill, "blockchain") || Includes(skill, "solidity") || Includes(skill, "web3") || Includes(skill, "smart contracts")
      || Includes(skill, "defi") || Includes(role, "blockchain")
    else if category == "game" then
      Includes(skill, "unity") || Includes(skill, "game") || Includes(skill, "graphics") || Includes(role, "game developer")
      || Includes(skill, "c++")
    else
      false
  }

  /** The category chip: "all", or some skill passes the category's keyword test (the role is only consulted per skill). */
  predicate SkillMatch(p: Profile, category: string)
  {
    category == "all"
    || exists k | 0 <= k < |p.skills| :: CategoryKeyword(category, ToLower(p.skills[k]), ToLower(p.role))
  }

  /** The location picker: empty, or exactly the profile's location. */
  predicate LocationMatch(p: Profile, location: string)
  {
    location == "" || p.location == location
  }

  /** The college picker: empty, or exactly the profile's college. */
  predicate CollegeMatch(p: Profile, college: string)
  {
    college == "" || p.college == college
  }

  /** A profile is shown when all four filters accept it. */
  predicate Matches(p: Profile, f: Filters)
  {
    SearchMatch(p, f.searchTerm) && SkillMatch(p, f.activeSkillFilter)
    && LocationMatch(p, f.locationFilter) && CollegeMatch(p, f.collegeFilter)
  }

  /** The filter callback of `filteredProfiles` for the given filter values. */
  function Accepts(f: Filters): Profile -> bool
  {
    (p: Profile) => Matches(p, f)
  }

  /** `filteredProfiles`: the profiles every filter accepts. */
  function FilterProfiles(profiles: seq<Profile>, f: Filters): (r: seq<Profile>)
    ensures forall p :: p in r <==> p in profiles && Matches(p, f)
  {
    Filter(profiles, Accepts(f))
  }

  /** The grid shows profiles in their original order, never invented ones. */
  lemma FilteredIsSubsequence(profiles: seq<Profile>, f: Filters)
    ensures IsSubsequence(FilterProfiles(profiles, f), profiles)
  {
    FilterIsSubsequence(profiles, Accepts(f));
  }

  /** With every filter at its default the whole list is shown. */
  lemma DefaultsShowEverything(profiles: seq<Profile>)
    ensures FilterProfiles(profiles, DefaultFilters) == profiles
  {
    FilterKeepsAll(profiles, Accepts(DefaultFilters));
  }

  /** The filter is the conjunction of four independent one-filter tests. */
  lemma MatchesIsConjunction(p: Profile, f: Filters)
    ensures Matches(p, f) <==>
      Matches(p, DefaultFilters.(searchTerm := f.searchTerm))
      && Matches(p, DefaultFilters.(activeSkillFilter := f.activeSkillFilter))
      && Matches(p, DefaultFilters.(locationFilter := f.locationFilter))
      && Matches(p, DefaultFilters.(collegeFilter := f.collegeFilter))
  {
  }

  /**
   * Setting any one filter from its default to some value never adds a
   * profile: the result is a subsequence of the result with that filter
   * at its default.
   */
  lemma TighteningNeverAdds(profiles: seq<Profile>, f: Filters)
    ensures IsSubsequence(FilterProfiles(profiles, f), FilterProfiles(profiles, f.(searchTerm := "")))
    ensures IsSubsequence(FilterProfiles(profiles, f), FilterProfiles(profiles, f.(activeSkillFilter := "all")))
    ensures IsSubsequence(FilterProfiles(profiles, f), FilterProfiles(profiles, f.(locationFilter := "")))
    ensures IsSubsequence(FilterProfiles(profiles, f), FilterProfiles(profiles, f.(collegeFilter := "")))
  {
    FilterStronger(profiles, Accepts(f), Accepts(f.(searchTerm := "")));
    FilterStronger(profiles, Accepts(f), Accepts(f.(activeSkillFilter := "all")));
    FilterStronger(profiles, Accepts(f), Accepts(f.(locationFilter := "")));
    FilterStronger(profiles, Accepts(f), Accepts(f.(collegeFilter := "")));
  }

  /**
   * A category other than "all" never accepts a profile without skills,
   * even one whose role names the category: the role is only looked at
   * inside the per-skill test.
   */
  lemma NoSkillsNoCategory(p: Profile, f: Filters)
    requires p.skills == [] && f.activeSkillFilter != "all"
    ensures !Matches(p, f)
  {
  }

  /** A category id the switch does not know hides every profile. */
  lemma UnknownCategoryHidesAll(profiles: seq<Profile>, f: Filters)
    requires f.activeSkillFilter != "all" && f.activeSkillFilter !in KnownCategories
    ensures FilterProfiles(profiles, f) == []
  {
    forall k | 0 <= k < |profiles| ensures !Accepts(f)(profiles[k]) {
      forall j | 0 <= j < |profiles[k].skills|
        ensures !CategoryKeyword(f.activeSkillFilter, ToLower(profiles[k].skills[j]), ToLower(profiles[k].role))
      {
        UnknownCategoryMatchesNothing(f.activeSkillFilter, ToLower(profiles[k].skills[j]), ToLower(profiles[k].role));
      }
    }
    FilterKeepsNone(profiles, Accepts(f));
  }

  lemma UnknownCategoryMatchesNothing(category: string, skill: string, role: string)
    requires category !in KnownCategories
    ensures !CategoryKeyword(category, skill, role)
  {
  }

  /** A selected location or college keeps exactly the profiles with that exact value. */
  lemma PickersAreExactMatch(p: Profile, f: Filters)
    requires f.locationFilter != "" && f.collegeFilter != ""
    ensures Matches(p, f) ==> p.location == f.locationFilter && p.college == f.collegeFilter
    ensures (SearchMatch(p, f.searchTerm) && SkillMatch(p, f.activeSkillFilter)
             && p.location == f.locationFilter && p.college == f.collegeFilter) ==> Matches(p, f)
  {
  }

  // ---- Sorted, duplicate-free option lists -------------------------------------------------

  /** JavaScript's default string order: lexicographic on characters. */
  predicate StrLt(a: string, b: string)
  {
    b != [] && (a == [] || a[0] < b[0] || (a[0] == b[0] && StrLt(a[1..], b[1..])))
  }

  lemma {:induction false} StrLtIrreflexive(a: string)
    ensures !StrLt(a, a)
  {
    if a != [] {
      StrLtIrreflexive(a[1..]);
    }
  }

  lemma {:induction false} StrLtTransitive(a: string, b: string, c: string)
    requires StrLt(a, b) && StrLt(b, c)
    ensures StrLt(a, c)
  {
    if a != [] && a[0] == b[0] && b[0] == c[0] {
      StrLtTransitive(a[1..], b[1..], c[1..]);
    }
  }

  lemma {:induction false} StrLtTotal(a: string, b: string)
    requires a != b
    ensures StrLt(a, b) || StrLt(b, a)
  {
    if a != [] && b != [] && a[0] == b[0] {
      assert a == [a[0]] + a[1..] && b == [b[0]] + b[1..];
      StrLtTotal(a[1..], b[1..]);
    }
  }

  /** Every element is strictly below every later one. */
  ghost predicate StrictlySorted(s: seq<string>)
  {
    forall i, j :: 0 <= i < j < |s| ==> StrLt(s[i], s[j])
  }

  /** One insertion step of the sort: `x` goes in front of the first element above it. */
  function Insert(x: string, s: seq<string>): (r: seq<string>)
    ensures multiset(r) == multiset(s) + multiset{x}
  {
    if s == [] || StrLt(x, s[0]) then [x] + s
    else
      assert s == [s[0]] + s[1..];
      [s[0]] + Insert(x, s[1..])
  }

  /** Inserting a string that a strictly sorted list does not hold keeps it strictly sorted. */
  lemma {:induction false} InsertKeepsSorted(x: string, s: seq<string>)
    requires StrictlySorted(s) && x !in s
    ensures StrictlySorted(Insert(x, s))
  {
    if s == [] || StrLt(x, s[0]) {
      if s != [] {
        forall j | 0 < j < |s| ensures StrLt(x, s[j]) {
          StrLtTransitive(x, s[0], s[j]);
        }
      }
    } else {
      var rest := Insert(x, s[1..]);
      InsertKeepsSorted(x, s[1..]);
      StrLtTotal(x, s[0]);
      assert forall y :: y in rest ==> y == x || y in s[1..] by {
        assert forall y :: y in rest <==> y in multiset(rest);
      }
      forall k | 0 <= k < |rest| ensures StrLt(s[0], rest[k]) {
        assert rest[k] in rest;
      }
      assert Insert(x, s) == [s[0]] + rest;
    }
  }

  /** `values.sort()` by insertion; on a list without repetitions the result is strictly ascending. */
  function SortStrings(s: seq<string>): (r: seq<string>)
    ensures multiset(r) == multiset(s)
    ensures NoDup(s) ==> StrictlySorted(r)
  {
    if s == [] then []
    else
      var rest := SortStrings(s[1..]);
      assert s == [s[0]] + s[1..];
      assert NoDup(s) ==> StrictlySorted(Insert(s[0], rest)) by {
        if NoDup(s) {
          assert s[0] !in multiset(s[1..]);
          InsertKeepsSorted(s[0], rest);
        }
      }
      Insert(s[0], rest)
  }

  /** `Array.from(new Set(values)).sort()`: each value once, ascending. */
  function UniqueSorted(values: seq<string>): (r: seq<string>)
    ensures StrictlySorted(r)
    ensures NoDup(r)
    ensures forall v :: v in r <==> v in values
  {
    var d := Dedup(values);
    var r := SortStrings(d);
    assert forall v :: v in r <==> v in d by {
      assert forall v :: v in r <==> v in multiset(r);
    }
    assert NoDup(r) by {
      forall i, j | 0 <= i < j < |r| ensures r[i] != r[j] {
        if r[i] == r[j] { StrLtIrreflexive(r[i]); }
      }
    }
    r
  }

  /** `uniqueLocations`: each location that some profile has, once, ascending. */
  function UniqueLocations(profiles: seq<Profile>): (r: seq<string>)
    ensures StrictlySorted(r) && NoDup(r)
    ensures forall v :: v in r <==> exists k | 0 <= k < |profiles| :: profiles[k].location == v
  {
    var locations := seq(|profiles|, k requires 0 <= k < |profiles| => profiles[k].location);
    forall v ensures v in locations <==> exists k | 0 <= k < |profiles| :: profiles[k].location == v {
      if exists k | 0 <= k < |profiles| :: profiles[k].location == v {
        var k :| 0 <= k < |profiles| && profiles[k].location == v;
        assert locations[k] == v;
      }
      if v in locations {
        var k :| 0 <= k < |locations| && locations[k] == v;
        assert profiles[k].location == v;
      }
    }
    UniqueSorted(locations)
  }

  /** `uniqueColleges`: each college that some profile has, once, ascending. */
  function UniqueColleges(profiles: seq<Profile>): (r: seq<string>)
    ensures StrictlySorted(r) && NoDup(r)
    ensures forall v :: v in r <==> exists k | 0 <= k < |profiles| :: profiles[k].college == v
  {
    var colleges := seq(|profiles|, k requires 0 <= k < |profiles| => profiles[k].college);
    forall v ensures v in colleges <==> exists k | 0 <= k < |profiles| :: profiles[k].college == v {
      if exists k | 0 <= k < |profiles| :: profiles[k].college == v {
        var k :| 0 <= k < |profiles| && profiles[k].college == v;
        assert colleges[k] == v;
      }
      if v in colleges {
        var k :| 0 <= k < |colleges| && colleges[k] == v;
        assert profiles[k].college == v;
      }
    }
    UniqueSorted(colleges)
  }

  // ---- The page state -----------------------------------------------------------------------

  /** The explorer's filter state over a fixed list of profiles. */
  class ExploreView {
    const profiles: seq<Profile>
    var searchTerm: string
    var activeSkillFilter: string
    var locationFilter: string
    var collegeFilter: string

    constructor (profiles: seq<Profile>)
      ensures this.profiles == profiles && Current() == DefaultFilters
    {
      this.profiles := profiles;
      searchTerm, activeSkillFilter, locationFilter, collegeFilter := "", "all", "", "";
    }

    function Current(): Filters
      reads this
    {
      Filters(searchTerm, activeSkillFilter, locationFilter, collegeFilter)
    }

    /** The profiles the grid shows now. */
    function Visible(): seq<Profile>
      reads this
    {
      FilterProfiles(profiles, Current())
    }

    /** The "Clear Filters" button is shown exactly when some filter is away from its default. */
    predicate ShowClearButton()
      reads this
      ensures ShowClearButton() <==> Current() != DefaultFilters
    {
      searchTerm != "" || activeSkillFilter != "all" || locationFilter != "" || collegeFilter != ""
    }

    method SetSearchTerm(term: string)
      modifies this
      ensures Current() == old(Current()).(searchTerm := term)
    {
      searchTerm := term;
    }

    method SetSkillFilter(category: string)
      modifies this
      ensures Current() == old(Current()).(activeSkillFilter := category)
    {
      activeSkillFilter := category;
    }

    method SetLocationFilter(location: string)
      modifies this
      ensures Current() == old(Current()).(locationFilter := location)
    {
      locationFilter := location;
    }

    method SetCollegeFilter(college: string)
      modifies this
      ensures Current() == old(Current()).(collegeFilter := college)
    {
      collegeFilter := college;
    }

    /** `clearFilters`: all four filters back to their defaults, so every profile shows and the button hides. */
    method ClearFilters()
      modifies this
      ensures Current() == DefaultFilters
      ensures Visible() == profiles
      ensures !ShowClearButton()
    {
      searchTerm := "";
      activeSkillFilter := "all";
      locationFilter := "";
      collegeFilter := "";
      DefaultsShowEverything(profiles);
    }
  }
}
