/**
 * The skills page: the skill catalogue, the category / search / sort
 * selection (`filteredSkills`), the per-category grids with their card
 * indices, and the button and badge labels.
 */
module Skills {
  import opened Wrappers
  import opened Text

  datatype Skill = Skill(name: string, proficiency: int, experience: int, tags: seq<string>, color: string)

  /** The four groups of the catalogue, in the order their keys are declared. */
  datatype Category = Frontend | Backend | Tools | Soft {

    function Key(): string {
      match this
      case Frontend => "frontend"
      case Backend => "backend"
      case Tools => "tools"
      case Soft => "soft"
    }

    function Skills(): seq<Skill> {
      match this
      case Frontend => FrontendSkills
      case Backend => BackendSkills
      case Tools => ToolsSkills
      case Soft => SoftSkills
    }
  }

  const FrontendSkills: seq<Skill> := [
      Skill("React", 90, 2, ["Hooks", "JSX", "State Management"], "primary"),
      Skill("HTML", 95, 2, ["Semantic HTML", "Accessibility", "Forms"], "primary"),
      Skill("CSS3", 92, 2, ["Flexbox", "Grid", "Animations"], "primary"),
      Skill("JavaScript", 88, 2, ["ES6+", "DOM", "APIs"], "warning"),
      Skill("Tailwind CSS", 85, 1, ["Utilities", "Components", "Responsive"], "accent"),
      Skill("Bootstrap", 80, 1, ["Grid System", "Components", "Responsive"], "secondary")
  ]

  const BackendSkills: seq<Skill> := [
      Skill("Python", 75, 1, ["FastAPI", "Django", "APIs"], "success"),
      Skill("Node.js", 70, 1, ["Express.js", "NPM", "APIs"], "success"),
      Skill("MySQL", 80, 2, ["Queries", "Schema Design", "Optimization"], "secondary"),
      Skill("SQL", 85, 2, ["Complex Queries", "Joins", "Stored Procedures"], "secondary"),
      Skill("PHP", 75, 1, ["MVC", "APIs", "Frameworks"], "warning"),
      Skill("FastAPI", 70, 1, ["REST APIs", "Async", "OpenAPI"], "success"),
      Skill("PostgreSQL", 65, 1, ["ACID", "JSON", "Performance"], "accent"),
      Skill("MongoDB", 60, 1, ["Documents", "Aggregation", "Atlas"], "warning")
  ]

  const ToolsSkills: seq<Skill> := [
      Skill("JIRA", 85, 1, ["Scrum", "Kanban", "Reporting"], "primary"),
      Skill("VS Code", 90, 2, ["Extensions", "Debugging", "IntelliSense"], "primary"),
      Skill("Visual Studio", 75, 1, ["Debugging", "NuGet", ".NET"], "secondary"),
      Skill("Git", 85, 2, ["Branching", "Merging", "Workflows"], "accent"),
      Skill("GitHub", 85, 2, ["Pull Requests", "Issues", "Actions"], "primary"),
      Skill("Postman", 80, 1, ["API Testing", "Collections", "Environment"], "warning"),
      Skill("XAMPP", 75, 1, ["Apache", "MySQL", "PHP"], "accent")
  ]

  const SoftSkills: seq<Skill> := [
      Skill("Problem Solving", 90, 2, [], "primary"),
      Skill("Communication", 85, 2, [], "secondary"),
      Skill("Time Management", 88, 2, [], "accent"),
      Skill("Adaptability", 92, 2, [], "warning"),
      Skill("Leadership", 80, 1, [], "success")
  ]

  /** `Object.values(skills)`: the groups in declaration order. */
  const Catalog: seq<Category> := [Frontend, Backend, Tools, Soft]

  /** `skills[key]`: the group stored under `key`, if any. */
  function CategoryNamed(key: string): (r: Option<Category>)
    ensures r.Some? ==> r.value.Key() == key
    ensures r.None? ==> forall c: Category :: c.Key() != key
  {
    if key == "frontend" then Some(Frontend)
    else if key == "backend" then Some(Backend)
    else if key == "tools" then Some(Tools)
    else if key == "soft" then Some(Soft)
    else None
  }

  /** The concatenation of the first `k` groups. */
  function ConcatUpTo(k: nat): seq<Skill>
    requires k <= |Catalog|
  {
    if k == 0 then [] else ConcatUpTo(k - 1) + Catalog[k - 1].Skills()
  }

  function AllSkills(): seq<Skill> {
    ConcatUpTo(|Catalog|)
  }

  /** With the category `all`, the list is every group in order: frontend, backend, tools, soft. */
  lemma AllSkillsInOrder()
    ensures AllSkills() == FrontendSkills + BackendSkills + ToolsSkills + SoftSkills
  {
    assert ConcatUpTo(1) == FrontendSkills;
    assert ConcatUpTo(2) == FrontendSkills + BackendSkills;
    assert ConcatUpTo(3) == FrontendSkills + BackendSkills + ToolsSkills;
  }

  /** The list before searching: every group for `all`, one group for its key, nothing for any other name. */
  function Chosen(activeCategory: string): (r: seq<Skill>)
    ensures activeCategory == "all" ==> r == FrontendSkills + BackendSkills + ToolsSkills + SoftSkills
    ensures forall c: Category :: activeCategory == c.Key() ==> r == c.Skills()
    ensures activeCategory != "all" && CategoryNamed(activeCategory).None? ==> r == []
  {
    if activeCategory == "all" then
      AllSkillsInOrder();
      AllSkills()
    else
      match CategoryNamed(activeCategory)
      case Some(c) => c.Skills()
      case None => []
  }

  /** Case-insensitive `includes` of the search term in the skill's name. */
  predicate NameMatches(skill: Skill, term: string) {
    Contains(Lower(skill.name), Lower(term))
  }

  /** Case-insensitive `includes` of the search term in one of the skill's tags. */
  predicate TagMatches(skill: Skill, term: string) {
    exists tag :: tag in skill.tags && Contains(Lower(tag), Lower(term))
  }

  /** The search filter's test: the name, or when `withTags` also a tag, contains the term. */
  predicate Hit(skill: Skill, term: string, withTags: bool) {
    NameMatches(skill, term) || (withTags && TagMatches(skill, term))
  }

  /** `Array.prototype.filter` with that test. */
  function Keep(s: seq<Skill>, term: string, withTags: bool): (r: seq<Skill>)
    ensures |r| <= |s|
  {
    if s == [] then []
    else if Hit(s[0], term, withTags) then [s[0]] + Keep(s[1..], term, withTags)
    else Keep(s[1..], term, withTags)
  }

  /** The filter keeps every copy of a hitting skill and no copy of any other, in order. */
  lemma {:induction false} KeepCounts(s: seq<Skill>, term: string, withTags: bool, x: Skill)
    ensures multiset(Keep(s, term, withTags))[x] == if Hit(x, term, withTags) then multiset(s)[x] else 0
  {
    if s != [] {
      KeepCounts(s[1..], term, withTags, x);
      assert s == [s[0]] + s[1..];
    }
  }

  lemma KeepMembership(s: seq<Skill>, term: string, withTags: bool, x: Skill)
    ensures x in Keep(s, term, withTags) <==> x in s && Hit(x, term, withTags)
  {
    KeepCounts(s, term, withTags, x);
    assert x in s <==> multiset(s)[x] > 0;
    assert x in Keep(s, term, withTags) <==> multiset(Keep(s, term, withTags))[x] > 0;
  }

  /** `KeepMembership` for every skill at once. */
  lemma KeepMembers(s: seq<Skill>, term: string, withTags: bool)
    ensures forall x :: x in Keep(s, term, withTags) <==> x in s && Hit(x, term, withTags)
  {
    forall x {
      KeepMembership(s, term, withTags, x);
    }
  }

  /** The empty term occurs in every name, so filtering by it keeps the list whole. */
  lemma {:induction false} KeepEmptyTerm(s: seq<Skill>, withTags: bool)
    ensures Keep(s, "", withTags) == s
  {
    if s != [] {
      ContainsEmpty(Lower(s[0].name));
      KeepEmptyTerm(s[1..], withTags);
    }
  }

  /** `if (searchTerm) result = result.filter(...)`: only a non-empty term filters. */
  function Searched(s: seq<Skill>, searchTerm: string): (r: seq<Skill>)
    ensures |r| <= |s|
    ensures searchTerm == "" ==> r == s
    ensures searchTerm != "" ==> forall x :: x in r <==> x in s && Hit(x, searchTerm, true)
  {
    KeepMembers(s, searchTerm, true);
    if searchTerm != "" then Keep(s, searchTerm, true) else s
  }

  /** The guard on the search term changes nothing: the filter alone gives the same list. */
  lemma SearchGuardRedundant(s: seq<Skill>, searchTerm: string)
    ensures Searched(s, searchTerm) == Keep(s, searchTerm, true)
  {
    if searchTerm == "" {
      KeepEmptyTerm(s, true);
    }
  }

  /** `localeCompare` on names: negative, zero or positive as `x` sorts before, with or after `y`. */
  function NameCompare(x: string, y: string): (r: int)
    ensures r == 0 <==> x == y
    ensures r < 0 ==> LexLeq(x, y)
    ensures r > 0 ==> LexLeq(y, x)
  {
    if x == y then 0
    else if LexLeq(x, y) then -1
    else
      LexLeqTotal(x, y);
      1
  }

  predicate KnownKey(sortBy: string) {
    sortBy == "name" || sortBy == "proficiency" || sortBy == "experience"
  }

  /** The sort comparator: positive when `a` must come after `b`. */
  function Compare(sortBy: string, a: Skill, b: Skill): (r: int)
    ensures !KnownKey(sortBy) ==> r == 0
  {
    if sortBy == "name" then NameCompare(a.name, b.name)
    else if sortBy == "proficiency" then b.proficiency - a.proficiency
    else if sortBy == "experience" then b.experience - a.experience
    else 0
  }

  /** If `a` must come after `b`, then `b` may come before `a`. */
  lemma CompareFlip(sortBy: string, a: Skill, b: Skill)
    requires Compare(sortBy, a, b) > 0
    ensures Compare(sortBy, b, a) <= 0
  {
    if sortBy == "name" && a.name != b.name {
      LexLeqAntisymmetricContra(a.name, b.name);
    }
  }

  lemma LexLeqAntisymmetricContra(x: string, y: string)
    requires x != y && LexLeq(y, x)
    ensures !LexLeq(x, y)
  {
    if LexLeq(x, y) {
      LexLeqAntisymmetric(x, y);
    }
  }

  /** "May come before" is transitive under every key. */
  lemma CompareTransitive(sortBy: string, a: Skill, b: Skill, c: Skill)
    requires Compare(sortBy, a, b) <= 0 && Compare(sortBy, b, c) <= 0
    ensures Compare(sortBy, a, c) <= 0
  {
    if sortBy == "name" && a.name != b.name && b.name != c.name && a.name != c.name {
      LexLeqTransitive(a.name, b.name, c.name);
    }
  }

  /** Neighbours in `s[lo..hi]` are in comparator order. */
  ghost predicate SortedBetween(s: seq<Skill>, sortBy: string, lo: int, hi: int)
    requires 0 <= lo && hi <= |s|
  {
    forall k :: lo < k < hi ==> Compare(sortBy, s[k - 1], s[k]) <= 0
  }

  ghost predicate Sorted(s: seq<Skill>, sortBy: string) {
    SortedBetween(s, sortBy, 0, |s|)
  }

  /** A list sorted neighbour by neighbour is sorted pair by pair. */
  lemma {:induction false} SortedPairs(s: seq<Skill>, sortBy: string, i: nat, j: nat)
    requires Sorted(s, sortBy) && i < j < |s|
    ensures Compare(sortBy, s[i], s[j]) <= 0
    decreases j - i
  {
    if i + 1 < j {
      SortedPairs(s, sortBy, i + 1, j);
      CompareTransitive(sortBy, s[i], s[i + 1], s[j]);
    }
  }

  /** What each sort key promises: highest proficiency or experience first, names in ascending order. */
  lemma SortedMeaning(s: seq<Skill>, sortBy: string, i: nat, j: nat)
    requires Sorted(s, sortBy) && i < j < |s|
    ensures sortBy == "proficiency" ==> s[i].proficiency >= s[j].proficiency
    ensures sortBy == "experience" ==> s[i].experience >= s[j].experience
    ensures sortBy == "name" ==> LexLeq(s[i].name, s[j].name)
  {
    SortedPairs(s, sortBy, i, j);
    LexLeqTotal(s[i].name, s[j].name);
  }

  /** Exchanging the strict inversion at `j - 1`, `j` moves the gap in the sorted run one place down. */
  lemma SwapStep(s: seq<Skill>, sortBy: string, i: nat, j: nat)
    requires 0 < j <= i < |s|
    requires SortedBetween(s, sortBy, 0, j) && SortedBetween(s, sortBy, j, i + 1)
    requires j < i ==> Compare(sortBy, s[j - 1], s[j + 1]) <= 0
    requires Compare(sortBy, s[j - 1], s[j]) > 0
    ensures var t := s[j - 1 := s[j]][j := s[j - 1]];
      && SortedBetween(t, sortBy, 0, j - 1) && SortedBetween(t, sortBy, j - 1, i + 1)
      && (0 < j - 1 ==> Compare(sortBy, t[j - 2], t[j]) <= 0)
      && multiset(t) == multiset(s)
  {
    CompareFlip(sortBy, s[j - 1], s[j]);
    var t := s[j - 1 := s[j]][j := s[j - 1]];
    assert t == s[..j - 1] + [s[j], s[j - 1]] + s[j + 1..];
    assert s == s[..j - 1] + [s[j - 1], s[j]] + s[j + 1..];
  }

  /** `result.sort(comparator)` as an insertion sort that swaps only strict inversions. */
  method SortSkills(a: array<Skill>, sortBy: string)
    modifies a
    ensures Sorted(a[..], sortBy)
    ensures multiset(a[..]) == multiset(old(a[..]))
    ensures !KnownKey(sortBy) ==> a[..] == old(a[..])
  {
    var i := 0;
    while i < a.Length
      invariant 0 <= i <= a.Length
      invariant SortedBetween(a[..], sortBy, 0, i)
      invariant multiset(a[..]) == multiset(old(a[..]))
      invariant !KnownKey(sortBy) ==> a[..] == old(a[..])
    {
      var j := i;
      while 0 < j && Compare(sortBy, a[j - 1], a[j]) > 0
        invariant 0 <= j <= i
        invariant SortedBetween(a[..], sortBy, 0, j) && SortedBetween(a[..], sortBy, j, i + 1)
        invariant 0 < j < i ==> Compare(sortBy, a[j - 1], a[j + 1]) <= 0
        invariant multiset(a[..]) == multiset(old(a[..]))
        invariant !KnownKey(sortBy) ==> a[..] == old(a[..])
      {
        SwapStep(a[..], sortBy, i, j);
        a[j - 1], a[j] := a[j], a[j - 1];
        j := j - 1;
      }
      i := i + 1;
    }
  }

  /**
   * `filteredSkills`: the chosen groups, narrowed by the search term and
   * sorted by the chosen key. The result holds exactly the searched
   * skills, in key order, and in their original order for an unknown key.
   */
  method FilteredSkills(activeCategory: string, searchTerm: string, sortBy: string) returns (result: seq<Skill>)
    ensures multiset(result) == multiset(Searched(Chosen(activeCategory), searchTerm))
    ensures Sorted(result, sortBy)
    ensures !KnownKey(sortBy) ==> result == Searched(Chosen(activeCategory), searchTerm)
  {
    var chosen := ChooseSkills(activeCategory);
    if searchTerm != "" {
      chosen := Keep(chosen, searchTerm, true);
    }
    var a := new Skill[|chosen|](i requires 0 <= i < |chosen| => chosen[i]);
    assert a[..] == chosen;
    SortSkills(a, sortBy);
    result := a[..];
  }

  /** The first step of `filteredSkills`: the whole catalogue flattened, or one category's group. */
  method ChooseSkills(activeCategory: string) returns (chosen: seq<Skill>)
    ensures chosen == Chosen(activeCategory)
  {
    chosen := [];
    if activeCategory == "all" {
      var k := 0;
      while k < |Catalog|
        invariant 0 <= k <= |Catalog|
        invariant chosen == ConcatUpTo(k)
      {
        chosen := chosen + Catalog[k].Skills();
        k := k + 1;
      }
    } else {
      match CategoryNamed(activeCategory)
      case Some(c) => chosen := c.Skills();
      case None => chosen := [];
    }
  }

  /** The grid of one group: `!searchTerm || name includes term`, tags not consulted. */
  function Grid(c: Category, searchTerm: string): (r: seq<Skill>)
    ensures |r| <= |c.Skills()|
    ensures forall x :: x in r ==> x in c.Skills()
  {
    KeepMembers(c.Skills(), searchTerm, false);
    if searchTerm == "" then c.Skills() else Keep(c.Skills(), searchTerm, false)
  }

  /** A group's grid shows exactly its skills whose name contains the term; tags play no part. */
  lemma GridByNameOnly(c: Category, searchTerm: string, x: Skill)
    ensures x in Grid(c, searchTerm) <==> x in c.Skills() && NameMatches(x, searchTerm)
  {
    KeepMembership(c.Skills(), searchTerm, false, x);
    if searchTerm == "" {
      ContainsEmpty(Lower(x.name));
    }
  }

  /** Whether a group's section is rendered for the chosen category. */
  /** `all` shows every section, a group's key shows only that group's, any other name shows none. */
  predicate SectionShown(activeCategory: string, c: Category): (r: bool)
    ensures r <==> activeCategory == "all" || CategoryNamed(activeCategory) == Some(c)
  {
    activeCategory == "all" || activeCategory == c.Key()
  }

  /** The first card index of a group: the full sizes of the groups before it. */
  function Offset(c: Category): (r: nat)
    ensures r + |c.Skills()| <= |AllSkills()|
  {
    AllSkillsInOrder();
    match c
    case Frontend => 0
    case Backend => |FrontendSkills|
    case Tools => |FrontendSkills| + |BackendSkills|
    case Soft => |FrontendSkills| + |BackendSkills| + |ToolsSkills|
  }

  /** The `index` a card gets: its group's offset plus its place in the group's grid. */
  function CardIndex(c: Category, index: nat): nat {
    Offset(c) + index
  }

  /** Two rendered cards never share an index, whatever the search term. */
  lemma CardIndicesDistinct(c1: Category, i1: nat, c2: Category, i2: nat, searchTerm: string)
    requires i1 < |Grid(c1, searchTerm)| && i2 < |Grid(c2, searchTerm)|
    requires c1 != c2 || i1 != i2
    ensures CardIndex(c1, i1) != CardIndex(c2, i2)
    ensures CardIndex(c1, i1) < |AllSkills()|
  {
  }

  /** The experience badge: "year" for exactly one year, "years" otherwise. */
  function YearsLabel(experience: int): (r: string)
    ensures r == "year" <==> experience == 1
    ensures r == "year" || r == "years"
  {
    if experience == 1 then "year" else "years"
  }

  /** The filter buttons, in the order they are drawn. */
  const FilterButtons: seq<string> := ["all", "frontend", "backend", "tools", "soft"]

  /** A filter button's caption: "All Skills", or the name with its first letter upper-cased. */
  function CategoryLabel(category: string): (r: string)
    ensures category == "all" ==> r == "All Skills"
    ensures category != "all" ==> |r| == |category|
    ensures category != "all" && category != [] ==> r[0] == UpperChar(category[0]) && r[1..] == category[1..]
  {
    if category == "all" then "All Skills"
    else if category == [] then []
    else [UpperChar(category[0])] + category[1..]
  }

  /** The five buttons read "All Skills", "Frontend", "Backend", "Tools" and "Soft". */
  lemma ButtonCaptions()
    ensures CategoryLabel(FilterButtons[0]) == "All Skills"
    ensures CategoryLabel(FilterButtons[1]) == "Frontend"
    ensures CategoryLabel(FilterButtons[2]) == "Backend"
    ensures CategoryLabel(FilterButtons[3]) == "Tools"
    ensures CategoryLabel(FilterButtons[4]) == "Soft"
  {
  }
}
