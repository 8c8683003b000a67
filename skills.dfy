/** The skills page: the skill list, the five-slot level bar, and the grouping
    of skills by category that the page renders section by section. */
module SkillsPage {
  import opened Sequences

  datatype SkillCategory = Frontend | Backend | Tools | Other

  /** A skill; the level is meant to lie in 1..5. */
  datatype Skill = Skill(name: string, level: int, category: SkillCategory)

  const Skills: seq<Skill> := [
    Skill("HTML5", 5, Frontend),
    Skill("CSS3", 5, Frontend),
    Skill("JavaScript", 5, Frontend),
    Skill("TypeScript", 4, Frontend),
    Skill("React", 4, Frontend),
    Skill("Redux", 3, Frontend),
    Skill("Next.js", 3, Frontend),
    Skill("Node.js", 4, Backend),
    Skill("Express", 4, Backend),
    Skill("MongoDB", 3, Backend),
    Skill("SQL", 3, Backend),
    Skill("GraphQL", 2, Backend),
    Skill("Git", 4, Tools),
    Skill("Docker", 3, Tools),
    Skill("Webpack", 3, Tools),
    Skill("Jest", 3, Tools),
    Skill("Agile/Scrum", 4, Other),
    Skill("Problem Solving", 5, Other),
    Skill("UI/UX Design", 3, Other),
    Skill("Figma", 3, Other)
  ]

  /** `categoryTitles`. */
  function CategoryTitle(c: SkillCategory): string {
    match c
    case Frontend => "Frontend Development"
    case Backend => "Backend Development"
    case Tools => "Tools & Workflow"
    case Other => "Other Skills"
  }

  // ---------------------------------------------------------------------
  // renderSkillBar
  // ---------------------------------------------------------------------

  /** One bar of the level indicator: its React key and whether it is filled. */
  datatype Bar = Bar(key: int, filled: bool)

  /** The number of filled bars. */
  function CountFilled(bars: seq<Bar>): nat {
    if bars == [] then 0
    else CountFilled(bars[..|bars| - 1]) + (if bars[|bars| - 1].filled then 1 else 0)
  }

  /** `level` limited to the range `0..bound`. */
  function Clamp(level: int, bound: nat): (r: nat)
    ensures r <= bound
    ensures 0 <= level <= bound ==> r == level
  {
    if level < 0 then 0 else if level > bound then bound else level
  }

  /** `renderSkillBar`: five bars keyed 1 to 5, bar `i` filled exactly when
      `i <= level`, so the filled count is the level clamped to 0..5. */
  method RenderSkillBar(level: int) returns (bars: seq<Bar>)
    ensures |bars| == 5
    ensures forall k | 0 <= k < 5 :: bars[k].key == k + 1 && (bars[k].filled <==> k + 1 <= level)
    ensures CountFilled(bars) == Clamp(level, 5)
  {
    bars := [];
    for i := 1 to 6
      invariant |bars| == i - 1
      invariant forall k | 0 <= k < i - 1 :: bars[k] == Bar(k + 1, k + 1 <= level)
      invariant CountFilled(bars) == Clamp(level, i - 1)
    {
      var bar := Bar(i, i <= level);
      assert (bars + [bar])[..|bars|] == bars;
      bars := bars + [bar];
    }
  }

  // ---------------------------------------------------------------------
  // The skillsByCategory reduce
  // ---------------------------------------------------------------------

  /** The skills of category `c`, in their original order. */
  function GroupOf(skills: seq<Skill>, c: SkillCategory): seq<Skill> {
    if skills == [] then []
    else if skills[0].category == c then [skills[0]] + GroupOf(skills[1..], c)
    else GroupOf(skills[1..], c)
  }

  /** The categories in order of first appearance: the key order of an object
      whose keys are created as the skills are visited. */
  function FirstAppearance(skills: seq<Skill>): seq<SkillCategory> {
    if skills == [] then []
    else AddKey(FirstAppearance(skills[..|skills| - 1]), skills[|skills| - 1].category)
  }

  /** `if (!acc[c]) acc[c] = []` on the key order. */
  function AddKey(keys: seq<SkillCategory>, c: SkillCategory): seq<SkillCategory> {
    if c in keys then keys else keys + [c]
  }

  /** The groups of `keys`, concatenated in key order. */
  function Flatten(skills: seq<Skill>, keys: seq<SkillCategory>): seq<Skill> {
    if keys == [] then [] else GroupOf(skills, keys[0]) + Flatten(skills, keys[1..])
  }

  /** The sum of the sizes of the groups of `keys`. */
  function SizeSum(skills: seq<Skill>, keys: seq<SkillCategory>): nat {
    if keys == [] then 0 else |GroupOf(skills, keys[0])| + SizeSum(skills, keys[1..])
  }

  /** The reduce: visits the skills in order; the first skill of a category
      creates that key with an empty array, and every skill is pushed onto the
      array of its own category. `keys` is the object's key order. */
  method GroupByCategory(skills: seq<Skill>) returns (keys: seq<SkillCategory>, groups: map<SkillCategory, seq<Skill>>)
    ensures keys == FirstAppearance(skills)
    ensures forall c :: c in groups <==> c in keys
    ensures forall c | c in groups :: groups[c] == GroupOf(skills, c)
  {
    keys := [];
    groups := map[];
    for i := 0 to |skills|
      invariant keys == FirstAppearance(skills[..i])
      invariant forall c :: c in groups <==> c in keys
      invariant forall c | c in groups :: groups[c] == GroupOf(skills[..i], c)
      invariant forall c | c !in groups :: GroupOf(skills[..i], c) == []
    {
      var skill := skills[i];
      ghost var visited := skills[..i];
      assert skills[..i + 1] == visited + [skill];
      assert FirstAppearance(skills[..i + 1]) == AddKey(keys, skill.category) by {
        assert skills[..i + 1][..i] == visited;
      }
      var group := [];
      if skill.category in groups {
        group := groups[skill.category];
      } else {
        keys := keys + [skill.category];
      }
      groups := groups[skill.category := group + [skill]];
      forall c
        ensures c in groups ==> groups[c] == GroupOf(skills[..i + 1], c)
        ensures c !in groups ==> GroupOf(skills[..i + 1], c) == []
      {
        GroupOfAppend(visited, skill, c);
      }
    }
    assert skills[..|skills|] == skills;
  }

  /** Appending one skill extends the group of its category and no other. */
  lemma {:induction false} GroupOfAppend(skills: seq<Skill>, x: Skill, c: SkillCategory)
    ensures GroupOf(skills + [x], c) == GroupOf(skills, c) + (if x.category == c then [x] else [])
  {
    if skills != [] {
      assert (skills + [x])[1..] == skills[1..] + [x];
      GroupOfAppend(skills[1..], x, c);
    }
  }

  /** A skill is in the group of `c` exactly when it is a skill of
      category `c`: every skill is in one group, the one keyed by its own
      category. */
  lemma {:induction false} GroupMembership(skills: seq<Skill>, c: SkillCategory, x: Skill)
    ensures x in GroupOf(skills, c) <==> x in skills && x.category == c
  {
    if skills != [] {
      GroupMembership(skills[1..], c, x);
      assert skills == [skills[0]] + skills[1..];
    }
  }

  /** Pushing keeps the skills of a group in their original relative order. */
  lemma {:induction false} GroupIsSubsequence(skills: seq<Skill>, c: SkillCategory)
    ensures IsSubsequence(GroupOf(skills, c), skills)
  {
    if skills != [] {
      var rest := GroupOf(skills[1..], c);
      GroupIsSubsequence(skills[1..], c);
      if skills[0].category == c {
        assert GroupOf(skills, c)[1..] == rest;
      } else if rest != [] {
        GroupMembership(skills[1..], c, rest[0]);
      }
    }
  }

  /** The keys are distinct, and a category is a key exactly when some skill
      has it. */
  lemma {:induction false} FirstAppearanceKeys(skills: seq<Skill>)
    ensures Distinct(FirstAppearance(skills))
    ensures forall c :: c in FirstAppearance(skills) <==> exists x | x in skills :: x.category == c
  {
    if skills != [] {
      var init := skills[..|skills| - 1];
      FirstAppearanceKeys(init);
      assert skills == init + [skills[|skills| - 1]];
      forall c ensures c in FirstAppearance(skills) <==> exists x | x in skills :: x.category == c {
        if c in FirstAppearance(skills) && c !in FirstAppearance(init) {
          assert skills[|skills| - 1] in skills;
        }
        if c !in FirstAppearance(skills) {
          forall x | x in skills ensures x.category != c {
            if x in init {
            } else {
              assert x == skills[|skills| - 1];
            }
          }
        }
      }
    }
  }

  /** A key has a skill of its category before any given index. */
  lemma KeyHasSkill(skills: seq<Skill>, c: SkillCategory)
    requires c in FirstAppearance(skills)
    ensures exists y | 0 <= y < |skills| :: skills[y].category == c
  {
    FirstAppearanceKeys(skills);
    var x :| x in skills && x.category == c;
    var y :| 0 <= y < |skills| && skills[y] == x;
  }

  /** The keys come in order of first appearance: every skill of the key at
      position `j` comes after some skill of each earlier key. */
  lemma {:induction false} KeysInFirstAppearanceOrder(skills: seq<Skill>, i: nat, j: nat, x: nat)
    requires i < j < |FirstAppearance(skills)|
    requires x < |skills| && skills[x].category == FirstAppearance(skills)[j]
    ensures exists y | 0 <= y < x :: skills[y].category == FirstAppearance(skills)[i]
  {
    var init := skills[..|skills| - 1];
    var keys := FirstAppearance(init);
    assert FirstAppearance(skills) == AddKey(keys, skills[|skills| - 1].category);
    assert keys <= FirstAppearance(skills);
    if x < |skills| - 1 {
      assert init[x] == skills[x];
      if j == |keys| {
        KeyHasSkillAt(init, x);
        assert false;
      }
      KeysInFirstAppearanceOrder(init, i, j, x);
      var y :| 0 <= y < x && init[y].category == keys[i];
      assert skills[y] == init[y];
    } else {
      KeyHasSkill(init, keys[i]);
      var y :| 0 <= y < |init| && init[y].category == keys[i];
      assert skills[y] == init[y];
    }
  }

  /** The category of any visited skill is a key. */
  lemma KeyHasSkillAt(skills: seq<Skill>, x: nat)
    requires x < |skills|
    ensures skills[x].category in FirstAppearance(skills)
  {
    FirstAppearanceKeys(skills);
    assert skills[x] in skills;
  }

  lemma {:induction false} FlattenOfEmpty(keys: seq<SkillCategory>)
    ensures Flatten([], keys) == []
  {
    if keys != [] {
      FlattenOfEmpty(keys[1..]);
    }
  }

  /** Adding a skill at the front adds it once to the concatenation of the
      groups of distinct keys when its category is among them. */
  lemma {:induction false} FlattenCons(x: Skill, skills: seq<Skill>, keys: seq<SkillCategory>)
    requires Distinct(keys)
    ensures multiset(Flatten([x] + skills, keys)) ==
            multiset(Flatten(skills, keys)) + (if x.category in keys then multiset{x} else multiset{})
  {
    if keys != [] {
      assert ([x] + skills)[1..] == skills;
      FlattenCons(x, skills, keys[1..]);
    }
  }

  /** The concatenation of the groups of distinct keys that cover every
      category in use is a permutation of the skills. */
  lemma {:induction false} FlattenIsPermutation(skills: seq<Skill>, keys: seq<SkillCategory>)
    requires Distinct(keys)
    requires forall x | x in skills :: x.category in keys
    ensures multiset(Flatten(skills, keys)) == multiset(skills)
  {
    if skills == [] {
      FlattenOfEmpty(keys);
    } else {
      assert skills == [skills[0]] + skills[1..];
      FlattenIsPermutation(skills[1..], keys);
      FlattenCons(skills[0], skills[1..], keys);
    }
  }

  lemma {:induction false} SizeSumIsLength(skills: seq<Skill>, keys: seq<SkillCategory>)
    ensures SizeSum(skills, keys) == |Flatten(skills, keys)|
  {
    if keys != [] {
      SizeSumIsLength(skills, keys[1..]);
    }
  }

  /** The groups the reduce produces partition the skills: concatenated in key
      order they are a permutation of the list, and their sizes add up to its
      length. */
  lemma GroupsPartitionSkills(skills: seq<Skill>)
    ensures multiset(Flatten(skills, FirstAppearance(skills))) == multiset(skills)
    ensures SizeSum(skills, FirstAppearance(skills)) == |skills|
  {
    var keys := FirstAppearance(skills);
    FirstAppearanceKeys(skills);
    FlattenIsPermutation(skills, keys);
    SizeSumIsLength(skills, keys);
    assert |multiset(Flatten(skills, keys))| == |multiset(skills)|;
  }

  /** Visiting `skills[lo..hi]`, whose categories all have keys by then,
      adds no key. */
  lemma {:induction false} NoNewKeysBetween(skills: seq<Skill>, lo: nat, hi: nat)
    requires lo <= hi <= |skills|
    requires forall k | lo <= k < hi :: skills[k].category in FirstAppearance(skills[..lo])
    ensures FirstAppearance(skills[..hi]) == FirstAppearance(skills[..lo])
    decreases hi
  {
    if lo < hi {
      NoNewKeysBetween(skills, lo, hi - 1);
      assert skills[..hi][..hi - 1] == skills[..hi - 1];
    }
  }

  /** Adding the skill at `at`, of a category without a key, appends that key. */
  lemma NewKeyAt(at: nat)
    requires at < |Skills|
    requires Skills[at].category !in FirstAppearance(Skills[..at])
    ensures FirstAppearance(Skills[..at + 1]) == FirstAppearance(Skills[..at]) + [Skills[at].category]
  {
    assert Skills[..at + 1][..at] == Skills[..at];
  }

  lemma FrontendSection()
    ensures FirstAppearance(Skills[..7]) == [Frontend]
  {
    NewKeyAt(0);
    NoNewKeysBetween(Skills, 1, 7);
  }

  lemma BackendSection()
    ensures FirstAppearance(Skills[..12]) == [Frontend, Backend]
  {
    FrontendSection();
    NewKeyAt(7);
    NoNewKeysBetween(Skills, 8, 12);
  }

  lemma ToolsSection()
    ensures FirstAppearance(Skills[..16]) == [Frontend, Backend, Tools]
  {
    BackendSection();
    NewKeyAt(12);
    NoNewKeysBetween(Skills, 13, 16);
  }

  /** On the hard-coded list the sections come out as frontend, backend,
      tools, other. */
  lemma SkillSectionOrder()
    ensures FirstAppearance(Skills) == [Frontend, Backend, Tools, Other]
  {
    ToolsSection();
    NewKeyAt(16);
    NoNewKeysBetween(Skills, 17, 20);
    assert Skills[..20] == Skills;
  }

  /** On the hard-coded list every level lies in 1..5, as the field's comment
      says. */
  lemma SkillLevelsInRange()
    ensures forall k | 0 <= k < |Skills| :: 1 <= Skills[k].level <= 5
  {
  }

  /** Every section key has a title, and the titles tell the sections apart. */
  lemma SectionTitles()
    ensures forall c | c in FirstAppearance(Skills) :: CategoryTitle(c) != ""
    ensures forall c1, c2 | c1 != c2 :: CategoryTitle(c1) != CategoryTitle(c2)
  {
  }
}
