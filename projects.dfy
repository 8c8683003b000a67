/** The projects page: a fixed list of project records, a category filter
    over it, and what the page shows for the current selection. */
module ProjectsPage {
  import opened Sequences

  /** `ProjectCategory`: three real categories plus the meta-category `all`. */
  datatype Category = All | Web | Mobile | Desktop

  /** A project record, reduced to the fields the filter and the grid key use. */
  datatype Project = Project(id: nat, title: string, category: Category)

  datatype FilterOption = FilterOption(caption: string, value: Category)

  const FilterOptions: seq<FilterOption> := [
    FilterOption("All Projects", All),
    FilterOption("Web Development", Web),
    FilterOption("Mobile Apps", Mobile),
    FilterOption("Desktop Applications", Desktop)
  ]

  const AllProjects: seq<Project> := [
    Project(1, "E-commerce Website", Web),
    Project(2, "Task Management App", Web),
    Project(3, "Weather Application", Web),
    Project(4, "Personal Blog", Web),
    Project(5, "Fitness Tracker Mobile App", Mobile),
    Project(6, "Desktop File Organizer", Desktop)
  ]

  /** `projects.filter(project => project.category === c)`. */
  function FilterByCategory(projects: seq<Project>, c: Category): seq<Project> {
    if projects == [] then []
    else if projects[0].category == c then [projects[0]] + FilterByCategory(projects[1..], c)
    else FilterByCategory(projects[1..], c)
  }

  /** The list the filter effect stores for a selection: the whole list for
      `all`, otherwise the projects of that category. */
  function FilteredFor(c: Category): seq<Project> {
    if c == All then AllProjects else FilterByCategory(AllProjects, c)
  }

  /** The filter keeps exactly the projects of the category, with the same
      number of copies of each. */
  lemma {:induction false} FilterCounts(projects: seq<Project>, c: Category, p: Project)
    ensures multiset(FilterByCategory(projects, c))[p] ==
            if p.category == c then multiset(projects)[p] else 0
  {
    if projects != [] {
      FilterCounts(projects[1..], c, p);
      assert projects == [projects[0]] + projects[1..];
    }
  }

  /** A project is in the filtered list exactly when it is in the input and
      has the selected category. */
  lemma FilterMembership(projects: seq<Project>, c: Category, p: Project)
    ensures p in FilterByCategory(projects, c) <==> p in projects && p.category == c
  {
    FilterCounts(projects, c, p);
    assert p in FilterByCategory(projects, c) <==> multiset(FilterByCategory(projects, c))[p] > 0;
    assert p in projects <==> multiset(projects)[p] > 0;
  }

  /** The filter keeps the original relative order. */
  lemma {:induction false} FilterIsSubsequence(projects: seq<Project>, c: Category)
    ensures IsSubsequence(FilterByCategory(projects, c), projects)
  {
    if projects != [] {
      var rest := FilterByCategory(projects[1..], c);
      FilterIsSubsequence(projects[1..], c);
      if projects[0].category == c {
        assert FilterByCategory(projects, c)[1..] == rest;
      } else if rest != [] {
        FilterMembership(projects[1..], c, rest[0]);
      }
    }
  }

  /** The ids of a list of projects, in order. */
  function Ids(projects: seq<Project>): seq<nat> {
    if projects == [] then [] else [projects[0].id] + Ids(projects[1..])
  }

  /** On the hard-coded list: every project carries a real category and the
      ids are 1 to 6, so they are distinct. */
  lemma ProjectData()
    ensures forall k | 0 <= k < |AllProjects| :: AllProjects[k].category != All
    ensures Ids(AllProjects) == [1, 2, 3, 4, 5, 6] && Distinct(Ids(AllProjects))
  {
  }

  /** On the hard-coded list: `all` is the whole list; web is projects 1 to 4,
      mobile is project 5, desktop is project 6. */
  lemma FilteredData()
    ensures FilteredFor(All) == AllProjects
    ensures Ids(FilteredFor(Web)) == [1, 2, 3, 4]
    ensures Ids(FilteredFor(Mobile)) == [5]
    ensures Ids(FilteredFor(Desktop)) == [6]
  {
    assert FilteredFor(Web) == AllProjects[..4];
    assert FilteredFor(Mobile) == [AllProjects[4]];
    assert FilteredFor(Desktop) == [AllProjects[5]];
  }

  /** What the showcase section renders. */
  datatype Showcase = NoProjectsFound | Grid(cards: seq<Project>)

  /** An empty list renders the "No projects found" branch, any other list
      renders the grid of its cards, in order. */
  function RenderShowcase(filtered: seq<Project>): (v: Showcase)
    ensures v.NoProjectsFound? <==> |filtered| == 0
    ensures v.Grid? ==> v.cards == filtered
  {
    if |filtered| == 0 then NoProjectsFound else Grid(filtered)
  }

  /** With this data no selection is empty, so the grid is always what shows. */
  lemma EveryFilterShowsGrid(c: Category)
    ensures RenderShowcase(FilteredFor(c)).Grid?
  {
    FilteredData();
  }

  /** Whether each filter button carries `active`, in button order. */
  function ActiveMarkers(activeFilter: Category): (r: seq<bool>)
    ensures |r| == |FilterOptions|
    ensures forall i | 0 <= i < |r| :: r[i] <==> FilterOptions[i].value == activeFilter
  {
    seq(|FilterOptions|, i requires 0 <= i < |FilterOptions| => FilterOptions[i].value == activeFilter)
  }

  /** The option values are distinct, so exactly one button is active: the one
      whose value is the selection. */
  lemma ExactlyOneActive(activeFilter: Category)
    ensures forall i, j | 0 <= i < j < |FilterOptions| :: FilterOptions[i].value != FilterOptions[j].value
    ensures exists i | 0 <= i < |FilterOptions| :: ActiveMarkers(activeFilter)[i]
    ensures forall i, j | 0 <= i < |FilterOptions| && 0 <= j < |FilterOptions| ::
              ActiveMarkers(activeFilter)[i] && ActiveMarkers(activeFilter)[j] ==> i == j
  {
    var k := match activeFilter case All => 0 case Web => 1 case Mobile => 2 case Desktop => 3;
    assert ActiveMarkers(activeFilter)[k];
  }

  /** The state of one mounted `Projects` component. */
  class ProjectsView {
    var activeFilter: Category
    var filteredProjects: seq<Project>

    /** The effect has caught up with the selection. */
    ghost predicate Synced()
      reads this
    {
      filteredProjects == FilteredFor(activeFilter)
    }

    /** Initially `all` is selected and the whole list is shown. */
    constructor ()
      ensures activeFilter == All && filteredProjects == AllProjects
      ensures Synced()
    {
      activeFilter := All;
      filteredProjects := AllProjects;
    }

    /** `handleFilterChange`: only the selection changes; the list follows
        when the effect runs. */
    method HandleFilterChange(c: Category)
      modifies this`activeFilter
      ensures activeFilter == c
    {
      activeFilter := c;
    }

    /** The effect on `activeFilter`: recomputes the list from scratch. */
    method FilterEffect()
      modifies this`filteredProjects
      ensures Synced()
    {
      if activeFilter == All {
        filteredProjects := AllProjects;
      } else {
        filteredProjects := FilterByCategory(AllProjects, activeFilter);
      }
    }

    /** A button click followed by the re-render: the effect runs only when the
        selection changed. Re-selecting the current category changes nothing. */
    method SelectFilter(c: Category)
      requires Synced()
      modifies this
      ensures activeFilter == c && Synced()
      ensures old(activeFilter) == c ==> filteredProjects == old(filteredProjects)
    {
      var previous := activeFilter;
      HandleFilterChange(c);
      if activeFilter != previous {
        FilterEffect();
      }
    }
  }
}
