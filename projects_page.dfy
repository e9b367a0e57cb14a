/**
 * The project list page (src/app/projects/page.tsx): the loaded projects,
 * the search, category, status and sort controls, the current page, and
 * the effect that rebuilds the filtered list whenever one of them changes.
 * Parsing `createdAt` into milliseconds is the `getTime` parameter.
 */
module ProjectsPage {
  import opened Wrappers
  import opened Types
  import opened Seqs
  import opened Sorting
  import opened Listing
  import TestApi

  const ProjectsPerPage := 6

  predicate ProjectMatches(i: Project, query: string) {
    MatchesQuery(i.title, i.description, i.tags, query)
  }

  /** The search step: skipped for an empty query. */
  function Search(projects: seq<Project>, query: string): (r: seq<Project>)
    ensures multiset(r) <= multiset(projects)
    ensures forall x :: x in r <==> x in projects && (query == "" || ProjectMatches(x, query))
  {
    if query == "" then projects
    else
      var r := Filter(projects, (i: Project) => ProjectMatches(i, query));
      assert forall x :: x in r ==> x in multiset(r);
      r
  }

  /** The category step: skipped for "all". */
  function InCategory(projects: seq<Project>, category: string): (r: seq<Project>)
    ensures multiset(r) <= multiset(projects)
    ensures forall x :: x in r <==> x in projects && (category == "all" || x.category == category)
  {
    if category == "all" then projects
    else
      var r := Filter(projects, (i: Project) => i.category == category);
      assert forall x :: x in r ==> x in multiset(r);
      r
  }

  /** The status step: skipped for "all". */
  function InStatus(projects: seq<Project>, status: string): (r: seq<Project>)
    ensures multiset(r) <= multiset(projects)
    ensures forall x :: x in r <==> x in projects && (status == "all" || x.status == status)
  {
    if status == "all" then projects
    else
      var r := Filter(projects, (p: Project) => p.status == status);
      assert forall x :: x in r ==> x in multiset(r);
      r
  }

  /** The comparator each sort option uses, as a key larger-first; no sorting for any other option. */
  function SortKey(sort: string, getTime: string -> int): Option<Project -> Key> {
    if sort == "newest" then Some((p: Project) => (getTime(p.createdAt), 0))
    else if sort == "progress" then Some((p: Project) => (p.progress, 0))
    else None
  }

  /** The filters in the page's order: search, category, status. */
  function Select(projects: seq<Project>, query: string, category: string, status: string): seq<Project> {
    InStatus(InCategory(Search(projects, query), category), status)
  }

  /** The list the page shows before paging. */
  function Arrange(projects: seq<Project>, query: string, category: string, status: string, sort: string,
                   getTime: string -> int): seq<Project> {
    var s := Select(projects, query, category, status);
    var key := SortKey(sort, getTime);
    if key.Some? then SortBy(s, key.value) else s
  }

  /** The shown projects are exactly the loaded ones that pass the search, the category and the status, each as often as loaded. */
  lemma ArrangeSelects(projects: seq<Project>, query: string, category: string, status: string, sort: string,
                       getTime: string -> int)
    ensures multiset(Arrange(projects, query, category, status, sort, getTime)) <= multiset(projects)
    ensures forall x :: x in Arrange(projects, query, category, status, sort, getTime) <==>
      x in projects && (query == "" || ProjectMatches(x, query)) && (category == "all" || x.category == category)
      && (status == "all" || x.status == status)
    ensures query == "" && category == "all" && status == "all" ==>
      multiset(Arrange(projects, query, category, status, sort, getTime)) == multiset(projects)
  {
    var s := Select(projects, query, category, status);
    var r := Arrange(projects, query, category, status, sort, getTime);
    assert multiset(r) == multiset(s);
    forall x ensures x in r <==> x in s {
      assert x in r <==> x in multiset(r);
      assert x in s <==> x in multiset(s);
    }
  }

  /** Each sort option orders the list as its comparator says; an unknown option keeps the loaded order. */
  lemma ArrangeOrders(projects: seq<Project>, query: string, category: string, status: string, sort: string,
                      getTime: string -> int)
    ensures var r := Arrange(projects, query, category, status, sort, getTime);
      (sort == "newest" ==> forall i, j :: 0 <= i < j < |r| ==> getTime(r[i].createdAt) >= getTime(r[j].createdAt))
      && (sort == "progress" ==> forall i, j :: 0 <= i < j < |r| ==> r[i].progress >= r[j].progress)
      && (SortKey(sort, getTime).None? ==> r == Select(projects, query, category, status))
  {
    var r := Arrange(projects, query, category, status, sort, getTime);
    if sort == "newest" || sort == "progress" {
      var key := SortKey(sort, getTime).value;
      assert Ranked(r, key);
      forall i, j | 0 <= i < j < |r| ensures key(r[i]).0 >= key(r[j]).0 {
        assert !Above(key(r[j]), key(r[i]));
      }
    }
  }

  class ProjectsView {
    const service: TestApi.Store
    const getTime: string -> int
    var projects: seq<Project>
    var loading: bool
    var searchQuery: string
    var category: string
    var status: string
    var sort: string
    var page: int
    var filteredProjects: seq<Project>

    /** The page before the fetch: loading, no query, all categories and statuses, newest first, page 1. */
    constructor (service: TestApi.Store, getTime: string -> int)
      ensures this.service == service && this.getTime == getTime
      ensures projects == [] && filteredProjects == [] && loading
      ensures searchQuery == "" && category == "all" && status == "all" && sort == "newest" && page == 1
    {
      this.service := service;
      this.getTime := getTime;
      projects, filteredProjects := [], [];
      loading := true;
      searchQuery, category, status, sort := "", "all", "all", "newest";
      page := 1;
    }

    /** The filtered list is the arrangement of the loaded projects under the current controls. */
    predicate Valid()
      reads this
    {
      filteredProjects == Arrange(projects, searchQuery, category, status, sort, getTime)
    }

    /** The filter effect: search, category, status, then an in-place sort of the copied array. */
    method Refilter()
      modifies this`filteredProjects
      ensures Valid()
    {
      var result := Select(projects, searchQuery, category, status);
      var key := SortKey(sort, getTime);
      if key.Some? {
        result := SortedCopy(result, key.value);
      }
      filteredProjects := result;
    }

    /** The fetch effect: all projects of the service, then the filter effect. */
    method Fetch()
      modifies this`projects, this`loading, this`filteredProjects
      ensures projects == TestApi.ProjectsGetAll(service) && !loading && Valid()
      ensures searchQuery == old(searchQuery) && category == old(category) && status == old(status) && sort == old(sort) && page == old(page)
    {
      loading := true;
      projects := TestApi.ProjectsGetAll(service);
      loading := false;
      Refilter();
    }

    method SetSearchQuery(query: string)
      modifies this`searchQuery, this`filteredProjects
      ensures searchQuery == query && Valid()
      ensures projects == old(projects) && category == old(category) && status == old(status)
      ensures sort == old(sort) && page == old(page)
    {
      searchQuery := query;
      Refilter();
    }

    method SetCategory(c: string)
      modifies this`category, this`filteredProjects
      ensures category == c && Valid()
      ensures projects == old(projects) && searchQuery == old(searchQuery) && status == old(status)
      ensures sort == old(sort) && page == old(page)
    {
      category := c;
      Refilter();
    }

    method SetStatus(s: string)
      modifies this`status, this`filteredProjects
      ensures status == s && Valid()
      ensures projects == old(projects) && searchQuery == old(searchQuery) && category == old(category)
      ensures sort == old(sort) && page == old(page)
    {
      status := s;
      Refilter();
    }

    method SetSort(s: string)
      modifies this`sort, this`filteredProjects
      ensures sort == s && Valid()
      ensures projects == old(projects) && searchQuery == old(searchQuery) && category == old(category) && status == old(status) && page == old(page)
    {
      sort := s;
      Refilter();
    }

    /** The pagination control; the filter is not re-run. */
    method SetPage(p: int)
      modifies this`page
      ensures page == p && filteredProjects == old(filteredProjects)
      ensures projects == old(projects) && searchQuery == old(searchQuery) && category == old(category) && status == old(status) && sort == old(sort)
    {
      page := p;
    }

    /** The projects on the current page. */
    function Displayed(): seq<Project>
      reads this
    {
      Page(filteredProjects, page, ProjectsPerPage)
    }

    function Pages(): nat
      reads this
    {
      PageCount(|filteredProjects|, ProjectsPerPage)
    }

    /** The category menu: "all" and each loaded category once. */
    function Categories(): seq<string>
      reads this
    {
      FilterOptions(seq(|projects|, k requires 0 <= k < |projects| reads this => projects[k].category))
    }

    /** The status menu: "all" and each loaded status once. */
    function Statuses(): seq<string>
      reads this
    {
      FilterOptions(seq(|projects|, k requires 0 <= k < |projects| reads this => projects[k].status))
    }
  }

  predicate IsCompleted(t: Task) {
    t.status == Completed
  }

  /** The task counter on a project card: how many tasks are completed. */
  function CompletedTasks(tasks: seq<Task>): (r: nat)
    ensures r <= |tasks|
  {
    |Filter(tasks, IsCompleted)|
  }

  /** The counter reads "n/n" exactly when every task is completed. */
  lemma AllTasksCompleted(tasks: seq<Task>)
    ensures CompletedTasks(tasks) == |tasks| <==> forall k :: 0 <= k < |tasks| ==> tasks[k].status == Completed
  {
    FilterLengthAll(tasks, IsCompleted);
  }
}
