/**
 * The idea list page (src/app/ideas/page.tsx): the loaded ideas, the
 * search, category and sort controls, the current page, and the effect
 * that rebuilds the filtered list whenever one of them changes. Parsing
 * `createdAt` into milliseconds is the `getTime` parameter.
 */
module IdeasPage {
  import opened Wrappers
  import opened Types
  import opened Seqs
  import opened Sorting
  import opened Listing
  import TestApi

  const IdeasPerPage := 8

  predicate IdeaMatches(i: Idea, query: string) {
    MatchesQuery(i.title, i.description, i.tags, query)
  }

  /** The search step: skipped for an empty query. */
  function Search(ideas: seq<Idea>, query: string): (r: seq<Idea>)
    ensures multiset(r) <= multiset(ideas)
    ensures forall x :: x in r <==> x in ideas && (query == "" || IdeaMatches(x, query))
  {
    if query == "" then ideas
    else
      var r := Filter(ideas, (i: Idea) => IdeaMatches(i, query));
      assert forall x :: x in r ==> x in multiset(r);
      r
  }

  /** The category step: skipped for "all". */
  function InCategory(ideas: seq<Idea>, category: string): (r: seq<Idea>)
    ensures multiset(r) <= multiset(ideas)
    ensures forall x :: x in r <==> x in ideas && (category == "all" || x.category == category)
  {
    if category == "all" then ideas
    else
      var r := Filter(ideas, (i: Idea) => i.category == category);
      assert forall x :: x in r ==> x in multiset(r);
      r
  }

  /** The comparator each sort option uses, as a key larger-first; no sorting for any other option. */
  function SortKey(sort: string, getTime: string -> int): Option<Idea -> Key> {
    if sort == "newest" then Some((i: Idea) => (getTime(i.createdAt), 0))
    else if sort == "popular" then Some((i: Idea) => (i.likes, 0))
    else if sort == "views" then Some((i: Idea) => (i.views, 0))
    else None
  }

  /** The list the page shows before paging. */
  function Arrange(ideas: seq<Idea>, query: string, category: string, sort: string, getTime: string -> int): seq<Idea> {
    var s := InCategory(Search(ideas, query), category);
    var key := SortKey(sort, getTime);
    if key.Some? then SortBy(s, key.value) else s
  }

  /** The shown ideas are exactly the loaded ones that pass the search and the category, each as often as loaded. */
  lemma ArrangeSelects(ideas: seq<Idea>, query: string, category: string, sort: string, getTime: string -> int)
    ensures multiset(Arrange(ideas, query, category, sort, getTime)) <= multiset(ideas)
    ensures forall x :: x in Arrange(ideas, query, category, sort, getTime) <==>
      x in ideas && (query == "" || IdeaMatches(x, query)) && (category == "all" || x.category == category)
    ensures query == "" && category == "all" ==> multiset(Arrange(ideas, query, category, sort, getTime)) == multiset(ideas)
  {
    var s := InCategory(Search(ideas, query), category);
    var r := Arrange(ideas, query, category, sort, getTime);
    assert multiset(r) == multiset(s);
    forall x ensures x in r <==> x in s {
      assert x in r <==> x in multiset(r);
      assert x in s <==> x in multiset(s);
    }
  }

  /** Each sort option orders the list as its comparator says; an unknown option keeps the loaded order. */
  lemma ArrangeOrders(ideas: seq<Idea>, query: string, category: string, sort: string, getTime: string -> int)
    ensures var r := Arrange(ideas, query, category, sort, getTime);
      (sort == "newest" ==> forall i, j :: 0 <= i < j < |r| ==> getTime(r[i].createdAt) >= getTime(r[j].createdAt))
      && (sort == "popular" ==> forall i, j :: 0 <= i < j < |r| ==> r[i].likes >= r[j].likes)
      && (sort == "views" ==> forall i, j :: 0 <= i < j < |r| ==> r[i].views >= r[j].views)
      && (SortKey(sort, getTime).None? ==> r == InCategory(Search(ideas, query), category))
  {
    var r := Arrange(ideas, query, category, sort, getTime);
    if sort == "newest" || sort == "popular" || sort == "views" {
      var key := SortKey(sort, getTime).value;
      assert Ranked(r, key);
      forall i, j | 0 <= i < j < |r| ensures key(r[i]).0 >= key(r[j]).0 {
        assert !Above(key(r[j]), key(r[i]));
      }
    }
  }

  class IdeasView {
    const service: TestApi.Store
    const getTime: string -> int
    var ideas: seq<Idea>
    var loading: bool
    var searchQuery: string
    var category: string
    var sort: string
    var page: int
    var filteredIdeas: seq<Idea>

    /** The page before the fetch: loading, no query, all categories, newest first, page 1. */
    constructor (service: TestApi.Store, getTime: string -> int)
      ensures this.service == service && this.getTime == getTime
      ensures ideas == [] && filteredIdeas == [] && loading
      ensures searchQuery == "" && category == "all" && sort == "newest" && page == 1
    {
      this.service := service;
      this.getTime := getTime;
      ideas, filteredIdeas := [], [];
      loading := true;
      searchQuery, category, sort := "", "all", "newest";
      page := 1;
    }

    /** The filtered list is the arrangement of the loaded ideas under the current controls. */
    predicate Valid()
      reads this
    {
      filteredIdeas == Arrange(ideas, searchQuery, category, sort, getTime)
    }

    /** The filter effect: search, category, then an in-place sort of the copied array. */
    method Refilter()
      modifies this`filteredIdeas
      ensures Valid()
    {
      var result := InCategory(Search(ideas, searchQuery), category);
      var key := SortKey(sort, getTime);
      if key.Some? {
        result := SortedCopy(result, key.value);
      }
      filteredIdeas := result;
    }

    /** The fetch effect: all ideas of the service, then the filter effect. */
    method Fetch()
      modifies this`ideas, this`loading, this`filteredIdeas
      ensures ideas == TestApi.IdeasGetAll(service) && !loading && Valid()
      ensures searchQuery == old(searchQuery) && category == old(category) && sort == old(sort) && page == old(page)
    {
      loading := true;
      ideas := TestApi.IdeasGetAll(service);
      loading := false;
      Refilter();
    }

    method SetSearchQuery(query: string)
      modifies this`searchQuery, this`filteredIdeas
      ensures searchQuery == query && Valid()
      ensures ideas == old(ideas) && category == old(category) && sort == old(sort) && page == old(page)
    {
      searchQuery := query;
      Refilter();
    }

    method SetCategory(c: string)
      modifies this`category, this`filteredIdeas
      ensures category == c && Valid()
      ensures ideas == old(ideas) && searchQuery == old(searchQuery) && sort == old(sort) && page == old(page)
    {
      category := c;
      Refilter();
    }

    method SetSort(s: string)
      modifies this`sort, this`filteredIdeas
      ensures sort == s && Valid()
      ensures ideas == old(ideas) && searchQuery == old(searchQuery) && category == old(category) && page == old(page)
    {
      sort := s;
      Refilter();
    }

    /** The pagination control; the filter is not re-run. */
    method SetPage(p: int)
      modifies this`page
      ensures page == p && filteredIdeas == old(filteredIdeas)
      ensures ideas == old(ideas) && searchQuery == old(searchQuery) && category == old(category) && sort == old(sort)
    {
      page := p;
    }

    /** The ideas on the current page. */
    function Displayed(): seq<Idea>
      reads this
    {
      Page(filteredIdeas, page, IdeasPerPage)
    }

    function Pages(): nat
      reads this
    {
      PageCount(|filteredIdeas|, IdeasPerPage)
    }

    /** The category menu: "all" and each loaded category once. */
    function Categories(): seq<string>
      reads this
    {
      FilterOptions(seq(|ideas|, k requires 0 <= k < |ideas| reads this => ideas[k].category))
    }
  }
}
