/**
 * What the idea and project list pages share: the case-insensitive search
 * over title, description and tags, the page slicing with its page count,
 * and the filter options built from the loaded records.
 */
module Listing {
  import opened Js
  import opened Seqs

  /** Some tag contains the query, both lower-cased. */
  predicate SomeTagMatches(tags: seq<string>, query: string) {
    exists k :: 0 <= k < |tags| && Includes(ToLower(tags[k]), ToLower(query))
  }

  /** The search predicate of both list pages. */
  predicate MatchesQuery(title: string, description: string, tags: seq<string>, query: string) {
    Includes(ToLower(title), ToLower(query))
    || Includes(ToLower(description), ToLower(query))
    || SomeTagMatches(tags, query)
  }

  /** Lower-casing twice is lower-casing once. */
  lemma ToLowerIdempotent(s: string)
    ensures ToLower(ToLower(s)) == ToLower(s)
  {
  }

  /** The search ignores the letter case of the query, and the empty query matches everything. */
  lemma MatchesQueryIgnoresCase(title: string, description: string, tags: seq<string>, query: string)
    ensures MatchesQuery(title, description, tags, query) == MatchesQuery(title, description, tags, ToLower(query))
    ensures MatchesQuery(title, description, tags, "")
  {
    ToLowerIdempotent(query);
    IncludesEmpty(ToLower(title));
  }

  /** A title that contains the query, in any letter case, is a match. */
  lemma TitleInfixMatches(x: string, query: string, y: string, description: string, tags: seq<string>)
    ensures MatchesQuery(x + query + y, description, tags, query)
  {
    ToLowerConcat(x + query, y);
    ToLowerConcat(x, query);
    IncludesIff(ToLower(query), ToLower(query));
    assert OccursAt(ToLower(query), ToLower(query), 0);
    IncludesInfix(ToLower(x), ToLower(query), ToLower(y), ToLower(query));
  }

  /** `Math.ceil(n / perPage)` for a count n. */
  function PageCount(n: nat, perPage: nat): (r: nat)
    requires perPage > 0
    ensures r * perPage >= n
    ensures r > 0 ==> (r - 1) * perPage < n
  {
    (n + perPage - 1) / perPage
  }

  /** `(page - 1) * perPage`: where a page begins. */
  function PageStart(page: int, perPage: nat): (r: int)
    ensures page >= 1 ==> r >= 0
    ensures r + perPage == page * perPage
  {
    (page - 1) * perPage
  }

  function Min(a: int, b: int): int {
    if a <= b then a else b
  }

  /** `s.slice((page - 1) * perPage, (page - 1) * perPage + perPage)`. */
  function Page<T>(s: seq<T>, page: int, perPage: nat): (r: seq<T>)
    ensures |r| <= perPage
    ensures page >= 1 && PageStart(page, perPage) <= |s| ==>
      r == s[PageStart(page, perPage)..Min(PageStart(page, perPage) + perPage, |s|)]
    ensures page >= 1 && PageStart(page, perPage) > |s| ==> r == []
  {
    var start := PageStart(page, perPage);
    var b, e := ClampIndex(start, |s|), ClampIndex(start + perPage, |s|);
    assert start >= 0 ==> e - b <= perPage;
    Slice(s, start, start + perPage)
  }

  /** Pages 1 to k laid end to end. */
  function FirstPages<T>(s: seq<T>, k: nat, perPage: nat): seq<T> {
    if k == 0 then [] else FirstPages(s, k - 1, perPage) + Page(s, k, perPage)
  }

  /** Pages 1 to k are the first k * perPage elements. */
  lemma {:induction false} FirstPagesPrefix<T>(s: seq<T>, k: nat, perPage: nat)
    ensures FirstPages(s, k, perPage) == s[..Min(k * perPage, |s|)]
  {
    if k > 0 {
      FirstPagesPrefix(s, k - 1, perPage);
      var lo := PageStart(k, perPage);
      var hi := lo + perPage;
      assert (k - 1) * perPage == lo;
      if lo <= |s| {
        assert s[..Min(hi, |s|)] == s[..lo] + s[lo..Min(hi, |s|)];
      }
    }
  }

  /** Paging loses and repeats nothing: the pages up to the page count are the whole list. */
  lemma PagesCoverAll<T>(s: seq<T>, perPage: nat)
    requires perPage > 0
    ensures FirstPages(s, PageCount(|s|, perPage), perPage) == s
  {
    FirstPagesPrefix(s, PageCount(|s|, perPage), perPage);
  }

  /** `['all', ...Array.from(new Set(values))]`. */
  function FilterOptions(values: seq<string>): (r: seq<string>)
    ensures |r| >= 1 && r[0] == "all"
    ensures forall k :: 0 <= k < |values| ==> values[k] in r
    ensures forall k :: 1 <= k < |r| ==> r[k] in values
    ensures NoDup(r[1..])
  {
    var d := Distinct(values);
    assert (["all"] + d)[1..] == d;
    ["all"] + d
  }
}
