/**
 * The tag input shared by the new-idea and new-project forms
 * (handleAddTag / handleDeleteTag): at most five distinct, non-empty tags.
 */
module TagEditor {
  import opened Seqs

  const MaxTags := 5

  /** What the form guarantees about its tag list. */
  predicate WellFormedTags(tags: seq<string>) {
    |tags| <= MaxTags && NoDup(tags) && forall k :: 0 <= k < |tags| ==> tags[k] != ""
  }

  /** The add button takes the input only when it is non-empty, new, and there is room. */
  predicate Accepts(tags: seq<string>, input: string) {
    input != "" && input !in tags && |tags| < MaxTags
  }

  /** handleAddTag: the new tag list and the new contents of the input box. */
  function AddTag(tags: seq<string>, input: string): (r: (seq<string>, string))
    ensures Accepts(tags, input) ==> r.0 == tags + [input] && r.1 == ""
    ensures !Accepts(tags, input) ==> r == (tags, input)
    ensures WellFormedTags(tags) ==> WellFormedTags(r.0)
  {
    if Accepts(tags, input) then (tags + [input], "") else (tags, input)
  }

  /** handleDeleteTag: every occurrence of the tag removed, the others kept. */
  function DeleteTag(tags: seq<string>, tag: string): (r: seq<string>)
    ensures tag !in r
    ensures forall k :: 0 <= k < |tags| && tags[k] != tag ==> tags[k] in r
    ensures forall k :: 0 <= k < |r| ==> r[k] in tags
    ensures WellFormedTags(tags) ==> WellFormedTags(r)
  {
    FilterNoDup(tags, (t: string) => t != tag);
    Filter(tags, (t: string) => t != tag)
  }

  /** Filtering keeps a list free of duplicates. */
  lemma {:induction false} FilterNoDup<T>(s: seq<T>, p: T -> bool)
    ensures NoDup(s) ==> NoDup(Filter(s, p))
  {
    if s != [] && NoDup(s) {
      FilterNoDup(s[1..], p);
      var rest := Filter(s[1..], p);
      assert s[0] !in s[1..];
      assert s[0] !in rest;
    }
  }

  /** Deleting a tag that was just added gives back the list from before. */
  lemma {:induction false} AddThenDelete(tags: seq<string>, input: string)
    requires Accepts(tags, input)
    ensures DeleteTag(AddTag(tags, input).0, input) == tags
  {
    var p := (t: string) => t != input;
    FilterAppend(tags, [input], p);
    FilterKeepsAll(tags, p);
    assert Filter([input], p) == [];
  }

  /** Deleting a tag keeps the tags before and after it, in their order. */
  lemma {:induction false} DeleteKeepsOrder(a: seq<string>, b: seq<string>, tag: string)
    requires tag !in a && tag !in b
    ensures DeleteTag(a + [tag] + b, tag) == a + b
  {
    var p := (t: string) => t != tag;
    assert Filter(a + [tag], p) == a by {
      FilterAppend(a, [tag], p);
      FilterKeepsAll(a, p);
      assert Filter([tag], p) == [];
    }
    assert Filter(b, p) == b by {
      FilterKeepsAll(b, p);
    }
    FilterAppend(a + [tag], b, p);
  }

  /** Deleting a tag that is not in the list changes nothing. */
  lemma DeleteAbsent(tags: seq<string>, tag: string)
    requires tag !in tags
    ensures DeleteTag(tags, tag) == tags
  {
    FilterKeepsAll(tags, (t: string) => t != tag);
  }

  /** A full list refuses every further tag. */
  lemma FullListRefuses(tags: seq<string>, input: string)
    requires |tags| == MaxTags
    ensures AddTag(tags, input) == (tags, input)
  {
  }
}
