/** Target-post selection on the jackpots screen: toggling one post by `id`,
    select-all / deselect-all, and the guard on continuing. */
module JackpotsPage {
  import opened Common
  import opened SearchContext

  /** `selectedPosts.find(p => p.id === id)` found something. */
  predicate IsSelected(selected: seq<Post>, id: string) {
    exists p :: p in selected && p.id == id
  }

  /** `selected.filter(p => p.id !== id)`. */
  function RemoveId(selected: seq<Post>, id: string): (r: seq<Post>)
    ensures forall p :: p in r <==> p in selected && p.id != id
    ensures !IsSelected(r, id)
    ensures !IsSelected(selected, id) ==> r == selected
  {
    if |selected| == 0 then []
    else if selected[0].id == id then RemoveId(selected[1..], id)
    else [selected[0]] + RemoveId(selected[1..], id)
  }

  /** Removing by `id` keeps the surviving entries in their order: it works
      piecewise on a concatenation. */
  lemma {:induction false} RemoveIdConcat(a: seq<Post>, b: seq<Post>, id: string)
    ensures RemoveId(a + b, id) == RemoveId(a, id) + RemoveId(b, id)
  {
    if |a| > 0 {
      assert (a + b)[1..] == a[1..] + b;
      RemoveIdConcat(a[1..], b, id);
    } else {
      assert a + b == b;
    }
  }

  /** `togglePost(post)`. */
  function TogglePost(selected: seq<Post>, post: Post): (r: seq<Post>)
    ensures IsSelected(selected, post.id) ==> r == RemoveId(selected, post.id)
    ensures IsSelected(selected, post.id) ==>
              && !IsSelected(r, post.id)
              && forall p :: p in r <==> p in selected && p.id != post.id
    ensures !IsSelected(selected, post.id) ==> r == selected + [post]
    ensures IsSelected(r, post.id) <==> !IsSelected(selected, post.id)
  {
    if IsSelected(selected, post.id) then RemoveId(selected, post.id)
    else
      assert post in selected + [post];
      selected + [post]
  }

  /** Toggling a post that was not selected, twice, gives back exactly the
      original selection. */
  lemma ToggleTwice(selected: seq<Post>, post: Post)
    requires !IsSelected(selected, post.id)
    ensures TogglePost(TogglePost(selected, post), post) == selected
  {
    var once := selected + [post];
    assert post in once;
    RemoveIdConcat(selected, [post], post.id);
    assert RemoveId([post], post.id) == [];
  }

  /** No two selected entries share an `id`. */
  predicate DistinctIds(selected: seq<Post>) {
    forall i, j :: 0 <= i < j < |selected| ==> selected[i].id != selected[j].id
  }

  lemma {:induction false} RemoveIdKeepsDistinct(selected: seq<Post>, id: string)
    requires DistinctIds(selected)
    ensures DistinctIds(RemoveId(selected, id))
  {
    if |selected| > 0 {
      RemoveIdKeepsDistinct(selected[1..], id);
      if selected[0].id != id {
        var rest := RemoveId(selected[1..], id);
        assert forall p :: p in rest ==> p in selected[1..];
        assert forall p :: p in selected[1..] ==> p.id != selected[0].id;
        assert [selected[0]] + rest == RemoveId(selected, id);
      }
    }
  }

  /** Toggling never introduces a second entry with the same `id`. */
  lemma ToggleKeepsDistinct(selected: seq<Post>, post: Post)
    requires DistinctIds(selected)
    ensures DistinctIds(TogglePost(selected, post))
  {
    if IsSelected(selected, post.id) {
      RemoveIdKeepsDistinct(selected, post.id);
    } else {
      var r := selected + [post];
      forall i | 0 <= i < |selected| ensures r[i].id != post.id {
        assert r[i] in selected;
      }
    }
  }

  /** `handleSelectAll`: clears the selection when it is as long as the
      result list, and otherwise selects a copy of the results. Only the
      lengths are compared. */
  function SelectAll(selected: seq<Post>, results: seq<Post>): (r: seq<Post>)
    ensures |selected| == |results| ==> r == []
    ensures |selected| != |results| ==> r == results
  {
    if |selected| == |results| then [] else results
  }

  /** Select-all looks at the length of the selection only, not at which
      posts are in it. */
  lemma SelectAllSeesOnlyLength(a: seq<Post>, b: seq<Post>, results: seq<Post>)
    requires |a| == |b|
    ensures SelectAll(a, results) == SelectAll(b, results)
  {
  }

  /** With at least one result, pressing select-all twice from a full
      selection selects everything again, and from nothing clears it. */
  lemma SelectAllTwice(selected: seq<Post>, results: seq<Post>)
    requires |results| > 0
    ensures |selected| == |results| ==> SelectAll(SelectAll(selected, results), results) == results
    ensures |selected| != |results| ==> SelectAll(SelectAll(selected, results), results) == []
  {
  }

  /** `handleContinue`: on to reply generation, unless nothing is selected. */
  function Continue(selected: seq<Post>): (e: Effect)
    ensures e == Stay <==> |selected| == 0
    ensures e != Stay ==> e == Navigate("/generate")
  {
    if |selected| == 0 then Stay else Navigate("/generate")
  }
}
