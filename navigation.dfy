/** The decision `navigate` takes between seeking, replacing the top,
    pushing and collapsing the history state list. */
module Navigation {
  import opened Routes

  /** What `navigate` does with `window.history`. */
  datatype Action =
    | /** `go(offset)` when `offset` is non-zero, nothing otherwise; `cb` is not called */
      Seek(offset: int)
    | /** `replaceState(state)`, then `cb()` */
      ReplaceTop(state: seq<Desc>)
    | /** `pushState(state, "", url)`, then `cb()` */
      Push(state: seq<Desc>)
    | /** `go(-back)` and, on the following popstate, `replaceState(state, "", url)`
          and `cb()`; with `back == 0` the replacement and `cb()` happen at once */
      Collapse(back: nat, state: seq<Desc>)
    | /** the state list is empty: reading `currentState.id` throws */
      NoTop

  /** `stateList.findIndex(data => data.id === id)` */
  function FindIndex(list: seq<Desc>, id: Template): (i: int)
    ensures -1 <= i < |list|
    ensures i >= 0 ==> list[i].id == id && forall j :: 0 <= j < i ==> list[j].id != id
    ensures i == -1 <==> forall j :: 0 <= j < |list| ==> list[j].id != id
  {
    if list == [] then -1
    else if list[0].id == id then 0
    else var k := FindIndex(list[1..], id); if k == -1 then -1 else k + 1
  }

  /** What `[...list].splice(start, 1, item)` returns: the removed element
      (the inserted item only changes the copy, which is discarded). */
  function SpliceRemoved(list: seq<Desc>, start: int): (r: seq<Desc>)
    ensures 0 <= start < |list| ==> r == [list[start]]
  {
    if 0 <= start < |list| then list[start..start + 1] else []
  }

  /** The branch `navigate` takes for target `next` when `history.state` is
      `list`. The branches are tried in the order of the source; the
      same-id-as-top test comes after `findIndex`, which has already matched
      the top, so it never fires. */
  function Decide(list: seq<Desc>, next: Desc): (a: Action)
    ensures a.Seek? <==> exists j :: 0 <= j < |list| && list[j].id == next.id
    ensures a.Seek? ==> var i := FindIndex(list, next.id);
      a.offset == i - (|list| - 1) && a.offset <= 0 && (a.offset == 0 <==> i == |list| - 1)
    ensures !a.ReplaceTop?
    ensures a.NoTop? <==> list == []
    ensures a.Push? <==> !a.Seek? && list != [] && next.order >= list[|list| - 1].order
    ensures a.Push? ==> a.state == list + [next] && |a.state| == |list| + 1
    ensures a.Collapse? <==> !a.Seek? && list != [] && next.order < list[|list| - 1].order
    ensures a.Collapse? ==> a.back == |list| - 1 && a.state == [next]
  {
    var i := FindIndex(list, next.id);
    if i > -1 then Seek(-(|list| - i - 1))
    else if list == [] then NoTop
    else
      var top := list[|list| - 1];
      if next.id == top.id then ReplaceTop(SpliceRemoved(list, |list| - 1))
      else if next.order >= top.order then Push(list + [next])
      else Collapse(|list| - 1, [next])
  }

  /** The unreachable replace branch, as written, would store the old top
      alone instead of the list with its top replaced. */
  lemma ReplaceBranchAsWritten(list: seq<Desc>, next: Desc)
    requires list != [] && next != list[|list| - 1]
    ensures SpliceRemoved(list, |list| - 1) == [list[|list| - 1]]
    ensures SpliceRemoved(list, |list| - 1) != list[..|list| - 1] + [next]
  {
    var r := SpliceRemoved(list, |list| - 1);
    if |list| == 1 {
      assert (list[..0] + [next])[0] == next;
    }
  }
}
