/**
  The content operations of the store, which all act on the content list of the current slide
  (src/context/content/contentManagement.ts; src/context/ContentContext.tsx:180-303 holds the
  same code). Every operation that removes or moves an item re-stamps `order` from the final
  array position, so that `order` always equals the position.
 */
module ContentManagement {
  import opened Common
  import opened ContentTypes
  import opened SlideTypes
  import opened SeqOps

  /** The headline invariant: each item's `order` is its index in the list. */
  predicate OrdersMatchPositions(s: seq<Content>)
  {
    forall i :: 0 <= i < |s| ==> s[i].order == i
  }

  /** The ids of a content list, in list order. */
  function Ids(s: seq<Content>): (r: seq<Id>)
    ensures |r| == |s| && forall i :: 0 <= i < |s| ==> r[i] == s[i].id
  {
    seq(|s|, i requires 0 <= i < |s| => s[i].id)
  }

  /** An item with its `order` field blanked: what a re-stamp cannot change. */
  function Unordered(c: Content): Content
  {
    c.(order := 0)
  }

  function UnorderedAll(s: seq<Content>): (r: seq<Content>)
    ensures |r| == |s| && forall i :: 0 <= i < |s| ==> r[i] == Unordered(s[i])
  {
    seq(|s|, i requires 0 <= i < |s| => Unordered(s[i]))
  }

  /** `content.map((c, idx) => ({...c, order: idx}))`. */
  function Reindexed(s: seq<Content>): (r: seq<Content>)
    ensures |r| == |s| && OrdersMatchPositions(r)
    ensures UnorderedAll(r) == UnorderedAll(s)
  {
    seq(|s|, i requires 0 <= i < |s| => s[i].(order := i))
  }

  /** Re-stamping a list whose orders already match its positions changes nothing. */
  lemma ReindexedIdentity(s: seq<Content>)
    requires OrdersMatchPositions(s)
    ensures Reindexed(s) == s
  {
    assert forall i :: 0 <= i < |s| ==> Reindexed(s)[i] == s[i];
  }

  /** The filter predicate `content => content.id !== id`. */
  function ContentOtherThan(id: Id): Content -> bool
  {
    (c: Content) => c.id != id
  }

  function IdOtherThan(id: Id): Id -> bool
  {
    (x: Id) => x != id
  }

  /** Filtering items by id and filtering their ids agree. */
  lemma {:induction false} IdsOfFilter(s: seq<Content>, id: Id)
    ensures Ids(Filter(s, ContentOtherThan(id))) == Filter(Ids(s), IdOtherThan(id))
  {
    if s != [] {
      IdsOfFilter(s[1..], id);
      assert Ids(s)[1..] == Ids(s[1..]);
      var head := if s[0].id != id then [s[0]] else [];
      assert Ids(head + Filter(s[1..], ContentOtherThan(id))) == Ids(head) + Ids(Filter(s[1..], ContentOtherThan(id)));
    }
  }

  /** `slide.content.findIndex(c => c.id === id)`. */
  function ContentIndex(s: seq<Content>, id: Id): (r: int)
    ensures -1 <= r < |s|
    ensures r == -1 <==> forall k :: 0 <= k < |s| ==> s[k].id != id
    ensures r >= 0 ==> s[r].id == id && forall k :: 0 <= k < r ==> s[k].id != id
  {
    FindIndex(s, (c: Content) => c.id == id)
  }

  /** `Math.max(0, Math.min(x, n - 1))`. */
  function ClampIndex(x: int, n: int): int
  {
    if x > n - 1 then (if n - 1 < 0 then 0 else n - 1)
    else if x < 0 then 0
    else x
  }

  /**
    The block `addContent(type, partialData)` appends: the default block for the type at
    order `|s|`, overlaid with the partial data, whose `id`, `type` and `order` do not win.
   */
  function NewContent(s: seq<Content>, t: ContentType, p: ContentPatch, ids: seq<Id>): (r: Content)
    requires |ids| >= DefaultIdCount(t)
    ensures r.id == ids[0] && r.kind == t && r.order == |s| && WellTyped(r)
    ensures r.body == PatchBody(CreateDefaultContent(t, |s|, ids).body, p)
    ensures ExtraForeign(r)
    ensures Keys(r) == Overlay(Keys(CreateDefaultContent(t, |s|, ids)), p).(id := Some(ids[0]), kind := Some(t), order := Some(|s|))
  {
    MergeIsSpread(CreateDefaultContent(t, |s|, ids), p);
    Merge(CreateDefaultContent(t, |s|, ids), p).(id := ids[0], kind := t, order := |s|)
  }

  /** Appending the new block keeps the headline invariant. */
  lemma AddContentKeepsOrders(s: seq<Content>, t: ContentType, p: ContentPatch, ids: seq<Id>)
    requires |ids| >= DefaultIdCount(t) && OrdersMatchPositions(s)
    ensures OrdersMatchPositions(s + [NewContent(s, t, p, ids)])
  {
  }

  /**
    `updateContent(id, patch)` on one list: the matching items take the patch's keys except
    `id` and `type`; every other item is untouched. The patch may carry `order`.
   */
  function UpdateContent(s: seq<Content>, id: Id, p: ContentPatch): (r: seq<Content>)
    ensures |r| == |s|
    ensures forall i :: 0 <= i < |s| ==> r[i].id == s[i].id && r[i].kind == s[i].kind
    ensures forall i :: 0 <= i < |s| && s[i].id != id ==> r[i] == s[i]
    ensures forall i :: 0 <= i < |s| && s[i].id == id ==>
      r[i].body == PatchBody(s[i].body, p) && r[i].order == p.order.GetOr(s[i].order)
    ensures forall i :: 0 <= i < |s| && WellTyped(s[i]) ==> WellTyped(r[i])
  {
    seq(|s|, i requires 0 <= i < |s| =>
      if s[i].id == id then Merge(s[i], p).(id := s[i].id, kind := s[i].kind) else s[i])
  }

  /**
    On the matched blocks the update is the spread `{...content, ...contentUpdate, id, type}`, key
    by key: every key the patch carries wins except `id` and `type`, which stay the block's.
   */
  lemma UpdateContentIsSpread(s: seq<Content>, id: Id, p: ContentPatch)
    requires forall i :: 0 <= i < |s| ==> ExtraForeign(s[i])
    ensures forall i :: 0 <= i < |s| && s[i].id == id ==>
      Keys(UpdateContent(s, id, p)[i]) == Overlay(Keys(s[i]), p).(id := Some(s[i].id), kind := Some(s[i].kind))
    ensures forall i :: 0 <= i < |s| ==> ExtraForeign(UpdateContent(s, id, p)[i])
  {
    forall i | 0 <= i < |s| && s[i].id == id
      ensures Keys(UpdateContent(s, id, p)[i]) == Overlay(Keys(s[i]), p).(id := Some(s[i].id), kind := Some(s[i].kind))
    {
      MergeIsSpread(s[i], p);
    }
  }

  /** An update that does not carry `order` keeps the headline invariant; one that does may break it. */
  lemma UpdateWithoutOrderKeepsOrders(s: seq<Content>, id: Id, p: ContentPatch)
    requires OrdersMatchPositions(s) && p.order.None?
    ensures OrdersMatchPositions(UpdateContent(s, id, p))
  {
  }

  /**
    `deleteContent(id)` on one list: drop every item with the id, then re-stamp `order`.
   */
  function DeleteContent(s: seq<Content>, id: Id): (r: seq<Content>)
    ensures OrdersMatchPositions(r)
    ensures |r| <= |s|
    ensures forall i :: 0 <= i < |r| ==> r[i].id != id
    ensures UnorderedAll(r) == UnorderedAll(Filter(s, ContentOtherThan(id)))
  {
    var kept := Filter(s, ContentOtherThan(id));
    assert forall i :: 0 <= i < |kept| ==> kept[i] in kept;
    Reindexed(kept)
  }

  /** After a delete the list holds exactly the other ids, in their previous order. */
  lemma DeleteContentIds(s: seq<Content>, id: Id)
    ensures Ids(DeleteContent(s, id)) == Filter(Ids(s), IdOtherThan(id))
  {
    var kept := Filter(s, ContentOtherThan(id));
    assert Ids(Reindexed(kept)) == Ids(kept) by {
      var r := Reindexed(kept);
      forall i | 0 <= i < |kept| ensures r[i].id == kept[i].id {
        assert UnorderedAll(r)[i] == UnorderedAll(kept)[i];
      }
    }
    IdsOfFilter(s, id);
  }

  /** Deleting an id that is absent from a well-ordered list is a no-op. */
  lemma DeleteAbsentIsNoop(s: seq<Content>, id: Id)
    requires OrdersMatchPositions(s)
    requires forall k :: 0 <= k < |s| ==> s[k].id != id
    ensures DeleteContent(s, id) == s
  {
    FilterKeepsAll(s, ContentOtherThan(id));
    ReindexedIdentity(s);
  }

  /** The focus after a delete: cleared exactly when it was the deleted id. */
  function FocusAfterDelete(focus: Option<Id>, id: Id): (r: Option<Id>)
    ensures r.None? <==> focus.None? || focus == Some(id)
    ensures r.Some? ==> r == focus
  {
    if focus == Some(id) then None else focus
  }

  /**
    `reorderContent(id, newOrder)` on one list. The target is clamped into the list; an absent
    id or an unchanged position leaves the list alone (`moved` is false, the slide object is
    returned as it was). Otherwise a working copy is spliced (remove, re-insert) and re-stamped.
   */
  method ReorderContent(s: seq<Content>, id: Id, newOrder: int) returns (r: seq<Content>, moved: bool)
    ensures var from := ContentIndex(s, id);
      moved <==> from >= 0 && ClampIndex(newOrder, |s|) != from
    ensures !moved ==> r == s
    ensures moved ==>
      var from, to := ContentIndex(s, id), ClampIndex(newOrder, |s|);
      && 0 <= to < |s|
      && |r| == |s|
      && OrdersMatchPositions(r)
      && r[to] == s[from].(order := to)
      && (forall k :: 0 <= k < |s| ==> MovedIndex(k, from, to) < |r| && Unordered(r[MovedIndex(k, from, to)]) == Unordered(s[k]))
      && multiset(UnorderedAll(r)) == multiset(UnorderedAll(s))
  {
    var oldIndex := ContentIndex(s, id);
    if oldIndex == -1 {
      return s, false;
    }
    var targetIndex := ClampIndex(newOrder, |s|);
    if oldIndex == targetIndex {
      return s, false;
    }
    var workingContent := s;
    var movedItem := workingContent[oldIndex];
    workingContent := RemoveAt(workingContent, oldIndex);
    workingContent := InsertAt(workingContent, targetIndex, movedItem);
    assert workingContent == SpliceMove(s, oldIndex, targetIndex);
    r, moved := Reindexed(workingContent), true;
    MoveThenReindex(s, oldIndex, targetIndex);
  }

  /** A splice-move followed by a re-stamp: every item lands at its `MovedIndex`, none is lost or duplicated. */
  lemma MoveThenReindex(s: seq<Content>, from: nat, to: nat)
    requires from < |s| && to < |s|
    ensures var r := Reindexed(SpliceMove(s, from, to));
      && r[to] == s[from].(order := to)
      && (forall k :: 0 <= k < |s| ==> MovedIndex(k, from, to) < |r| && Unordered(r[MovedIndex(k, from, to)]) == Unordered(s[k]))
      && multiset(UnorderedAll(r)) == multiset(UnorderedAll(s))
  {
    var w := SpliceMove(s, from, to);
    var r := Reindexed(w);
    forall k | 0 <= k < |s|
      ensures MovedIndex(k, from, to) < |r| && Unordered(r[MovedIndex(k, from, to)]) == Unordered(s[k])
    {
      SpliceMoveAt(s, from, to, k);
      var j := MovedIndex(k, from, to);
      assert UnorderedAll(r)[j] == UnorderedAll(w)[j];
    }
    assert UnorderedAll(w) == SpliceMove(UnorderedAll(s), from, to) by {
      forall i | 0 <= i < |s| ensures UnorderedAll(w)[i] == SpliceMove(UnorderedAll(s), from, to)[i] {
        SpliceMoveFrom(s, from, to, i);
        SpliceMoveFrom(UnorderedAll(s), from, to, i);
      }
    }
    SpliceMovePermutes(UnorderedAll(s), from, to);
  }

  /**
    `currentSlides.map((slide, index) => index === currentSlideIndex ? {...slide, content} : slide)`:
    only the slide at the current index changes, and only its content list.
   */
  function WithCurrentContent(slides: seq<Slide>, cur: int, content: seq<Content>): (r: seq<Slide>)
    ensures |r| == |slides|
    ensures forall i :: 0 <= i < |slides| && i != cur ==> r[i] == slides[i]
    ensures 0 <= cur < |slides| ==> r[cur] == slides[cur].(content := Some(content))
  {
    seq(|slides|, i requires 0 <= i < |slides| => if i == cur then slides[i].(content := Some(content)) else slides[i])
  }
}
