/**
  The flat content store (src/context/ContentManagementContext.tsx): one list of content blocks
  with no slides. Unlike the slide store it builds new blocks from per-type `||` fallbacks, merges
  updates without protecting `id` or `type`, and reorders by rewriting `order` fields while the
  array positions stay where they are.
 */
module ContentManagementContext {
  import opened Common
  import opened ContentTypes
  import opened SeqOps
  import opened ContentManagement

  /**
    The block `addContent(contentData)` appends, for the tag `t` of the data. Missing or falsy
    fields fall back: '' for strings, level 2, grid columns and rows 3, button variant 'default',
    empty header, row and item lists. The image and spacer tags have no case and become an empty
    text block.
   */
  function FallbackContent(t: ContentType, p: ContentPatch, id: Id, order: int): (r: Content)
    ensures r.id == id && r.order == order && WellTyped(r)
    ensures r.kind == (if t == Image || t == Spacer then Text else t)
    ensures r.extra == EmptyPatch
    ensures t == Text ==> r.body == TextBody(OrString(p.content, ""))
    ensures t == Title ==> r.body == TitleBody(OrString(p.content, ""), OrNumber(p.level, 2))
    ensures t == Table ==> r.body == TableBody(p.headers.GetOr([]), p.rows.GetOr([]), None, None)
    ensures t == Button ==> r.body == ButtonBody(OrString(p.text, ""), OrString(p.url, ""), Some(p.variant.GetOr(Default)), None)
    ensures t == Card ==> r.body == CardBody(Some(OrString(p.title, "")), OrString(p.content, ""), p.imageUrl, None, None)
    ensures t == Grid ==> r.body == GridBody(OrNumber(p.columns, 3), Some(OrNumber(p.gridRows, 3)), None, p.items.GetOr([]))
    ensures t == Image || t == Spacer ==> r.body == TextBody("")
  {
    match t
    case Text => Content(id, Text, order, TextBody(OrString(p.content, "")), EmptyPatch)
    case Title => Content(id, Title, order, TitleBody(OrString(p.content, ""), OrNumber(p.level, 2)), EmptyPatch)
    case Table => Content(id, Table, order, TableBody(p.headers.GetOr([]), p.rows.GetOr([]), None, None), EmptyPatch)
    case Button =>
      Content(id, Button, order, ButtonBody(OrString(p.text, ""), OrString(p.url, ""), Some(p.variant.GetOr(Default)), None), EmptyPatch)
    case Card => Content(id, Card, order, CardBody(Some(OrString(p.title, "")), OrString(p.content, ""), p.imageUrl, None, None), EmptyPatch)
    case Grid =>
      Content(id, Grid, order, GridBody(OrNumber(p.columns, 3), Some(OrNumber(p.gridRows, 3)), None, p.items.GetOr([])), EmptyPatch)
    case Image => Content(id, Text, order, TextBody(""), EmptyPatch)
    case Spacer => Content(id, Text, order, TextBody(""), EmptyPatch)
  }

  /** A title level of 0 is falsy and becomes 2; so does a missing one. */
  lemma TitleLevelFallback(p: ContentPatch, id: Id, order: int)
    requires p.level == Some(0) || p.level.None?
    ensures FallbackContent(Title, p, id, order).body.level == 2
  {
  }

  /** `updateContent(id, patch)`: the plain spread, under which `id`, `type` and `order` may all change. */
  function FlatUpdate(s: seq<Content>, id: Id, p: ContentPatch): (r: seq<Content>)
    ensures |r| == |s|
    ensures forall i :: 0 <= i < |s| && s[i].id != id ==> r[i] == s[i]
    ensures forall i :: 0 <= i < |s| && s[i].id == id ==>
      r[i].id == p.id.GetOr(id) && r[i].kind == p.kind.GetOr(s[i].kind) && r[i].order == p.order.GetOr(s[i].order)
      && r[i].body == PatchBody(s[i].body, p)
  {
    seq(|s|, i requires 0 <= i < |s| => if s[i].id == id then Merge(s[i], p) else s[i])
  }

  /** On the matched blocks the update is the spread `{...content, ...contentUpdate}`, key by key. */
  lemma FlatUpdateIsSpread(s: seq<Content>, id: Id, p: ContentPatch)
    requires forall i :: 0 <= i < |s| ==> ExtraForeign(s[i])
    ensures forall i :: 0 <= i < |s| && s[i].id == id ==> Keys(FlatUpdate(s, id, p)[i]) == Overlay(Keys(s[i]), p)
    ensures forall i :: 0 <= i < |s| ==> ExtraForeign(FlatUpdate(s, id, p)[i])
  {
    forall i | 0 <= i < |s| && s[i].id == id
      ensures Keys(FlatUpdate(s, id, p)[i]) == Overlay(Keys(s[i]), p)
    {
      MergeIsSpread(s[i], p);
    }
  }

  /**
    The plain spread can retag a text block without touching its payload record, so tag and
    payload disagree; the object nevertheless carries every key of a title, and with the level
    the patch supplies it reads as a well-formed title block.
   */
  lemma FlatUpdateCanRetag(c: Content, level: int)
    requires WellTyped(c) && c.kind == Text && ExtraForeign(c)
    ensures var r := FlatUpdate([c], c.id, EmptyPatch.(kind := Some(Title), level := Some(level)));
      && r[0].kind == Title && !WellTyped(r[0])
      && BodyFromKeys(Keys(r[0]), Title) == Some(TitleBody(c.body.content, level))
  {
    MergeIsSpread(c, EmptyPatch.(kind := Some(Title), level := Some(level)));
  }

  /**
    The order a block other than the moved one gets: a forward move shifts the blocks in
    (old, new] down by one, a backward move shifts the blocks in [new, old) up by one.
   */
  function ShiftedOrder(o: int, oldOrder: int, newOrder: int): int
  {
    if oldOrder < newOrder && o > oldOrder && o <= newOrder then o - 1
    else if oldOrder > newOrder && o < oldOrder && o >= newOrder then o + 1
    else o
  }

  /** The new order of a block whose order was `o`, the moved block being the one at `oldOrder`. */
  function ReorderedOrder(o: int, oldOrder: int, newOrder: int): int
  {
    if o == oldOrder then newOrder else ShiftedOrder(o, oldOrder, newOrder)
  }

  /** The order map is one-to-one and maps [0, n) into itself when both orders are in [0, n). */
  lemma ReorderedOrderBijective(o1: int, o2: int, oldOrder: int, newOrder: int, n: int)
    ensures o1 != o2 ==> ReorderedOrder(o1, oldOrder, newOrder) != ReorderedOrder(o2, oldOrder, newOrder)
    ensures 0 <= o1 < n && 0 <= oldOrder < n && 0 <= newOrder < n ==> 0 <= ReorderedOrder(o1, oldOrder, newOrder) < n
  {
  }

  /**
    `reorderContent(id, newOrder)`: find the first block with the id; absent, or already at
    `newOrder`: no change. Otherwise every block with the id gets `newOrder` and the blocks
    between the old and the new order shift by one towards the gap. Positions, ids and payloads
    stay as they are.
   */
  function ArithmeticReorder(s: seq<Content>, id: Id, newOrder: int): (r: seq<Content>)
    ensures |r| == |s|
    ensures UnorderedAll(r) == UnorderedAll(s)
    ensures ContentIndex(s, id) == -1 ==> r == s
    ensures ContentIndex(s, id) >= 0 && s[ContentIndex(s, id)].order == newOrder ==> r == s
    ensures ContentIndex(s, id) >= 0 && s[ContentIndex(s, id)].order != newOrder ==>
      forall i :: 0 <= i < |s| && s[i].id == id ==> r[i].order == newOrder
  {
    var k := ContentIndex(s, id);
    if k == -1 then s
    else
      var oldOrder := s[k].order;
      if oldOrder == newOrder then s
      else
        seq(|s|, i requires 0 <= i < |s| =>
          if s[i].id == id then s[i].(order := newOrder)
          else s[i].(order := ShiftedOrder(s[i].order, oldOrder, newOrder)))
  }

  /** The orders are exactly 0 .. n-1: each in range, no two equal. */
  predicate OrdersArePermutation(s: seq<Content>)
  {
    && (forall i :: 0 <= i < |s| ==> 0 <= s[i].order < |s|)
    && (forall i, j :: 0 <= i < j < |s| ==> s[i].order != s[j].order)
  }

  predicate UniqueContentIds(s: seq<Content>)
  {
    forall i, j :: 0 <= i < j < |s| ==> s[i].id != s[j].id
  }

  /** A list whose orders are its positions has orders 0 .. n-1. */
  lemma PositionsArePermutation(s: seq<Content>)
    requires OrdersMatchPositions(s)
    ensures OrdersArePermutation(s)
  {
  }

  /**
    With distinct ids, orders 0 .. n-1 and a target inside the list, the reorder keeps the orders
    a permutation of 0 .. n-1 and gives the moved block the target order.
   */
  lemma ArithmeticReorderPermutes(s: seq<Content>, id: Id, newOrder: int)
    requires UniqueContentIds(s) && OrdersArePermutation(s)
    requires 0 <= newOrder < |s|
    ensures OrdersArePermutation(ArithmeticReorder(s, id, newOrder))
    ensures ContentIndex(s, id) >= 0 ==> ArithmeticReorder(s, id, newOrder)[ContentIndex(s, id)].order == newOrder
  {
    var k := ContentIndex(s, id);
    if k >= 0 && s[k].order != newOrder {
      var r := ArithmeticReorder(s, id, newOrder);
      var oldOrder := s[k].order;
      forall i | 0 <= i < |s|
        ensures r[i].order == ReorderedOrder(s[i].order, oldOrder, newOrder)
      {
        if s[i].id == id {
          assert i == k;
        } else {
          assert i != k;
        }
      }
      forall i, j | 0 <= i < j < |s| ensures r[i].order != r[j].order {
        ReorderedOrderBijective(s[i].order, s[j].order, oldOrder, newOrder, |s|);
      }
      forall i | 0 <= i < |s| ensures 0 <= r[i].order < |s| {
        ReorderedOrderBijective(s[i].order, s[i].order, oldOrder, newOrder, |s|);
      }
    }
  }

  /**
    On a list whose orders are its positions and whose ids are distinct, the arithmetic reorder
    gives every block the order the splice-move of the hook would give its position: the moved
    block gets `newOrder`, the blocks between shift by one towards the gap, the rest keep theirs.
   */
  lemma ArithmeticReorderIsMove(s: seq<Content>, id: Id, newOrder: int)
    requires UniqueContentIds(s) && OrdersMatchPositions(s)
    requires 0 <= newOrder < |s|
    ensures ContentIndex(s, id) >= 0 ==>
      forall i :: 0 <= i < |s| ==> ArithmeticReorder(s, id, newOrder)[i].order == MovedIndex(i, ContentIndex(s, id), newOrder)
  {
    var k := ContentIndex(s, id);
    if k >= 0 {
      var r := ArithmeticReorder(s, id, newOrder);
      forall i | 0 <= i < |s| ensures r[i].order == MovedIndex(i, k, newOrder) {
        if s[k].order != newOrder && s[i].id == id {
          assert i == k;
        }
      }
    }
  }

  class FlatContentStore {
    var contents: seq<Content>
    var focusedContentId: Option<Id>
    var editMode: bool
    /** The zoom level in quarter steps: 4 is a zoom of 1. */
    var zoomQuarters: int

    /** No blocks, nothing focused, not in edit mode, zoom 1. */
    constructor()
      ensures contents == [] && focusedContentId.None? && !editMode && zoomQuarters == 4
    {
      contents := [];
      focusedContentId := None;
      editMode := false;
      zoomQuarters := 4;
    }

    /** `addContent(contentData)`: append the fallback block for the data's tag at order = length. */
    method AddContent(t: ContentType, p: ContentPatch, freshId: Id)
      modifies this`contents
      ensures contents == old(contents) + [FallbackContent(t, p, freshId, |old(contents)|)]
      ensures old(OrdersMatchPositions(contents)) ==> OrdersMatchPositions(contents)
    {
      contents := contents + [FallbackContent(t, p, freshId, |contents|)];
    }

    method UpdateContent(id: Id, p: ContentPatch)
      modifies this`contents
      ensures contents == FlatUpdate(old(contents), id, p)
    {
      contents := FlatUpdate(contents, id, p);
    }

    /** `deleteContent(id)`: drop every block with the id and re-stamp `order` from the position. */
    method DeleteContent(id: Id)
      modifies this`contents
      ensures contents == ContentManagement.DeleteContent(old(contents), id)
      ensures OrdersMatchPositions(contents) && OrdersArePermutation(contents)
      ensures Ids(contents) == Filter(Ids(old(contents)), IdOtherThan(id))
      ensures UnorderedAll(contents) == UnorderedAll(Filter(old(contents), ContentOtherThan(id)))
    {
      DeleteContentIds(contents, id);
      contents := ContentManagement.DeleteContent(contents, id);
      PositionsArePermutation(contents);
    }

    /** `reorderContent(id, newOrder)`: rewrite the `order` fields; positions never move. */
    method ReorderContent(id: Id, newOrder: int)
      modifies this`contents
      ensures contents == ArithmeticReorder(old(contents), id, newOrder)
      ensures UnorderedAll(contents) == UnorderedAll(old(contents))
      ensures old(UniqueContentIds(contents) && OrdersArePermutation(contents)) && 0 <= newOrder < |contents| ==>
        OrdersArePermutation(contents)
      ensures old(UniqueContentIds(contents) && OrdersMatchPositions(contents)) && 0 <= newOrder < |contents|
              && ContentIndex(old(contents), id) >= 0 ==>
        forall i :: 0 <= i < |contents| ==> contents[i].order == MovedIndex(i, ContentIndex(old(contents), id), newOrder)
    {
      if UniqueContentIds(contents) && OrdersArePermutation(contents) && 0 <= newOrder < |contents| {
        ArithmeticReorderPermutes(contents, id, newOrder);
      }
      if UniqueContentIds(contents) && OrdersMatchPositions(contents) && 0 <= newOrder < |contents| {
        ArithmeticReorderIsMove(contents, id, newOrder);
      }
      contents := ArithmeticReorder(contents, id, newOrder);
    }

    method SetFocusedContentId(id: Option<Id>)
      modifies this`focusedContentId
      ensures focusedContentId == id
    {
      focusedContentId := id;
    }

    method SetEditMode(mode: bool)
      modifies this`editMode
      ensures editMode == mode
    {
      editMode := mode;
    }

    method SetZoomLevel(quarters: int)
      modifies this`zoomQuarters
      ensures zoomQuarters == quarters
    {
      zoomQuarters := quarters;
    }
  }
}
