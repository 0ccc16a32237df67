/**
  A content block's controls on the canvas (src/components/ContentCreator/Canvas/ContentItem.tsx):
  the move-up and move-down buttons, which ask the document store for a one-step reorder unless
  the block is already at the edge, the focus ring, and the click that focuses the block outside
  edit mode.
 */
module ContentItem {
  import opened Common
  import opened ContentTypes
  import opened ContentManagement
  import ContentContext

  /** `focusedContentId === content.id`: a null focus matches no block. */
  predicate IsFocused(focused: Option<Id>, id: Id)
  {
    focused.Some? && focused.value == id
  }

  /** The order move-up asks for: one less, or nothing at order 0 (or below). */
  function MoveUpTarget(currentOrder: int): (r: Option<int>)
    ensures r.Some? <==> currentOrder > 0
    ensures r.Some? ==> r.value == currentOrder - 1 && r.value >= 0
  {
    if currentOrder > 0 then Some(currentOrder - 1) else None
  }

  /** The order move-down asks for: one more, or nothing at the last position (or beyond). */
  function MoveDownTarget(currentOrder: int, count: nat): (r: Option<int>)
    ensures r.Some? <==> currentOrder < count - 1
    ensures r.Some? ==> r.value == currentOrder + 1 && r.value < count
  {
    if currentOrder < count - 1 then Some(currentOrder + 1) else None
  }

  /**
    For a block found at position `k` of a slide, a one-step move to a neighbouring position
    really moves it there: the clamp leaves the target alone and it differs from `k`.
   */
  lemma NeighbourMoveMoves(s: seq<Content>, id: Id, k: int, target: int)
    requires ContentIndex(s, id) == k && 0 <= k && 0 <= target < |s| && (target == k - 1 || target == k + 1)
    ensures ClampIndex(target, |s|) == target && target != ContentIndex(s, id)
  {
  }

  /**
    `handleMoveUp(id, currentOrder)`: at order 0 nothing happens; otherwise the store reorders
    the block to `currentOrder - 1`. When the block's order is its position, it lands there.
   */
  method HandleMoveUp(store: ContentContext.ContentStore, id: Id, currentOrder: int)
    modifies store`presentation
    ensures currentOrder <= 0 ==> store.presentation == old(store.presentation)
    ensures old(store.CurrentSlide()).Some? && currentOrder > 0 && ContentIndex(old(store.CurrentSlideContents()), id) == currentOrder ==>
      && |store.CurrentSlideContents()| == |old(store.CurrentSlideContents())|
      && store.CurrentSlideContents()[currentOrder - 1] == old(store.CurrentSlideContents())[currentOrder].(order := currentOrder - 1)
      && store.CurrentSlideContents()[currentOrder] == old(store.CurrentSlideContents())[currentOrder - 1].(order := currentOrder)
      && (forall k :: 0 <= k < |store.CurrentSlideContents()| && k != currentOrder - 1 && k != currentOrder ==>
            Unordered(store.CurrentSlideContents()[k]) == Unordered(old(store.CurrentSlideContents())[k]))
      && OrdersMatchPositions(store.CurrentSlideContents())
  {
    var target := MoveUpTarget(currentOrder);
    if target.Some? {
      var s := store.CurrentSlideContents();
      if store.CurrentSlide().Some? && 0 <= currentOrder && ContentIndex(s, id) == currentOrder {
        NeighbourMoveMoves(s, id, currentOrder, target.value);
      }
      store.ReorderContent(id, target.value);
    }
  }

  /**
    `handleMoveDown(id, currentOrder)`: at the last position nothing happens; otherwise the store
    reorders the block to `currentOrder + 1`, where it lands when its order is its position.
   */
  method HandleMoveDown(store: ContentContext.ContentStore, id: Id, currentOrder: int)
    modifies store`presentation
    ensures currentOrder >= |old(store.CurrentSlideContents())| - 1 ==> store.presentation == old(store.presentation)
    ensures (old(store.CurrentSlide()).Some? && 0 <= currentOrder < |old(store.CurrentSlideContents())| - 1
             && ContentIndex(old(store.CurrentSlideContents()), id) == currentOrder) ==>
      && |store.CurrentSlideContents()| == |old(store.CurrentSlideContents())|
      && store.CurrentSlideContents()[currentOrder + 1] == old(store.CurrentSlideContents())[currentOrder].(order := currentOrder + 1)
      && store.CurrentSlideContents()[currentOrder] == old(store.CurrentSlideContents())[currentOrder + 1].(order := currentOrder)
      && (forall k :: 0 <= k < |store.CurrentSlideContents()| && k != currentOrder && k != currentOrder + 1 ==>
            Unordered(store.CurrentSlideContents()[k]) == Unordered(old(store.CurrentSlideContents())[k]))
      && OrdersMatchPositions(store.CurrentSlideContents())
  {
    var target := MoveDownTarget(currentOrder, |store.CurrentSlideContents()|);
    if target.Some? {
      var s := store.CurrentSlideContents();
      if store.CurrentSlide().Some? && 0 <= currentOrder && ContentIndex(s, id) == currentOrder {
        NeighbourMoveMoves(s, id, currentOrder, target.value);
      }
      store.ReorderContent(id, target.value);
    }
  }

  /** `handleClick()`: outside edit mode the block becomes the focused one; in edit mode nothing changes. */
  method HandleClick(store: ContentContext.ContentStore, id: Id)
    modifies store`focusedContentId
    ensures old(store.editMode) ==> store.focusedContentId == old(store.focusedContentId)
    ensures !old(store.editMode) ==> IsFocused(store.focusedContentId, id)
    ensures !old(store.editMode) ==> forall other :: other != id ==> !IsFocused(store.focusedContentId, other)
  {
    if !store.editMode {
      store.SetFocusedContentId(Some(id));
    }
  }
}
