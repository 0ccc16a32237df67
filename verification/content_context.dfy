/**
  The document store the editor components use (src/context/ContentContext.tsx): the loaded
  presentation, the current slide index, the focused content id, the edit and presentation
  flags and the zoom level. Every action is one sequential step on this state. Slide and
  content actions reach the slides only through `updatePresentationSlides`, which does nothing
  while no presentation is loaded.

  The slide and content logic is the hooks' (modules SlideManagement and ContentManagement),
  except `reorderSlide`, whose current-index rule differs from the hook's: it is kept here as
  written (AsWrittenIndex).
 */
module ContentContext {
  import opened Common
  import opened ContentTypes
  import opened SlideTypes
  import opened SeqOps
  import SlideManagement
  import opened ContentManagement
  import PresentationMode

  /**
    The index `reorderSlide` selects (src/context/ContentContext.tsx:159-167): a forward move of
    the current slide selects `target - 1`, otherwise the rule follows the current slide, and
    the result is clamped into the list.
   */
  function AsWrittenIndex(cur: int, src: nat, tgt: nat, n: nat): (r: int)
    requires src < n
    ensures 0 <= r < n
    ensures cur == src && src < tgt ==> r == (if tgt - 1 > n - 1 then n - 1 else tgt - 1)
    ensures cur == src && tgt < src ==> r == tgt
  {
    var c := if cur == src then (if tgt > src then tgt - 1 else tgt)
             else if src < cur && tgt >= cur then cur - 1
             else if src > cur && tgt <= cur then cur + 1
             else cur;
    if c > n - 1 then n - 1 else if c < 0 then 0 else c
  }

  /**
    The rule as written agrees with the hook's following rule except when the current slide is
    moved forward to a target inside the list.
   */
  lemma AsWrittenIndexAgreement(cur: int, src: nat, tgt: nat, n: nat)
    requires src < n && tgt <= n && src != tgt
    ensures AsWrittenIndex(cur, src, tgt, n) == SlideManagement.TrackedIndex(cur, src, tgt, n)
        <==> !(cur == src && src < tgt < n)
  {
  }

  /**
    The as-written rule loses the moved slide: after moving the current slide forward to a
    target inside the list, the selected slide is the one that was at the target, not the one
    moved (slides A, B, C with A current and `reorderSlide(0, 2)` give B, C, A with C selected).
   */
  lemma AsWrittenIndexLosesMovedSlide(slides: seq<Slide>, src: nat, tgt: nat)
    requires UniqueIds(slides) && src < tgt < |slides|
    ensures var r := SpliceMove(slides, src, tgt);
      var i := AsWrittenIndex(src, src, tgt, |slides|);
      r[i] == slides[tgt] && r[i] != slides[src]
  {
    SpliceMoveFrom(slides, src, tgt, tgt - 1);
  }

  /** The slide at the index the rule selects is the previously current one when that slide was not moved. */
  lemma AsWrittenIndexFollowsUnmoved(slides: seq<Slide>, cur: nat, src: nat, tgt: nat)
    requires cur < |slides| && src < |slides| && tgt <= |slides| && cur != src
    ensures var n := |slides|;
      SpliceMove(slides, src, SpliceStart(tgt, n - 1))[AsWrittenIndex(cur, src, tgt, n)] == slides[cur]
  {
    var n := |slides|;
    SlideManagement.TrackedIndexFollowsSlide(cur, src, tgt, n);
    SpliceMoveAt(slides, src, SpliceStart(tgt, n - 1), cur);
  }

  /** The facts the store's `reorderSlide` relies on, for one valid move. */
  lemma AsWrittenReorder(slides: seq<Slide>, cur: int, src: nat, tgt: nat)
    requires src < |slides| && tgt <= |slides|
    ensures var n := |slides|;
      var r := SpliceMove(slides, src, SpliceStart(tgt, n - 1));
      && multiset(r) == multiset(slides)
      && (0 <= cur < n && cur != src ==> r[AsWrittenIndex(cur, src, tgt, n)] == slides[cur])
  {
    SpliceMovePermutes(slides, src, SpliceStart(tgt, |slides| - 1));
    if 0 <= cur < |slides| && cur != src {
      AsWrittenIndexFollowsUnmoved(slides, cur, src, tgt);
    }
  }

  class ContentStore {
    var presentation: Option<Presentation>
    var currentSlideIndex: int
    var focusedContentId: Option<Id>
    var editMode: bool
    /** The zoom level in quarter steps: 4 is a zoom of 1. */
    var zoomQuarters: int
    var isPresentationMode: bool

    /** Nothing loaded, first slide selected, nothing focused, in edit mode, zoom 1, not presenting. */
    constructor()
      ensures presentation.None? && currentSlideIndex == 0 && focusedContentId.None?
      ensures editMode && zoomQuarters == 4 && !isPresentationMode
    {
      presentation := None;
      currentSlideIndex := 0;
      focusedContentId := None;
      editMode := true;
      zoomQuarters := 4;
      isPresentationMode := false;
    }

    /** `currentPresentation?.slides || []`. */
    function Slides(): seq<Slide>
      reads this
    {
      if presentation.Some? then presentation.value.slides else []
    }

    /** The derived `currentSlide`: the slide at the current index, or none when the index is outside the list. */
    function CurrentSlide(): (r: Option<Slide>)
      reads this
      ensures r.Some? <==> 0 <= currentSlideIndex < |Slides()|
      ensures r.Some? ==> presentation.Some? && r.value == Slides()[currentSlideIndex]
    {
      if 0 <= currentSlideIndex < |Slides()| then Some(Slides()[currentSlideIndex]) else None
    }

    /** The derived `currentSlideContents`. */
    function CurrentSlideContents(): seq<Content>
      reads this
    {
      if CurrentSlide().Some? then ContentsOf(CurrentSlide().value) else []
    }

    /** The current index designates a slide whenever there is one. */
    predicate IndexInRange()
      reads this
    {
      Slides() == [] || 0 <= currentSlideIndex < |Slides()|
    }

    method SetCurrentPresentation(p: Option<Presentation>)
      modifies this`presentation
      ensures presentation == p
    {
      presentation := p;
    }

    method SetCurrentSlideIndex(i: int)
      modifies this`currentSlideIndex
      ensures currentSlideIndex == i
    {
      currentSlideIndex := i;
    }

    method SetFocusedContentId(id: Option<Id>)
      modifies this`focusedContentId
      ensures focusedContentId == id
    {
      focusedContentId := id;
    }

    method SetEditMode(mode: bool)
      modifies this`editMode
      ensures editMode == mode
    {
      editMode := mode;
    }

    /** The raw `setZoomLevel`: no clamp. */
    method SetZoomLevel(quarters: int)
      modifies this`zoomQuarters
      ensures zoomQuarters == quarters
    {
      zoomQuarters := quarters;
    }

    /** `updatePresentationSlides(() => slides)`: replace the slide list of the loaded presentation. */
    method SetSlides(slides: seq<Slide>)
      requires presentation.Some?
      modifies this`presentation
      ensures presentation == Some(old(presentation).value.(slides := slides))
      ensures Slides() == slides
    {
      presentation := Some(presentation.value.(slides := slides));
    }

    /**
      `addSlide(slideData)`: with a presentation loaded, append the new slide and select it.
      Without one, nothing changes. The generated id is returned either way.
     */
    method AddSlide(p: SlidePatch, freshId: Id) returns (id: Id)
      modifies this`presentation, this`currentSlideIndex
      ensures id == freshId
      ensures old(presentation).None? ==> presentation.None? && currentSlideIndex == old(currentSlideIndex)
      ensures old(presentation).Some? ==>
        && presentation == Some(old(presentation).value.(slides := Slides()))
        && Slides() == old(Slides()) + [SlideManagement.NewSlide(p, freshId)]
        && currentSlideIndex == old(|Slides()|)
        && CurrentSlide() == Some(SlideManagement.NewSlide(p, freshId))
    {
      id := freshId;
      if presentation.Some? {
        var newSlides, newIndex, _ := SlideManagement.AddSlide(Slides(), p, freshId);
        SetSlides(newSlides);
        currentSlideIndex := newIndex;
      }
    }

    /** `updateSlide(id, patch)`: merge into the slide with the id, keeping the id. */
    method UpdateSlide(id: Id, p: SlidePatch)
      modifies this`presentation
      ensures old(presentation).None? ==> presentation.None?
      ensures old(presentation).Some? ==>
        presentation == Some(old(presentation).value.(slides := SlideManagement.UpdateSlide(old(Slides()), id, p)))
    {
      if presentation.Some? {
        SetSlides(SlideManagement.UpdateSlide(Slides(), id, p));
      }
    }

    /**
      `deleteSlide(id)`: remove the slide and adjust the current index by the hook's rules. With
      distinct ids and the index in range, the index stays in range, and still designates the
      previously current slide unless that one was deleted.
     */
    method DeleteSlide(id: Id)
      modifies this`presentation, this`currentSlideIndex
      ensures old(presentation).None? ==> presentation.None? && currentSlideIndex == old(currentSlideIndex)
      ensures old(presentation).Some? ==> presentation == Some(old(presentation).value.(slides := Slides()))
      ensures var d, cur := SlideIndex(old(Slides()), id), old(currentSlideIndex);
        && (d == -1 ==> Slides() == old(Slides()) && currentSlideIndex == cur)
        && (d >= 0 ==> Slides() == SlidesWithout(old(Slides()), id))
        && (d >= 0 && Slides() == [] ==> currentSlideIndex == 0)
        && (d >= 0 && Slides() != [] && cur == d ==> currentSlideIndex == if cur - 1 < 0 then 0 else cur - 1)
        && (d >= 0 && Slides() != [] && cur > d ==> currentSlideIndex == cur - 1)
        && (d >= 0 && Slides() != [] && cur < d ==> currentSlideIndex == cur)
      ensures old(UniqueIds(Slides()) && IndexInRange()) ==> IndexInRange()
      ensures old(UniqueIds(Slides()) && CurrentSlide().Some? && CurrentSlide().value.id != id) ==>
        CurrentSlide() == old(CurrentSlide())
    {
      if presentation.Some? {
        var before := Slides();
        var newSlides, newCur := SlideManagement.DeleteSlide(before, currentSlideIndex, id);
        SetSlides(newSlides);
        currentSlideIndex := newCur;
      }
    }

    /**
      `reorderSlide(sourceIndex, targetIndex)` as written: the splice-move is the hook's, the
      current index follows AsWrittenIndex.
     */
    method ReorderSlide(src: int, tgt: int)
      modifies this`presentation, this`currentSlideIndex
      ensures var n := old(|Slides()|);
        old(presentation).None? || src == tgt || src < 0 || src >= n || tgt < 0 || tgt > n ==>
          presentation == old(presentation) && currentSlideIndex == old(currentSlideIndex)
      ensures var n := old(|Slides()|);
        old(presentation).Some? && src != tgt && 0 <= src < n && 0 <= tgt <= n ==>
          && presentation == Some(old(presentation).value.(slides := Slides()))
          && Slides() == SpliceMove(old(Slides()), src, SpliceStart(tgt, n - 1))
          && multiset(Slides()) == multiset(old(Slides()))
          && currentSlideIndex == AsWrittenIndex(old(currentSlideIndex), src, tgt, n)
          && IndexInRange()
          && (old(CurrentSlide()).Some? && old(currentSlideIndex) != src ==> CurrentSlide() == old(CurrentSlide()))
    {
      if src == tgt {
        return;
      }
      var newCurrentIndex := currentSlideIndex;
      if presentation.Some? {
        var currentSlides := Slides();
        if !(src < 0 || src >= |currentSlides| || tgt < 0 || tgt > |currentSlides|) {
          var workingSlides := currentSlides;
          var movedSlide := workingSlides[src];
          workingSlides := RemoveAt(workingSlides, src);
          workingSlides := InsertAt(workingSlides, SpliceStart(tgt, |workingSlides|), movedSlide);
          assert workingSlides == SpliceMove(currentSlides, src, SpliceStart(tgt, |currentSlides| - 1));
          newCurrentIndex := AsWrittenIndex(currentSlideIndex, src, tgt, |currentSlides|);
          AsWrittenReorder(currentSlides, currentSlideIndex, src, tgt);
          SetSlides(workingSlides);
        }
      }
      currentSlideIndex := newCurrentIndex;
    }

    /** `updatePresentationSlides` applied to the current slide only: its content becomes `content`. */
    method SetCurrentContent(content: seq<Content>)
      requires CurrentSlide().Some?
      modifies this`presentation
      ensures presentation == Some(old(presentation).value.(slides := WithCurrentContent(old(Slides()), currentSlideIndex, content)))
      ensures CurrentSlide() == Some(old(CurrentSlide()).value.(content := Some(content)))
      ensures CurrentSlideContents() == content
    {
      SetSlides(WithCurrentContent(Slides(), currentSlideIndex, content));
    }

    /**
      `addContent(type, partialData)`: with no current slide, nothing. Otherwise append the new
      block at order = length, focus it and return it.
     */
    method AddContent(t: ContentType, p: ContentPatch, ids: seq<Id>) returns (r: Option<Content>)
      requires |ids| >= DefaultIdCount(t)
      modifies this`presentation, this`focusedContentId
      ensures old(CurrentSlide()).None? ==>
        r.None? && presentation == old(presentation) && focusedContentId == old(focusedContentId)
      ensures old(CurrentSlide()).Some? ==>
        && r == Some(NewContent(old(CurrentSlideContents()), t, p, ids))
        && r.value.id == ids[0] && r.value.kind == t && r.value.order == old(|CurrentSlideContents()|)
        && presentation == Some(old(presentation).value.(slides := Slides()))
        && Slides() == WithCurrentContent(old(Slides()), currentSlideIndex, old(CurrentSlideContents()) + [r.value])
        && CurrentSlideContents() == old(CurrentSlideContents()) + [r.value]
        && focusedContentId == Some(ids[0])
      ensures old(OrdersMatchPositions(CurrentSlideContents())) ==> OrdersMatchPositions(CurrentSlideContents())
    {
      if CurrentSlide().None? {
        return None;
      }
      var currentContent := CurrentSlideContents();
      var newContent := NewContent(currentContent, t, p, ids);
      SetCurrentContent(currentContent + [newContent]);
      if OrdersMatchPositions(currentContent) {
        AddContentKeepsOrders(currentContent, t, p, ids);
      }
      focusedContentId := Some(newContent.id);
      r := Some(newContent);
    }

    /** `updateContent(id, patch)`: merge into the matching blocks of the current slide, keeping id and type. */
    method UpdateContent(id: Id, p: ContentPatch)
      modifies this`presentation
      ensures old(CurrentSlide()).None? ==> presentation == old(presentation)
      ensures old(CurrentSlide()).Some? ==>
        && presentation == Some(old(presentation).value.(slides := Slides()))
        && Slides() == WithCurrentContent(old(Slides()), currentSlideIndex, ContentManagement.UpdateContent(old(CurrentSlideContents()), id, p))
        && CurrentSlideContents() == ContentManagement.UpdateContent(old(CurrentSlideContents()), id, p)
    {
      if CurrentSlide().None? {
        return;
      }
      SetCurrentContent(ContentManagement.UpdateContent(CurrentSlideContents(), id, p));
    }

    /**
      `deleteContent(id)`: with no current slide nothing happens; otherwise drop the id from the
      current slide, re-stamp `order`, and clear the focus when it was on the deleted id.
     */
    method DeleteContent(id: Id)
      modifies this`presentation, this`focusedContentId
      ensures old(CurrentSlide()).None? ==> presentation == old(presentation)
      ensures old(CurrentSlide()).Some? ==>
        && presentation == Some(old(presentation).value.(slides := Slides()))
        && Slides() == WithCurrentContent(old(Slides()), currentSlideIndex, ContentManagement.DeleteContent(old(CurrentSlideContents()), id))
        && CurrentSlideContents() == ContentManagement.DeleteContent(old(CurrentSlideContents()), id)
        && OrdersMatchPositions(CurrentSlideContents())
        && Ids(CurrentSlideContents()) == Filter(Ids(old(CurrentSlideContents())), IdOtherThan(id))
        && UnorderedAll(CurrentSlideContents()) == UnorderedAll(Filter(old(CurrentSlideContents()), ContentOtherThan(id)))
      ensures old(CurrentSlide()).None? ==> focusedContentId == old(focusedContentId)
      ensures old(CurrentSlide()).Some? ==> focusedContentId == FocusAfterDelete(old(focusedContentId), id)
    {
      if CurrentSlide().None? {
        return;
      }
      DeleteContentIds(CurrentSlideContents(), id);
      SetCurrentContent(ContentManagement.DeleteContent(CurrentSlideContents(), id));
      if focusedContentId == Some(id) {
        focusedContentId := None;
      }
    }

    /**
      `reorderContent(id, newOrder)`: splice-move the block within the current slide and
      re-stamp `order`; an absent id or an unchanged position leaves the slides alone.
     */
    method ReorderContent(id: Id, newOrder: int)
      modifies this`presentation
      ensures old(CurrentSlide()).None? ==> presentation == old(presentation)
      ensures old(CurrentSlide()).Some? ==>
        var s := old(CurrentSlideContents());
        var from, to := ContentIndex(s, id), ClampIndex(newOrder, |s|);
        && (from == -1 || from == to ==> presentation == old(presentation))
        && (from >= 0 && from != to ==>
              && presentation == Some(old(presentation).value.(slides := Slides()))
              && Slides() == WithCurrentContent(old(Slides()), currentSlideIndex, CurrentSlideContents())
              && |CurrentSlideContents()| == |s|
              && OrdersMatchPositions(CurrentSlideContents())
              && CurrentSlideContents()[to] == s[from].(order := to)
              && (forall k :: 0 <= k < |s| ==>
                    MovedIndex(k, from, to) < |s| && Unordered(CurrentSlideContents()[MovedIndex(k, from, to)]) == Unordered(s[k]))
              && multiset(UnorderedAll(CurrentSlideContents())) == multiset(UnorderedAll(s)))
    {
      if CurrentSlide().None? {
        return;
      }
      var reordered, moved := ContentManagement.ReorderContent(CurrentSlideContents(), id, newOrder);
      if moved {
        SetCurrentContent(reordered);
      }
    }

    /** `enterPresentationMode()`: the fullscreen outcome changes nothing. */
    method EnterPresentationMode()
      modifies this`isPresentationMode, this`editMode, this`focusedContentId
      ensures isPresentationMode && !editMode && focusedContentId.None?
    {
      var flags := PresentationMode.ModeFlags(isPresentationMode, editMode, focusedContentId);
      var (next, _) := PresentationMode.Enter(flags);
      isPresentationMode, editMode, focusedContentId := next.isPresentationMode, next.editMode, next.focusedContentId;
    }

    /** `exitPresentationMode()`: edit mode and focus are left as they are. */
    method ExitPresentationMode(fullscreenActive: bool)
      modifies this`isPresentationMode
      ensures !isPresentationMode
    {
      var flags := PresentationMode.ModeFlags(isPresentationMode, editMode, focusedContentId);
      var (next, _) := PresentationMode.Exit(flags, fullscreenActive);
      isPresentationMode := next.isPresentationMode;
    }
  }
}
