/**
  The simpler slide store (src/context/PresentationContext.tsx): the loaded presentation, the
  current slide index and the presentation flag. Its rules differ from the document store's:
  the added slide is stored as given, updates may change a slide's id, a delete moves the index
  only when it falls off the end, a reorder moves the index only with the moved slide, and a
  refused fullscreen request leaves presentation mode again.
 */
module PresentationContext {
  import opened Common
  import opened SlideTypes
  import opened SeqOps

  /** What the browser does with a fullscreen request. */
  datatype FullscreenOutcome = Unsupported | Granted | Refused

  /**
    The index after a delete that leaves `newLen` slides: unchanged while it still designates a
    slide, otherwise the last slide (or 0 when none is left).
   */
  function IndexAfterDelete(cur: int, newLen: nat): (r: int)
    ensures cur < newLen ==> r == cur
    ensures cur >= newLen ==> r == (if newLen == 0 then 0 else newLen - 1)
    ensures 0 <= cur ==> 0 <= r && (newLen > 0 ==> r < newLen)
  {
    if cur >= newLen then (if 0 > newLen - 1 then 0 else newLen - 1) else cur
  }

  /** `slides.map(s => s.id === id ? {...s, ...patch} : s)`: the merge may change the id too. */
  function PlainUpdate(slides: seq<Slide>, id: Id, p: SlidePatch): (r: seq<Slide>)
    ensures |r| == |slides|
    ensures forall i :: 0 <= i < |slides| && slides[i].id != id ==> r[i] == slides[i]
    ensures forall i :: 0 <= i < |slides| && slides[i].id == id ==> r[i].id == p.id.GetOr(id) && r[i] == MergeSlide(slides[i], p)
  {
    seq(|slides|, i requires 0 <= i < |slides| => if slides[i].id == id then MergeSlide(slides[i], p) else slides[i])
  }

  /** A patch carrying another id renames the slide, unlike the document store's update. */
  lemma PlainUpdateCanRename(slides: seq<Slide>, i: nat, newId: Id)
    requires i < |slides| && newId != slides[i].id
    ensures PlainUpdate(slides, slides[i].id, EmptySlidePatch.(id := Some(newId)))[i].id == newId
  {
  }

  /**
    The unchecked splice-move: `splice(sourceIndex, 1)` then `splice(targetIndex, 0, moved)`,
    both starts normalised as `splice` does (a negative one counts from the end).
   */
  function SpliceReorder(s: seq<Slide>, src: int, tgt: int): (r: seq<Slide>)
    requires |s| > 0 && src < |s|
    ensures |r| == |s|
    ensures r == SpliceMove(s, SpliceStart(src, |s|), SpliceStart(tgt, |s| - 1))
    ensures multiset(r) == multiset(s)
  {
    SpliceMovePermutes(s, SpliceStart(src, |s|), SpliceStart(tgt, |s| - 1));
    InsertAt(RemoveAt(s, SpliceStart(src, |s|)), SpliceStart(tgt, |s| - 1), s[SpliceStart(src, |s|)])
  }

  /** For indices inside the list, the moved slide is found at the target afterwards. */
  lemma SpliceReorderLandsAtTarget(s: seq<Slide>, src: nat, tgt: nat)
    requires src < |s| && tgt < |s|
    ensures SpliceReorder(s, src, tgt)[tgt] == s[src]
  {
  }

  /**
    When the current slide is not the one moved, the index stays put: moving a slide from
    before the current one to after it leaves the index on the slide that followed.
   */
  lemma SpliceReorderShiftsOthers(s: seq<Slide>, src: nat, tgt: nat, cur: nat)
    requires src < cur < tgt < |s|
    ensures SpliceReorder(s, src, tgt)[cur] == s[cur + 1]
  {
    SpliceMoveFrom(s, src, tgt, cur);
  }

  class PresentationStore {
    var presentation: Option<Presentation>
    var currentSlideIndex: int
    var isPresentationMode: bool

    /** Nothing loaded, index 0, not presenting. */
    constructor()
      ensures presentation.None? && currentSlideIndex == 0 && !isPresentationMode
    {
      presentation := None;
      currentSlideIndex := 0;
      isPresentationMode := false;
    }

    function Slides(): seq<Slide>
      reads this
    {
      if presentation.Some? then presentation.value.slides else []
    }

    /** `slides[currentSlideIndex] || null`. */
    function CurrentSlide(): (r: Option<Slide>)
      reads this
      ensures r.Some? <==> 0 <= currentSlideIndex < |Slides()|
      ensures r.Some? ==> r.value == Slides()[currentSlideIndex]
    {
      if 0 <= currentSlideIndex < |Slides()| then Some(Slides()[currentSlideIndex]) else None
    }

    method SetCurrentPresentation(p: Option<Presentation>)
      modifies this`presentation
      ensures presentation == p
    {
      presentation := p;
    }

    method SetCurrentSlideIndex(i: int)
      modifies this`currentSlideIndex
      ensures currentSlideIndex == i
    {
      currentSlideIndex := i;
    }

    /**
      `addSlide(slide)`: append the slide as given when a presentation is loaded. The index
      becomes the old slide count in every case, so with nothing loaded it is 0.
     */
    method AddSlide(slide: Slide)
      modifies this`presentation, this`currentSlideIndex
      ensures old(presentation).None? ==> presentation.None?
      ensures old(presentation).Some? ==> presentation == Some(old(presentation).value.(slides := old(Slides()) + [slide]))
      ensures currentSlideIndex == old(|Slides()|)
      ensures old(presentation).Some? ==> CurrentSlide() == Some(slide)
    {
      var count := |Slides()|;
      if presentation.Some? {
        presentation := Some(presentation.value.(slides := presentation.value.slides + [slide]));
      }
      currentSlideIndex := count;
    }

    method UpdateSlide(id: Id, p: SlidePatch)
      modifies this`presentation
      ensures old(presentation).None? ==> presentation.None?
      ensures old(presentation).Some? ==> presentation == Some(old(presentation).value.(slides := PlainUpdate(old(Slides()), id, p)))
    {
      if presentation.Some? {
        presentation := Some(presentation.value.(slides := PlainUpdate(presentation.value.slides, id, p)));
      }
    }

    /**
      `deleteSlide(id)`: remove every slide with the id; the index changes only when it no longer
      designates a slide. With distinct ids, deleting a slide before the current one leaves the
      index where it was, now on the slide that followed the current one.
     */
    method DeleteSlide(id: Id)
      modifies this`presentation, this`currentSlideIndex
      ensures old(presentation).None? ==> presentation.None? && currentSlideIndex == old(currentSlideIndex)
      ensures old(presentation).Some? ==>
        && presentation == Some(old(presentation).value.(slides := SlidesWithout(old(Slides()), id)))
        && currentSlideIndex == IndexAfterDelete(old(currentSlideIndex), |Slides()|)
      ensures old(presentation).Some? && old(UniqueIds(Slides())) && 0 <= SlideIndex(old(Slides()), id) < old(currentSlideIndex) < old(|Slides()|) - 1 ==>
        currentSlideIndex == old(currentSlideIndex) && CurrentSlide() == Some(old(Slides())[old(currentSlideIndex) + 1])
    {
      if presentation.Some? {
        var before := Slides();
        var updatedSlides := SlidesWithout(before, id);
        if UniqueIds(before) && 0 <= SlideIndex(before, id) < currentSlideIndex < |before| - 1 {
          SlidesWithoutUnique(before, id);
        }
        if currentSlideIndex >= |updatedSlides| {
          currentSlideIndex := if 0 > |updatedSlides| - 1 then 0 else |updatedSlides| - 1;
        }
        presentation := Some(presentation.value.(slides := updatedSlides));
      }
    }

    /**
      `reorderSlide(sourceIndex, targetIndex)`: equal indices or nothing loaded change nothing.
      Otherwise the unchecked splice-move, and the index becomes the raw target exactly when it
      was the raw source. A target past the end leaves the moved slide last and the index
      outside the list.
     */
    method ReorderSlide(src: int, tgt: int)
      requires src == tgt || presentation.None? || (|Slides()| > 0 && src < |Slides()|)
      modifies this`presentation, this`currentSlideIndex
      ensures src == tgt || old(presentation).None? ==>
        presentation == old(presentation) && currentSlideIndex == old(currentSlideIndex)
      ensures src != tgt && old(presentation).Some? ==>
        && presentation == Some(old(presentation).value.(slides := SpliceReorder(old(Slides()), src, tgt)))
        && currentSlideIndex == (if old(currentSlideIndex) == src then tgt else old(currentSlideIndex))
      ensures src != tgt && old(presentation).Some? && old(currentSlideIndex) == src && 0 <= src && 0 <= tgt < old(|Slides()|) ==>
        CurrentSlide() == old(CurrentSlide())
      ensures src != tgt && old(presentation).Some? && old(currentSlideIndex) == src && tgt == old(|Slides()|) ==>
        CurrentSlide().None?
    {
      if src == tgt || presentation.None? {
        return;
      }
      var updatedSlides := SpliceReorder(Slides(), src, tgt);
      if currentSlideIndex == src {
        if 0 <= src && 0 <= tgt < |updatedSlides| {
          SpliceReorderLandsAtTarget(Slides(), src, tgt);
        }
        currentSlideIndex := tgt;
      }
      presentation := Some(presentation.value.(slides := updatedSlides));
    }

    /**
      `enterPresentationMode()`: presenting, unless the browser refuses the fullscreen request,
      which reverts it. `reported` says whether a toast was shown.
     */
    method EnterPresentationMode(outcome: FullscreenOutcome) returns (reported: bool)
      modifies this`isPresentationMode
      ensures isPresentationMode <==> outcome != Refused
      ensures reported <==> outcome != Granted
    {
      isPresentationMode := true;
      if outcome == Unsupported {
        return true;
      }
      reported := false;
      if outcome == Refused {
        reported := true;
        isPresentationMode := false;
      }
    }

    /**
      `exitPresentationMode()`: not presenting, whatever happens to the fullscreen release, which
      is requested only when an element is fullscreen; a failed release is reported.
     */
    method ExitPresentationMode(fullscreenActive: bool, releaseFails: bool) returns (reported: bool)
      modifies this`isPresentationMode
      ensures !isPresentationMode
      ensures reported <==> fullscreenActive && releaseFails
    {
      isPresentationMode := false;
      reported := fullscreenActive && releaseFails;
    }
  }
}
