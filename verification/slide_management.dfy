/**
  The slide operations of the store (src/context/content/slideManagement.ts; lines 84-141 of
  src/context/ContentContext.tsx are the same code; its reorderSlide differs, see
  ContentContext.AsWrittenIndex). Each operation takes the slide list and the current
  index and returns the new ones: the store applies them only when a presentation is loaded.
 */
module SlideManagement {
  import opened Common
  import opened ContentTypes
  import opened SlideTypes
  import opened SeqOps

  /**
    The slide `addSlide(slideData)` builds: title "New Slide", type "content", empty content and
    element lists, then every key of the partial data on top (its `id` included).
   */
  function NewSlide(p: SlidePatch, freshId: Id): (r: Slide)
    ensures r.id == p.id.GetOr(freshId)
    ensures r.title == p.title.GetOr("New Slide") && r.slideType == p.slideType.GetOr(ContentSlide)
    ensures r.content == Some(p.content.GetOr([])) && r.elements == Some(p.elements.GetOr([]))
    ensures r.subtitle == p.subtitle && r.background == p.background && r.notes == p.notes
  {
    MergeSlide(Slide(freshId, "New Slide", None, ContentSlide, Some([]), Some([]), None, None), p)
  }

  /**
    `addSlide(slideData)`: append the new slide, select it, return the generated id. The
    returned id is that of the stored slide only when the partial data has no id of its own.
   */
  method AddSlide(slides: seq<Slide>, p: SlidePatch, freshId: Id) returns (newSlides: seq<Slide>, newIndex: int, returnedId: Id)
    ensures |newSlides| == |slides| + 1 && newSlides[..|slides|] == slides
    ensures newSlides[|slides|] == NewSlide(p, freshId)
    ensures newIndex == |slides| && 0 <= newIndex < |newSlides|
    ensures returnedId == freshId
    ensures newSlides[newIndex].id == returnedId <==> p.id.None? || p.id == Some(freshId)
  {
    var newSlide := NewSlide(p, freshId);
    newSlides := slides + [newSlide];
    newIndex := |newSlides| - 1;
    returnedId := freshId;
  }

  /** `updateSlide(id, patch)`: merge into every slide with the id, whose id is kept. */
  function UpdateSlide(slides: seq<Slide>, id: Id, p: SlidePatch): (r: seq<Slide>)
    ensures |r| == |slides|
    ensures forall i :: 0 <= i < |slides| ==> r[i].id == slides[i].id
    ensures forall i :: 0 <= i < |slides| && slides[i].id != id ==> r[i] == slides[i]
    ensures forall i :: 0 <= i < |slides| && slides[i].id == id ==> r[i] == MergeSlide(slides[i], p).(id := id)
  {
    seq(|slides|, i requires 0 <= i < |slides| =>
      if slides[i].id == id then MergeSlide(slides[i], p).(id := id) else slides[i])
  }

  /**
    `deleteSlide(id)`: remove the slides with the id and adjust the current index. Unknown id:
    nothing changes. Empty result: index 0. Current slide deleted: the previous one (or 0). A
    slide before the current one deleted: the index moves down by one. After it: unchanged.
   */
  method DeleteSlide(slides: seq<Slide>, cur: int, id: Id) returns (newSlides: seq<Slide>, newCur: int)
    ensures var d := SlideIndex(slides, id);
      && (d == -1 ==> newSlides == slides && newCur == cur)
      && (d >= 0 ==> newSlides == SlidesWithout(slides, id) && |newSlides| < |slides|)
      && (d >= 0 && newSlides == [] ==> newCur == 0)
      && (d >= 0 && newSlides != [] && cur == d ==> newCur == if cur - 1 < 0 then 0 else cur - 1)
      && (d >= 0 && newSlides != [] && cur > d ==> newCur == cur - 1)
      && (d >= 0 && newSlides != [] && cur < d ==> newCur == cur)
    ensures UniqueIds(slides) && 0 <= cur < |slides| && slides[cur].id != id ==>
      0 <= newCur < |newSlides| && newSlides[newCur] == slides[cur]
    ensures UniqueIds(slides) && 0 <= cur < |slides| ==> newSlides == [] || 0 <= newCur < |newSlides|
  {
    var deletedSlideIndex := -1;
    var slidesAfterDelete: seq<Slide> := [];
    deletedSlideIndex := SlideIndex(slides, id);
    if deletedSlideIndex == -1 {
      newSlides := slides;
    } else {
      slidesAfterDelete := SlidesWithout(slides, id);
      newSlides := slidesAfterDelete;
      FilterDrops(slides, OtherThan(id), deletedSlideIndex);
    }
    assert deletedSlideIndex >= 0 ==> slides[deletedSlideIndex] in slides && slides[deletedSlideIndex] !in newSlides;

    newCur := cur;
    if deletedSlideIndex != -1 {
      if |slidesAfterDelete| == 0 {
        newCur := 0;
      } else if cur == deletedSlideIndex {
        newCur := if cur - 1 < 0 then 0 else cur - 1;
      } else if cur > deletedSlideIndex {
        newCur := cur - 1;
      }
    }

    if UniqueIds(slides) && deletedSlideIndex != -1 {
      SlidesWithoutUnique(slides, id);
    }
  }

  /** The index the current slide ends up at after a splice-move, clamped into the list. */
  function TrackedIndex(cur: int, src: nat, tgt: nat, n: nat): (r: int)
    requires src < n
    ensures 0 <= r < n
  {
    var c := if cur == src then tgt
             else if src < cur && tgt >= cur then cur - 1
             else if src > cur && tgt <= cur then cur + 1
             else cur;
    if c > n - 1 then n - 1 else if c < 0 then 0 else c
  }

  /** The tracked index is where a splice-move puts the slide that was current. */
  lemma TrackedIndexFollowsSlide(cur: nat, src: nat, tgt: nat, n: nat)
    requires src < n && tgt <= n && cur < n
    ensures var to := SpliceStart(tgt, n - 1);
      TrackedIndex(cur, src, tgt, n) == MovedIndex(cur, src, to)
  {
  }

  /**
    `reorderSlide(sourceIndex, targetIndex)`: equal indices, a source outside [0, n) or a target
    outside [0, n] change nothing. Otherwise the slide is spliced out and back in at the target
    (a target of n means the end), and the current index follows the slide that was current,
    whether or not it is the one moved; it always ends inside the list.
   */
  method ReorderSlide(slides: seq<Slide>, cur: int, src: int, tgt: int) returns (newSlides: seq<Slide>, newCur: int)
    ensures src == tgt || src < 0 || src >= |slides| || tgt < 0 || tgt > |slides| ==>
      newSlides == slides && newCur == cur
    ensures src != tgt && 0 <= src < |slides| && 0 <= tgt <= |slides| ==>
      && newSlides == SpliceMove(slides, src, SpliceStart(tgt, |slides| - 1))
      && multiset(newSlides) == multiset(slides)
      && newCur == TrackedIndex(cur, src, tgt, |slides|)
      && 0 <= newCur < |newSlides|
      && (0 <= cur < |slides| ==> newSlides[newCur] == slides[cur])
  {
    if src == tgt {
      return slides, cur;
    }
    newCur := cur;
    if src < 0 || src >= |slides| || tgt < 0 || tgt > |slides| {
      return slides, newCur;
    }
    var workingSlides := slides;
    var movedSlide := workingSlides[src];
    workingSlides := RemoveAt(workingSlides, src);
    workingSlides := InsertAt(workingSlides, SpliceStart(tgt, |workingSlides|), movedSlide);

    if cur == src {
      newCur := tgt;
    } else if src < cur && tgt >= cur {
      newCur := cur - 1;
    } else if src > cur && tgt <= cur {
      newCur := cur + 1;
    }
    newCur := if newCur > |workingSlides| - 1 then |workingSlides| - 1 else if newCur < 0 then 0 else newCur;
    newSlides := workingSlides;

    assert newCur == TrackedIndex(cur, src, tgt, |slides|);
    SpliceMovePermutes(slides, src, SpliceStart(tgt, |slides| - 1));
    if 0 <= cur < |slides| {
      TrackedIndexFollowsSlide(cur, src, tgt, |slides|);
      SpliceMoveAt(slides, src, SpliceStart(tgt, |slides| - 1), cur);
    }
  }
}
