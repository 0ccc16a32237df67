/**
  Slides and presentations (src/types/slides.ts). The stores read and write a `content` list on
  every slide although the interface does not declare one; here it is an optional field, absent
  being read as the empty list (`slide.content || []`).
 */
module SlideTypes {
  import opened Common
  import opened ContentTypes
  import SeqOps

  datatype SlideType = TitleSlide | ContentSlide | Gallery | Blank | TextSlide | ImageSlide

  datatype Point = Point(x: int, y: int)
  datatype Size = Size(width: int, height: int)

  datatype SlideElement = SlideElement(
    id: Id, elementType: string, content: Option<string>,
    position: Option<Point>, size: Option<Size>, style: Option<map<string, string>>)

  datatype Background = Background(color: Option<string>, image: Option<string>, gradient: Option<string>)

  datatype Slide = Slide(
    id: Id, title: string, subtitle: Option<string>, slideType: SlideType,
    content: Option<seq<Content>>, elements: Option<seq<SlideElement>>,
    background: Option<Background>, notes: Option<string>)

  datatype Presentation = Presentation(
    id: Id, title: string, description: Option<string>, slides: seq<Slide>,
    createdAt: Option<string>, updatedAt: Option<string>, theme: Option<string>)

  /** A `Partial<Slide>`: each key present (`Some`) or absent. */
  datatype SlidePatch = SlidePatch(
    id: Option<Id>, title: Option<string>, subtitle: Option<string>, slideType: Option<SlideType>,
    content: Option<seq<Content>>, elements: Option<seq<SlideElement>>,
    background: Option<Background>, notes: Option<string>)

  const EmptySlidePatch := SlidePatch(None, None, None, None, None, None, None, None)

  /** The content list a store works on: `slide.content || []`. */
  function ContentsOf(s: Slide): seq<Content>
  {
    s.content.GetOr([])
  }

  /** The plain spread `{...slide, ...patch}`: every key the patch carries wins, `id` included. */
  function MergeSlide(s: Slide, p: SlidePatch): (r: Slide)
    ensures r.id == p.id.GetOr(s.id) && r.title == p.title.GetOr(s.title) && r.slideType == p.slideType.GetOr(s.slideType)
    ensures p.content.Some? ==> r.content == p.content
    ensures p.content.None? ==> r.content == s.content
  {
    Slide(p.id.GetOr(s.id), p.title.GetOr(s.title),
          if p.subtitle.Some? then p.subtitle else s.subtitle,
          p.slideType.GetOr(s.slideType),
          if p.content.Some? then p.content else s.content,
          if p.elements.Some? then p.elements else s.elements,
          if p.background.Some? then p.background else s.background,
          if p.notes.Some? then p.notes else s.notes)
  }

  /** The filter predicate `slide => slide.id !== id`. */
  function OtherThan(id: Id): Slide -> bool
  {
    (s: Slide) => s.id != id
  }

  /** The slides with a given id removed: `slides.filter(s => s.id !== id)`. */
  function SlidesWithout(slides: seq<Slide>, id: Id): (r: seq<Slide>)
    ensures |r| <= |slides|
    ensures forall s :: s in r <==> s in slides && s.id != id
  {
    var r := SeqOps.Filter(slides, OtherThan(id));
    forall s ensures s in r <==> s in slides && s.id != id {
      SeqOps.FilterMembership(slides, OtherThan(id), s);
    }
    r
  }

  /** The index of the first slide with the id, or -1. */
  function SlideIndex(slides: seq<Slide>, id: Id): (r: int)
    ensures -1 <= r < |slides|
    ensures r == -1 <==> forall k :: 0 <= k < |slides| ==> slides[k].id != id
    ensures r >= 0 ==> slides[r].id == id && forall k :: 0 <= k < r ==> slides[k].id != id
  {
    SeqOps.FindIndex(slides, (s: Slide) => s.id == id)
  }

  /** Deleting an id no slide has changes nothing. */
  lemma SlidesWithoutAbsent(slides: seq<Slide>, id: Id)
    requires forall k :: 0 <= k < |slides| ==> slides[k].id != id
    ensures SlidesWithout(slides, id) == slides
  {
    SeqOps.FilterKeepsAll(slides, OtherThan(id));
  }

  /** With distinct ids, deleting an id removes exactly the one slide at its index. */
  lemma SlidesWithoutUnique(slides: seq<Slide>, id: Id)
    requires UniqueIds(slides) && SlideIndex(slides, id) >= 0
    ensures SlidesWithout(slides, id) == SeqOps.RemoveAt(slides, SlideIndex(slides, id))
  {
    var i := SlideIndex(slides, id);
    var keep := OtherThan(id);
    var a, b := slides[..i], slides[i + 1..];
    assert slides == (a + [slides[i]]) + b;
    assert forall k :: 0 <= k < |a| ==> keep(a[k]);
    assert forall k :: 0 <= k < |b| ==> keep(b[k]) by {
      forall k | 0 <= k < |b| ensures keep(b[k]) {
        assert b[k] == slides[i + 1 + k];
      }
    }
    calc {
      SlidesWithout(slides, id);
      SeqOps.Filter((a + [slides[i]]) + b, keep);
      { SeqOps.FilterAppend(a + [slides[i]], b, keep); }
      SeqOps.Filter(a + [slides[i]], keep) + SeqOps.Filter(b, keep);
      { SeqOps.FilterAppend(a, [slides[i]], keep); }
      SeqOps.Filter(a, keep) + SeqOps.Filter([slides[i]], keep) + SeqOps.Filter(b, keep);
      { SeqOps.FilterKeepsAll(a, keep); SeqOps.FilterKeepsAll(b, keep); }
      a + SeqOps.Filter([slides[i]], keep) + b;
      { assert SeqOps.Filter([slides[i]], keep) == []; }
      a + b;
    }
  }

  /** Ids are pairwise distinct. */
  predicate UniqueIds(slides: seq<Slide>)
  {
    forall i, j :: 0 <= i < j < |slides| ==> slides[i].id != slides[j].id
  }
}
