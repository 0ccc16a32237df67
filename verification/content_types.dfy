/**
  The typed content blocks of a slide (src/types/content.ts): the eight-way tagged union, the
  table and grid sub-structures, the partial objects used to patch a block, and the constructors
  of default blocks. Fresh uuids are supplied by the caller as a sequence of ids.
 */
module ContentTypes {
  import opened Common

  /** The closed set of type tags. */
  datatype ContentType = Text | Title | Table | Button | Card | Grid | Image | Spacer

  datatype TableCell = TableCell(id: Id, content: string)
  datatype TableRow = TableRow(id: Id, cells: seq<TableCell>)

  datatype GridItem = GridItem(
    id: Id,
    contentId: Option<Id>,
    content: Option<string>,
    colStart: Option<int>,
    rowStart: Option<int>,
    colSpan: Option<int>,
    rowSpan: Option<int>)

  datatype ButtonVariant = Default | Outline | Secondary | Destructive | Ghost | Link
  datatype LinkTarget = Blank | Self
  datatype ObjectFit = Cover | Contain | Fill | ScaleDown | NoFit

  /** The type-specific fields of each variant. */
  datatype Body =
    | TextBody(content: string)
    | TitleBody(content: string, level: int)
    | TableBody(headers: seq<TableCell>, rows: seq<TableRow>, caption: Option<string>, hasHeader: Option<bool>)
    | ButtonBody(text: string, url: string, variant: Option<ButtonVariant>, target: Option<LinkTarget>)
    | CardBody(title: Option<string>, content: string, imageUrl: Option<string>, footer: Option<string>, linkUrl: Option<string>)
    | GridBody(columns: int, gridRows: Option<int>, gap: Option<int>, items: seq<GridItem>)
    | ImageBody(src: string, alt: string, caption: Option<string>, objectFit: Option<ObjectFit>)
    | SpacerBody(height: int)

  /**
    A content block: the common fields `id`, `type` (here `kind`, `type` being a Dafny keyword) and
    `order`, the variant's fields, and `extra`, the keys the object carries that are not fields of
    its payload's variant (a spread of a patch written for another variant leaves them on the
    object; a block built from its declared fields carries none).
    The tag is a field of its own, as in the source, so that a merge that overwrites `type`
    without touching the payload can be represented.
   */
  datatype Content = Content(id: Id, kind: ContentType, order: int, body: Body, extra: ContentPatch)

  /** The tag a payload belongs to. */
  function BodyType(b: Body): ContentType
  {
    match b
    case TextBody(_) => Text
    case TitleBody(_, _) => Title
    case TableBody(_, _, _, _) => Table
    case ButtonBody(_, _, _, _) => Button
    case CardBody(_, _, _, _, _) => Card
    case GridBody(_, _, _, _) => Grid
    case ImageBody(_, _, _, _) => Image
    case SpacerBody(_) => Spacer
  }

  /** The block's tag agrees with its payload (what the TypeScript union guarantees statically). */
  predicate WellTyped(c: Content)
  {
    c.kind == BodyType(c.body)
  }

  /**
    A `Partial<Content>`: every field of every variant, each present (`Some`) or absent.
    `gridRows` is the grid's `rows` key.
   */
  datatype ContentPatch = ContentPatch(
    id: Option<Id>, kind: Option<ContentType>, order: Option<int>,
    content: Option<string>, level: Option<int>,
    headers: Option<seq<TableCell>>, rows: Option<seq<TableRow>>, caption: Option<string>, hasHeader: Option<bool>,
    text: Option<string>, url: Option<string>, variant: Option<ButtonVariant>, target: Option<LinkTarget>,
    title: Option<string>, imageUrl: Option<string>, footer: Option<string>, linkUrl: Option<string>,
    columns: Option<int>, gridRows: Option<int>, gap: Option<int>, items: Option<seq<GridItem>>,
    src: Option<string>, alt: Option<string>, objectFit: Option<ObjectFit>,
    height: Option<int>)

  const EmptyPatch := ContentPatch(None, None, None, None, None, None, None, None, None, None, None, None, None,
                                   None, None, None, None, None, None, None, None, None, None, None, None)

  /** One key of a spread: present in `b`, it wins; otherwise `a`'s. */
  function Over<T>(a: Option<T>, b: Option<T>): Option<T>
  {
    if b.Some? then b else a
  }

  /** `{...a, ...b}` on two key bags: every key present in `b` wins, every other key is `a`'s. */
  function Overlay(a: ContentPatch, b: ContentPatch): ContentPatch
  {
    ContentPatch(
      Over(a.id, b.id), Over(a.kind, b.kind), Over(a.order, b.order),
      Over(a.content, b.content), Over(a.level, b.level), Over(a.headers, b.headers),
      Over(a.rows, b.rows), Over(a.caption, b.caption), Over(a.hasHeader, b.hasHeader),
      Over(a.text, b.text), Over(a.url, b.url), Over(a.variant, b.variant),
      Over(a.target, b.target), Over(a.title, b.title), Over(a.imageUrl, b.imageUrl),
      Over(a.footer, b.footer), Over(a.linkUrl, b.linkUrl), Over(a.columns, b.columns),
      Over(a.gridRows, b.gridRows), Over(a.gap, b.gap), Over(a.items, b.items),
      Over(a.src, b.src), Over(a.alt, b.alt), Over(a.objectFit, b.objectFit),
      Over(a.height, b.height))
  }

  /** The keys of `p` that are neither common fields nor fields of the variant `t`. */
  function Foreign(p: ContentPatch, t: ContentType): ContentPatch
  {
    var q := p.(id := None, kind := None, order := None);
    match t
    case Text => q.(content := None)
    case Title => q.(content := None, level := None)
    case Table => q.(headers := None, rows := None, caption := None, hasHeader := None)
    case Button => q.(text := None, url := None, variant := None, target := None)
    case Card => q.(title := None, content := None, imageUrl := None, footer := None, linkUrl := None)
    case Grid => q.(columns := None, gridRows := None, gap := None, items := None)
    case Image => q.(src := None, alt := None, caption := None, objectFit := None)
    case Spacer => q.(height := None)
  }

  /** The block's extra keys are all foreign to its payload's variant. */
  predicate ExtraForeign(c: Content)
  {
    c.extra == Foreign(c.extra, BodyType(c.body))
  }

  /** A payload as the key bag of its fields (an optional field that is absent is a missing key). */
  function BodyKeys(b: Body): ContentPatch
  {
    match b
    case TextBody(c) => EmptyPatch.(content := Some(c))
    case TitleBody(c, l) => EmptyPatch.(content := Some(c), level := Some(l))
    case TableBody(h, rs, cap, hh) => EmptyPatch.(headers := Some(h), rows := Some(rs), caption := cap, hasHeader := hh)
    case ButtonBody(t, u, v, tg) => EmptyPatch.(text := Some(t), url := Some(u), variant := v, target := tg)
    case CardBody(ti, c, img, f, l) => EmptyPatch.(title := ti, content := Some(c), imageUrl := img, footer := f, linkUrl := l)
    case GridBody(cols, rs, g, its) => EmptyPatch.(columns := Some(cols), gridRows := rs, gap := g, items := Some(its))
    case ImageBody(src, alt, cap, fit) => EmptyPatch.(src := Some(src), alt := Some(alt), caption := cap, objectFit := fit)
    case SpacerBody(h) => EmptyPatch.(height := Some(h))
  }

  /** Every key of the block's object: the common fields, the payload's fields and the extra keys. */
  function Keys(c: Content): ContentPatch
  {
    Overlay(c.extra, BodyKeys(c.body)).(id := Some(c.id), kind := Some(c.kind), order := Some(c.order))
  }

  /**
    The payload of variant `t` read from a key bag: present when every key the variant requires
    is there, built from the bag's values for the variant's keys.
   */
  function BodyFromKeys(k: ContentPatch, t: ContentType): (r: Option<Body>)
    ensures r.Some? ==> BodyType(r.value) == t
  {
    match t
    case Text => if k.content.Some? then Some(TextBody(k.content.value)) else None
    case Title => if k.content.Some? && k.level.Some? then Some(TitleBody(k.content.value, k.level.value)) else None
    case Table =>
      if k.headers.Some? && k.rows.Some? then Some(TableBody(k.headers.value, k.rows.value, k.caption, k.hasHeader)) else None
    case Button =>
      if k.text.Some? && k.url.Some? then Some(ButtonBody(k.text.value, k.url.value, k.variant, k.target)) else None
    case Card =>
      if k.content.Some? then Some(CardBody(k.title, k.content.value, k.imageUrl, k.footer, k.linkUrl)) else None
    case Grid =>
      if k.columns.Some? && k.items.Some? then Some(GridBody(k.columns.value, k.gridRows, k.gap, k.items.value)) else None
    case Image =>
      if k.src.Some? && k.alt.Some? then Some(ImageBody(k.src.value, k.alt.value, k.caption, k.objectFit)) else None
    case Spacer => if k.height.Some? then Some(SpacerBody(k.height.value)) else None
  }

  /** A payload's key bag reads back as that payload, and the block's own keys read back as its payload. */
  lemma BodyKeysRoundTrip(c: Content)
    requires WellTyped(c) && ExtraForeign(c)
    ensures BodyFromKeys(BodyKeys(c.body), c.kind) == Some(c.body)
    ensures BodyFromKeys(Keys(c), c.kind) == Some(c.body)
  {
    match c.body
    case TextBody(_) =>
    case TitleBody(_, _) =>
    case TableBody(_, _, _, _) =>
    case ButtonBody(_, _, _, _) =>
    case CardBody(_, _, _, _, _) =>
    case GridBody(_, _, _, _) =>
    case ImageBody(_, _, _, _) =>
    case SpacerBody(_) =>
  }

  /** `{...body, ...patch}` restricted to the keys the variant has. */
  function PatchBody(b: Body, p: ContentPatch): (r: Body)
    ensures BodyType(r) == BodyType(b)
    ensures BodyFromKeys(Overlay(BodyKeys(b), p), BodyType(b)) == Some(r)
  {
    match b
    case TextBody(c) => TextBody(p.content.GetOr(c))
    case TitleBody(c, l) => TitleBody(p.content.GetOr(c), p.level.GetOr(l))
    case TableBody(h, rs, cap, hh) =>
      TableBody(p.headers.GetOr(h), p.rows.GetOr(rs), if p.caption.Some? then p.caption else cap,
                if p.hasHeader.Some? then p.hasHeader else hh)
    case ButtonBody(t, u, v, tg) =>
      ButtonBody(p.text.GetOr(t), p.url.GetOr(u), if p.variant.Some? then p.variant else v,
                 if p.target.Some? then p.target else tg)
    case CardBody(ti, c, img, f, l) =>
      CardBody(if p.title.Some? then p.title else ti, p.content.GetOr(c),
               if p.imageUrl.Some? then p.imageUrl else img,
               if p.footer.Some? then p.footer else f, if p.linkUrl.Some? then p.linkUrl else l)
    case GridBody(cols, rs, g, its) =>
      GridBody(p.columns.GetOr(cols), if p.gridRows.Some? then p.gridRows else rs,
               if p.gap.Some? then p.gap else g, p.items.GetOr(its))
    case ImageBody(s, a, cap, fit) =>
      ImageBody(p.src.GetOr(s), p.alt.GetOr(a), if p.caption.Some? then p.caption else cap,
                if p.objectFit.Some? then p.objectFit else fit)
    case SpacerBody(h) => SpacerBody(p.height.GetOr(h))
  }

  /**
    The plain object spread `{...c, ...p}`: every key the patch carries wins, `id` and `type`
    included; the payload keeps its variant and the patch's keys of other variants join `extra`.
   */
  function Merge(c: Content, p: ContentPatch): (r: Content)
    ensures r.id == p.id.GetOr(c.id) && r.kind == p.kind.GetOr(c.kind) && r.order == p.order.GetOr(c.order)
    ensures BodyType(r.body) == BodyType(c.body)
    ensures ExtraForeign(c) ==> ExtraForeign(r)
  {
    Content(p.id.GetOr(c.id), p.kind.GetOr(c.kind), p.order.GetOr(c.order), PatchBody(c.body, p),
            Overlay(c.extra, Foreign(p, BodyType(c.body))))
  }

  /**
    Key by key, the merge is the spread: the merged block's object carries exactly the keys of
    the block's object with every key present in the patch written over them.
   */
  lemma MergeIsSpread(c: Content, p: ContentPatch)
    requires ExtraForeign(c)
    ensures Keys(Merge(c, p)) == Overlay(Keys(c), p)
  {
    match c.body
    case TextBody(_) =>
    case TitleBody(_, _) =>
    case TableBody(_, _, _, _) =>
    case ButtonBody(_, _, _, _) =>
    case CardBody(_, _, _, _, _) =>
    case GridBody(_, _, _, _) =>
    case ImageBody(_, _, _, _) =>
    case SpacerBody(_) =>
  }

  /** A patch that carries no key at all leaves the block as it is. */
  lemma MergeEmptyPatch(c: Content)
    ensures Merge(c, EmptyPatch) == c
  {
    match c.body
    case TextBody(_) =>
    case TitleBody(_, _) =>
    case TableBody(_, _, _, _) =>
    case ButtonBody(_, _, _, _) =>
    case CardBody(_, _, _, _, _) =>
    case GridBody(_, _, _, _) =>
    case ImageBody(_, _, _, _) =>
    case SpacerBody(_) =>
  }

  /** `createDefaultTableCell(content)`. */
  function CreateDefaultTableCell(id: Id, content: string): (r: TableCell)
    ensures r.id == id && r.content == content
  {
    TableCell(id, content)
  }

  /** `createDefaultTableRow(cellCount)`: the row id is `ids[0]`, cell k gets `ids[k + 1]`. */
  function CreateDefaultTableRow(cellCount: nat, ids: seq<Id>): (r: TableRow)
    requires |ids| >= cellCount + 1
    ensures r.id == ids[0]
    ensures |r.cells| == cellCount
    ensures forall k :: 0 <= k < cellCount ==> r.cells[k] == TableCell(ids[k + 1], "")
  {
    TableRow(ids[0], seq(cellCount, k requires 0 <= k < cellCount => CreateDefaultTableCell(ids[k + 1], "")))
  }

  /** `createDefaultGridItem(content, contentId)`. */
  function CreateDefaultGridItem(id: Id, content: string, contentId: Option<Id>): (r: GridItem)
    ensures r.id == id && r.content == Some(content) && r.contentId == contentId
    ensures r.colSpan == Some(1) && r.rowSpan == Some(1)
    ensures r.colStart.None? && r.rowStart.None?
  {
    GridItem(id, contentId, Some(content), None, None, Some(1), Some(1))
  }

  /** How many uuids `createDefaultContent` draws for a tag. */
  function DefaultIdCount(t: ContentType): nat
  {
    if t == Table then 6 else 1
  }

  /**
    `createDefaultContent(type, order)`: the block of the requested type, at the requested order,
    with the type's default fields; the block id is `ids[0]`. The match is exhaustive over the
    closed tag set, so the source's unreachable `throw` has no counterpart.
   */
  function CreateDefaultContent(t: ContentType, order: int, ids: seq<Id>): (r: Content)
    requires |ids| >= DefaultIdCount(t)
    ensures r.id == ids[0] && r.kind == t && r.order == order && WellTyped(r)
    ensures r.extra == EmptyPatch
    ensures t == Text ==> r.body == TextBody("New text block...")
    ensures t == Title ==> r.body.content == "New Title" && r.body.level == 2
    ensures t == Table ==>
      && r.body.hasHeader == Some(true)
      && r.body.caption.None?
      && |r.body.headers| == 2
      && r.body.headers[0].content == "Header 1" && r.body.headers[1].content == "Header 2"
      && |r.body.rows| == 1
      && |r.body.rows[0].cells| == |r.body.headers|
      && forall k :: 0 <= k < 2 ==> r.body.rows[0].cells[k].content == ""
    ensures t == Button ==> r.body == ButtonBody("Click Me", "#", Some(Default), None)
    ensures t == Card ==> r.body == CardBody(Some("Card Title"), "Card content...", None, None, None)
    ensures t == Grid ==> r.body == GridBody(2, Some(2), Some(8), [])
    ensures t == Image ==> r.body == ImageBody("", "Placeholder image", None, None)
    ensures t == Spacer ==> r.body == SpacerBody(20)
  {
    var body :=
      match t
      case Text => TextBody("New text block...")
      case Title => TitleBody("New Title", 2)
      case Table =>
        TableBody([CreateDefaultTableCell(ids[1], "Header 1"), CreateDefaultTableCell(ids[2], "Header 2")],
                  [CreateDefaultTableRow(2, ids[3..6])], None, Some(true))
      case Button => ButtonBody("Click Me", "#", Some(Default), None)
      case Card => CardBody(Some("Card Title"), "Card content...", None, None, None)
      case Grid => GridBody(2, Some(2), Some(8), [])
      case Image => ImageBody("", "Placeholder image", None, None)
      case Spacer => SpacerBody(20);
    Content(ids[0], t, order, body, EmptyPatch)
  }

  /** The default table's ids are the six supplied ones, so with distinct ids no two parts share one. */
  lemma DefaultTableIds(order: int, ids: seq<Id>)
    requires |ids| >= 6
    ensures var b := CreateDefaultContent(Table, order, ids).body;
      [b.headers[0].id, b.headers[1].id, b.rows[0].id, b.rows[0].cells[0].id, b.rows[0].cells[1].id] == ids[1..6]
  {
  }
}
