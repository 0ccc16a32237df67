/**
  The grid editor's form state (src/components/ContentCreator/Forms/GridForm.tsx): a column count,
  a row count and the grid items. A position reset lays the items out row-major over the column
  count. The counts come from `parseInt(value) || 1`, so they are never 0 but may be negative.
 */
module GridForm {
  import opened Common
  import opened ContentTypes
  import opened SeqOps

  /** A decimal digit character. */
  function Digit(d: nat): (c: char)
    requires d < 10
    ensures '0' <= c <= '9' && c as int - '0' as int == d
  {
    ('0' as int + d) as char
  }

  predicate IsDigits(s: string)
  {
    forall k :: 0 <= k < |s| ==> '0' <= s[k] <= '9'
  }

  /** `${n}` for a natural number: its decimal digits, most significant first. */
  function NatToString(n: nat): (r: string)
    ensures |r| >= 1 && IsDigits(r)
    ensures n >= 10 ==> r[0] != '0'
    decreases n
  {
    if n < 10 then [Digit(n)] else NatToString(n / 10) + [Digit(n % 10)]
  }

  /** The number a string of decimal digits denotes. */
  function DigitsValue(s: string): nat
    requires IsDigits(s)
  {
    if |s| == 0 then 0 else DigitsValue(s[..|s| - 1]) * 10 + (s[|s| - 1] as int - '0' as int)
  }

  /** Reading back the digits of `${n}` gives `n`, so distinct numbers print differently. */
  lemma {:induction false} NatToStringRoundTrip(n: nat)
    ensures DigitsValue(NatToString(n)) == n
    decreases n
  {
    if n >= 10 {
      NatToStringRoundTrip(n / 10);
      var s := NatToString(n);
      assert s[..|s| - 1] == NatToString(n / 10);
    }
  }

  /** JavaScript's `a % b` (truncating: the remainder takes the sign of `a`). */
  function JsRem(a: int, b: int): (r: int)
    requires b != 0
    ensures a >= 0 ==> 0 <= r < (if b > 0 then b else -b)
    ensures a < 0 ==> -(if b > 0 then b else -b) < r <= 0
  {
    var m := if b > 0 then b else -b;
    if a >= 0 then a % m else -((-a) % m)
  }

  /** `Math.floor(a / b)`. */
  function FloorDiv(a: int, b: int): (q: int)
    requires b != 0
    ensures b > 0 ==> b * q <= a < b * q + b
    ensures b < 0 ==> b * q >= a > b * q + b
  {
    if b > 0 then a / b else (-a) / (-b)
  }

  /** The form's initial data, when the caller passes some. */
  datatype GridData = GridData(columns: int, rows: int, items: seq<GridItem>)

  /** The 25 initial items: item `i` shows `i + 1` at column `(i % 5) + 1`, row `⌊i / 5⌋ + 1`. */
  function DefaultItems(ids: seq<Id>): (r: seq<GridItem>)
    requires |ids| >= 25
    ensures |r| == 25
    ensures forall i :: 0 <= i < 25 ==>
      && r[i].id == ids[i] && r[i].content == Some(NatToString(i + 1))
      && r[i].contentId.None? && r[i].colSpan.None? && r[i].rowSpan.None?
      && r[i].colStart.Some? && r[i].rowStart.Some?
      && 1 <= r[i].colStart.value <= 5 && 1 <= r[i].rowStart.value <= 5
  {
    seq(25, i requires 0 <= i < 25 =>
      GridItem(ids[i], None, Some(NatToString(i + 1)), Some(i % 5 + 1), Some(i / 5 + 1), None, None))
  }

  /**
    `resetPositions()`: item `i` goes to column `(i % columns) + 1` and row
    `Math.floor(i / columns) + 1`; nothing else about any item changes.
   */
  function ResetLayout(items: seq<GridItem>, columns: int): (r: seq<GridItem>)
    requires columns != 0
    ensures |r| == |items|
    ensures forall i :: 0 <= i < |items| ==>
      && r[i].id == items[i].id && r[i].content == items[i].content && r[i].contentId == items[i].contentId
      && r[i].colSpan == items[i].colSpan && r[i].rowSpan == items[i].rowSpan
      && r[i].colStart.Some? && r[i].rowStart.Some?
  {
    seq(|items|, i requires 0 <= i < |items| =>
      items[i].(colStart := Some(JsRem(i, columns) + 1), rowStart := Some(FloorDiv(i, columns) + 1)))
  }

  /**
    For a positive column count the reset is a row-major layout: every column lies in
    [1, columns], every row is at least 1, and item `i` sits at `(row - 1) * columns + (col - 1) == i`.
   */
  lemma ResetLayoutRowMajor(items: seq<GridItem>, columns: int, i: int)
    requires columns >= 1 && 0 <= i < |items|
    ensures var r := ResetLayout(items, columns);
      && 1 <= r[i].colStart.value <= columns
      && r[i].rowStart.value >= 1
      && (r[i].rowStart.value - 1) * columns + (r[i].colStart.value - 1) == i
  {
    var r := ResetLayout(items, columns);
    var col, row := i % columns, i / columns;
    assert r[i].colStart.value == col + 1 && r[i].rowStart.value == row + 1;
    DivModParts(i, columns);
  }

  /** Euclidean division by a positive divisor splits `i` into a quotient and a remainder. */
  lemma DivModParts(i: nat, c: int)
    requires c >= 1
    ensures 0 <= i % c < c && i / c >= 0 && (i / c) * c + i % c == i
  {
  }

  /** For a positive column count, distinct items are put in distinct cells. */
  lemma ResetLayoutDistinct(items: seq<GridItem>, columns: int, i: int, j: int)
    requires columns >= 1 && 0 <= i < j < |items|
    ensures var r := ResetLayout(items, columns);
      r[i].colStart != r[j].colStart || r[i].rowStart != r[j].rowStart
  {
    ResetLayoutRowMajor(items, columns, i);
    ResetLayoutRowMajor(items, columns, j);
  }

  /**
    A negative column count (which the number field lets through) still gives columns in
    [1, -columns], but every item after the first gets a row below 1.
   */
  lemma ResetLayoutNegativeColumns(items: seq<GridItem>, columns: int, i: int)
    requires columns < 0 && 0 <= i < |items|
    ensures var r := ResetLayout(items, columns);
      && 1 <= r[i].colStart.value <= -columns
      && (i == 0 ==> r[i].rowStart.value == 1)
      && (i > 0 ==> r[i].rowStart.value <= 0)
  {
  }

  /** The initial layout is the reset layout for five columns. */
  lemma DefaultItemsAreResetLayout(ids: seq<Id>)
    requires |ids| >= 25
    ensures ResetLayout(DefaultItems(ids), 5) == DefaultItems(ids)
  {
  }

  /** The `updateItemContent` map: only items with the id get the new text. */
  function WithContent(items: seq<GridItem>, id: Id, content: string): (r: seq<GridItem>)
    ensures |r| == |items|
    ensures forall i :: 0 <= i < |items| && items[i].id != id ==> r[i] == items[i]
    ensures forall i :: 0 <= i < |items| && items[i].id == id ==> r[i] == items[i].(content := Some(content))
  {
    seq(|items|, i requires 0 <= i < |items| => if items[i].id == id then items[i].(content := Some(content)) else items[i])
  }

  /** The `updateItemPosition` map: only items with the id move, to exactly the given (possibly absent) start lines. */
  function WithPosition(items: seq<GridItem>, id: Id, colStart: Option<int>, rowStart: Option<int>): (r: seq<GridItem>)
    ensures |r| == |items|
    ensures forall i :: 0 <= i < |items| && items[i].id != id ==> r[i] == items[i]
    ensures forall i :: 0 <= i < |items| && items[i].id == id ==>
      r[i] == items[i].(colStart := colStart, rowStart := rowStart)
  {
    seq(|items|, i requires 0 <= i < |items| =>
      if items[i].id == id then items[i].(colStart := colStart, rowStart := rowStart) else items[i])
  }

  /** The `removeItem` filter's test for one item. */
  function OtherItem(id: Id): GridItem -> bool
  {
    (x: GridItem) => x.id != id
  }

  /** The `removeItem` filter: exactly the items with another id remain, in their order. */
  function WithoutItem(items: seq<GridItem>, id: Id): (r: seq<GridItem>)
    ensures forall x :: x in r <==> x in items && x.id != id
  {
    forall x ensures x in Filter(items, OtherItem(id)) <==> x in items && OtherItem(id)(x) {
      FilterMembership(items, OtherItem(id), x);
    }
    Filter(items, OtherItem(id))
  }

  /**
    The removal works item by item and keeps list order: it distributes over concatenation,
    and a single item survives exactly when its id differs.
   */
  lemma WithoutItemElementwise(a: seq<GridItem>, b: seq<GridItem>, x: GridItem, id: Id)
    ensures WithoutItem(a + b, id) == WithoutItem(a, id) + WithoutItem(b, id)
    ensures WithoutItem([x], id) == if x.id != id then [x] else []
  {
    FilterAppend(a, b, OtherItem(id));
  }

  class GridFormState {
    var columns: int
    var rows: int
    var items: seq<GridItem>

    /** Neither count is ever 0: the initial `|| 5` and the field's `|| 1` replace it. */
    predicate Valid()
      reads this
    {
      columns != 0 && rows != 0
    }

    /**
      `initialData?.columns || 5`, `initialData?.rows || 5`, `initialData?.items || 25 items`;
      the default items draw `ids[0..25]`.
     */
    constructor(initial: Option<GridData>, ids: seq<Id>)
      requires initial.None? ==> |ids| >= 25
      ensures Valid()
      ensures initial.None? ==> columns == 5 && rows == 5 && items == DefaultItems(ids)
      ensures initial.Some? ==>
        && columns == OrNumber(Some(initial.value.columns), 5)
        && rows == OrNumber(Some(initial.value.rows), 5)
        && items == initial.value.items
    {
      if initial.Some? {
        columns := OrNumber(Some(initial.value.columns), 5);
        rows := OrNumber(Some(initial.value.rows), 5);
        items := initial.value.items;
      } else {
        columns := 5;
        rows := 5;
        items := DefaultItems(ids);
      }
    }

    method UpdateItemContent(id: Id, content: string)
      modifies this`items
      ensures items == WithContent(old(items), id, content)
    {
      items := WithContent(items, id, content);
    }

    method UpdateItemPosition(id: Id, colStart: Option<int>, rowStart: Option<int>)
      modifies this`items
      ensures items == WithPosition(old(items), id, colStart, rowStart)
    {
      items := WithPosition(items, id, colStart, rowStart);
    }

    /** `addItem()`: append an unpositioned item whose text is the new item count. */
    method AddItem(freshId: Id)
      modifies this`items
      ensures items == old(items) + [GridItem(freshId, None, Some(NatToString(|old(items)| + 1)), None, None, None, None)]
      ensures DigitsValue(items[|items| - 1].content.value) == |items|
    {
      NatToStringRoundTrip(|items| + 1);
      items := items + [GridItem(freshId, None, Some(NatToString(|items| + 1)), None, None, None, None)];
    }

    method RemoveItem(id: Id)
      modifies this`items
      ensures items == WithoutItem(old(items), id)
    {
      items := WithoutItem(items, id);
    }

    method ResetPositions()
      requires Valid()
      modifies this`items
      ensures items == ResetLayout(old(items), columns)
    {
      items := ResetLayout(items, columns);
    }

    /** The column field: `parseInt(value) || 1`, where `None` stands for NaN. */
    method SetColumns(parsed: Option<int>)
      modifies this`columns
      ensures columns == OrNumber(parsed, 1)
      ensures old(Valid()) ==> Valid()
    {
      columns := OrNumber(parsed, 1);
    }

    /** The row field, likewise. */
    method SetRows(parsed: Option<int>)
      modifies this`rows
      ensures rows == OrNumber(parsed, 1)
      ensures old(Valid()) ==> Valid()
    {
      rows := OrNumber(parsed, 1);
    }
  }
}
