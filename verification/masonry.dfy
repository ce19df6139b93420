/** The shortest-column masonry packer `Minigrid` (minigrid-1.0.1.js).

    Items are given by their rendered heights, in document order. Every item is
    put into the first column whose "next free y" accumulator is smallest, at
    that column's x offset and at that accumulator, truncated to integers as
    `parseInt` does; the accumulator then grows by the item's height plus the
    gutter. The container is as tall as the tallest accumulator.

    JavaScript `NaN` coordinates (what `mount` writes when there is no column at
    all) are `None`. */
module Masonry {
  import opened Util

  // ---------------------------------------------------------------- options

  /** An option value as `validate` sees it: a number, `NaN`, an infinity, or
      anything that is not a number (undefined, a string, an object). */
  datatype JsValue = JsNumber(n: real) | JsNaN | JsInfinity(negative: bool) | JsNotNumber

  /** `typeof v === "number" && isFinite(v) && Math.floor(v) === v` */
  predicate IsIntegerNumber(v: JsValue) {
    v.JsNumber? && v.n.Floor as real == v.n
  }

  /** `validate(value, defaultValue)`: the value itself when it is a finite
      integer number, the default otherwise. */
  function Validate(v: JsValue, defaultValue: int): (r: int)
    ensures IsIntegerNumber(v) ==> r as real == v.n
    ensures !IsIntegerNumber(v) ==> r == defaultValue
  {
    if IsIntegerNumber(v) then v.n.Floor else defaultValue
  }

  /** A validated value is kept by a second validation, whatever its default. */
  lemma ValidateIsIdempotent(v: JsValue, d: int, d': int)
    ensures Validate(JsNumber(Validate(v, d) as real), d') == Validate(v, d)
  {
  }

  /** `responsive`: walks the breakpoint table in iteration order and lets
      every key with `width >= key` overwrite the column count; the last such
      entry wins, and the count is unchanged when no key qualifies. */
  function ResponsiveColumn(breakPoint: seq<(int, int)>, width: int, column: int): int {
    if |breakPoint| == 0 then column
    else
      var last := breakPoint[|breakPoint| - 1];
      if width >= last.0 then last.1
      else ResponsiveColumn(breakPoint[..|breakPoint| - 1], width, column)
  }

  lemma {:induction false} ResponsiveNoneQualifies(breakPoint: seq<(int, int)>, width: int, column: int)
    requires forall j :: 0 <= j < |breakPoint| ==> width < breakPoint[j].0
    ensures ResponsiveColumn(breakPoint, width, column) == column
  {
    if |breakPoint| > 0 {
      ResponsiveNoneQualifies(breakPoint[..|breakPoint| - 1], width, column);
    }
  }

  lemma {:induction false} ResponsiveLastQualifies(breakPoint: seq<(int, int)>, width: int, column: int, i: nat)
    requires i < |breakPoint| && width >= breakPoint[i].0
    requires forall j :: i < j < |breakPoint| ==> width < breakPoint[j].0
    ensures ResponsiveColumn(breakPoint, width, column) == breakPoint[i].1
  {
    if i < |breakPoint| - 1 {
      ResponsiveLastQualifies(breakPoint[..|breakPoint| - 1], width, column, i);
    }
  }

  /** With keys in ascending order (the order in which JavaScript enumerates
      integer-like keys of an object) the count is that of the largest key not
      above the width. */
  lemma ResponsiveAscending(breakPoint: seq<(int, int)>, width: int, column: int, i: nat)
    requires forall j, k :: 0 <= j < k < |breakPoint| ==> breakPoint[j].0 < breakPoint[k].0
    requires i < |breakPoint| && breakPoint[i].0 <= width
    requires i + 1 == |breakPoint| || width < breakPoint[i + 1].0
    ensures ResponsiveColumn(breakPoint, width, column) == breakPoint[i].1
  {
    ResponsiveLastQualifies(breakPoint, width, column, i);
  }

  // ------------------------------------------------------------- geometry

  /** `parseInt` of a number: its integer part, truncated toward zero. */
  function Trunc(r: real): (t: int)
    ensures 0.0 <= r ==> t as real <= r < t as real + 1.0
    ensures r < 0.0 ==> t as real - 1.0 < r <= t as real
  {
    if r >= 0.0 then r.Floor else -((-r).Floor)
  }

  /** `firstChildWidth`: the container width less one gutter, shared by the columns. */
  function ColumnWidth(width: real, gutter: int, column: int): real
    requires column >= 1
  {
    (width - gutter as real) / column as real
  }

  function Reversed<T>(s: seq<T>): (r: seq<T>)
    ensures |r| == |s|
    ensures forall i :: 0 <= i < |s| ==> r[i] == s[|s| - 1 - i]
  {
    if s == [] then [] else Reversed(s[1..]) + [s[0]]
  }

  /** The x offsets as pushed: column `i` at `i * firstChildWidth + gutter`. */
  function LeftToRight(width: real, gutter: int, column: int): seq<real>
    requires column >= 1
  {
    seq(column, i => i as real * ColumnWidth(width, gutter, column) + gutter as real)
  }

  /** `itemsPosX`, reversed for right-to-left layouts. */
  function ColumnOffsets(width: real, gutter: int, column: int, rtl: bool): (xs: seq<real>)
    requires column >= 1
    ensures |xs| == column
  {
    var ltr := LeftToRight(width, gutter, column);
    if rtl then Reversed(ltr) else ltr
  }

  /** Left to right, column `i` starts `i` column widths right of the gutter;
      right to left, column `i` takes the offset of column `column - 1 - i`,
      so the first column is the rightmost. */
  lemma ColumnOffsetAt(width: real, gutter: int, column: int, rtl: bool, i: nat)
    requires column >= 1 && i < column
    ensures ColumnOffsets(width, gutter, column, rtl)[i]
         == (if rtl then column - 1 - i else i) as real * ColumnWidth(width, gutter, column) + gutter as real
  {
    var ltr := LeftToRight(width, gutter, column);
    var j := if rtl then column - 1 - i else i;
    assert ColumnOffsets(width, gutter, column, rtl)[i] == ltr[j];
  }

  /** The first column holding the smallest accumulator: `sort(...).shift()`
      gives the smallest value, `indexOf` its first column. */
  function FirstMin(acc: seq<real>): (c: nat)
    requires |acc| > 0
    ensures c < |acc|
    ensures forall j :: 0 <= j < |acc| ==> acc[c] <= acc[j]
    ensures forall j :: 0 <= j < c ==> acc[c] < acc[j]
  {
    if |acc| == 1 then 0
    else
      var c := FirstMin(acc[..|acc| - 1]);
      if acc[|acc| - 1] < acc[c] then |acc| - 1 else c
  }

  /** The two properties of `FirstMin` single out one column. */
  lemma FirstMinUnique(acc: seq<real>, c: nat)
    requires c < |acc|
    requires forall j :: 0 <= j < |acc| ==> acc[c] <= acc[j]
    requires forall j :: 0 <= j < c ==> acc[c] < acc[j]
    ensures c == FirstMin(acc)
  {
  }

  /** The largest accumulator: `sort(...).pop()`. */
  function MaxOf(acc: seq<real>): (m: real)
    requires |acc| > 0
    ensures m in acc
    ensures forall j :: 0 <= j < |acc| ==> acc[j] <= m
  {
    if |acc| == 1 then acc[0]
    else
      var m := MaxOf(acc[..|acc| - 1]);
      assert m in acc by { assert acc[..|acc| - 1] <= acc; }
      if acc[|acc| - 1] > m then acc[|acc| - 1] else m
  }

  // -------------------------------------------------------------- packing

  /** `data-axis-x` / `data-axis-y` of one item; `None` is `NaN`. */
  datatype Placement = Placement(x: Option<int>, y: Option<int>)

  /** The column accumulators and the placements made so far. */
  datatype Packing = Packing(acc: seq<real>, placed: seq<Placement>)

  function Place(p: Packing, height: real, gutter: int, xs: seq<real>): (q: Packing)
    requires |p.acc| == |xs| > 0
    ensures |q.acc| == |xs| && |q.placed| == |p.placed| + 1
  {
    var c := FirstMin(p.acc);
    Packing(p.acc[c := p.acc[c] + height + gutter as real],
            p.placed + [Placement(Some(Trunc(xs[c])), Some(Trunc(p.acc[c])))])
  }

  /** Packing the items in order into columns at offsets `xs`, every
      accumulator starting at the gutter. */
  function Pack(heights: seq<real>, gutter: int, xs: seq<real>): (p: Packing)
    requires |xs| > 0
    ensures |p.acc| == |xs| && |p.placed| == |heights|
  {
    if |heights| == 0 then Packing(seq(|xs|, _ => gutter as real), [])
    else Place(Pack(heights[..|heights| - 1], gutter, xs), heights[|heights| - 1], gutter, xs)
  }

  /** Placing more items never moves the ones already placed. */
  lemma {:induction false} PackPrefix(heights: seq<real>, gutter: int, xs: seq<real>, k: nat)
    requires |xs| > 0 && k <= |heights|
    ensures Pack(heights[..k], gutter, xs).placed == Pack(heights, gutter, xs).placed[..k]
  {
    if k < |heights| {
      var n := |heights| - 1;
      PackPrefix(heights[..n], gutter, xs, k);
      assert heights[..n][..k] == heights[..k];
    } else {
      assert heights[..k] == heights;
    }
  }

  lemma PackStep(heights: seq<real>, gutter: int, xs: seq<real>, k: nat)
    requires |xs| > 0 && k < |heights|
    ensures Pack(heights[..k + 1], gutter, xs) == Place(Pack(heights[..k], gutter, xs), heights[k], gutter, xs)
  {
    assert heights[..k + 1][..k] == heights[..k];
  }

  /** The column item `k` goes into. */
  function ColumnOf(heights: seq<real>, gutter: int, xs: seq<real>, k: nat): nat
    requires |xs| > 0 && k < |heights|
  {
    FirstMin(Pack(heights[..k], gutter, xs).acc)
  }

  /** Item `k` goes to the first column whose accumulator is minimal when it is
      placed (every earlier column strictly taller, no column shorter), at that
      column's offset and accumulator truncated; only that accumulator changes,
      by the item's height plus the gutter. */
  lemma PackShortestColumn(heights: seq<real>, gutter: int, xs: seq<real>, k: nat)
    requires |xs| > 0 && k < |heights|
    ensures var before := Pack(heights[..k], gutter, xs).acc;
            var c := ColumnOf(heights, gutter, xs, k);
            && c < |xs|
            && (forall j :: 0 <= j < |xs| ==> before[c] <= before[j])
            && (forall j :: 0 <= j < c ==> before[c] < before[j])
            && Pack(heights, gutter, xs).placed[k] == Placement(Some(Trunc(xs[c])), Some(Trunc(before[c])))
            && Pack(heights[..k + 1], gutter, xs).acc == before[c := before[c] + heights[k] + gutter as real]
  {
    PackPrefix(heights, gutter, xs, k + 1);
    assert heights[..k + 1][..k] == heights[..k];
  }

  /** With non-negative steps (height plus gutter) no accumulator ever decreases. */
  lemma {:induction false} AccumulatorsNeverDecrease(heights: seq<real>, gutter: int, xs: seq<real>, k: nat)
    requires |xs| > 0 && k <= |heights|
    requires forall i :: 0 <= i < |heights| ==> heights[i] + gutter as real >= 0.0
    ensures forall j :: 0 <= j < |xs| ==>
      Pack(heights[..k], gutter, xs).acc[j] <= Pack(heights, gutter, xs).acc[j]
  {
    if k < |heights| {
      var n := |heights| - 1;
      AccumulatorsNeverDecrease(heights[..n], gutter, xs, k);
      assert heights[..n][..k] == heights[..k];
    } else {
      assert heights[..k] == heights;
    }
  }

  function Sum(s: seq<real>): real {
    if s == [] then 0.0 else Sum(s[..|s| - 1]) + s[|s| - 1]
  }

  lemma {:induction false} SumUpdate(s: seq<real>, c: nat, d: real)
    requires c < |s|
    ensures Sum(s[c := s[c] + d]) == Sum(s) + d
  {
    var n := |s| - 1;
    assert s[c := s[c] + d][..n] == if c < n then s[..n][c := s[c] + d] else s[..n];
    if c < n {
      SumUpdate(s[..n], c, d);
    }
  }

  lemma {:induction false} SumConstant(n: nat, g: real)
    ensures Sum(seq(n, _ => g)) == Gutters(n, g)
  {
    if n > 0 {
      assert seq(n, _ => g)[..n - 1] == seq(n - 1, _ => g);
      SumConstant(n - 1, g);
    }
  }

  /** `n` gutters laid end to end. */
  function Gutters(n: nat, g: real): real {
    if n == 0 then 0.0 else Gutters(n - 1, g) + g
  }

  /** Nothing is lost: the accumulators together hold the starting gutters plus
      every item's height and gutter. */
  lemma {:induction false} PackConservesHeight(heights: seq<real>, gutter: int, xs: seq<real>)
    requires |xs| > 0
    ensures Sum(Pack(heights, gutter, xs).acc)
         == Gutters(|xs|, gutter as real) + Sum(heights) + Gutters(|heights|, gutter as real)
  {
    if |heights| == 0 {
      SumConstant(|xs|, gutter as real);
    } else {
      var n := |heights| - 1;
      var g := gutter as real;
      var p := Pack(heights[..n], gutter, xs);
      PackConservesHeight(heights[..n], gutter, xs);
      assert Pack(heights, gutter, xs) == Place(p, heights[n], gutter, xs);
      SumUpdate(p.acc, FirstMin(p.acc), heights[n] + g);
      assert Sum(heights) == Sum(heights[..n]) + heights[n];

    }
  }

  /** Four items of heights 100, 50, 80 and 120 in two columns, gutter 10,
      container 210 wide: x = 10, 110, 110, 10; y = 10, 10, 70, 120; the
      container ends 250 tall. */
  lemma PackExample()
    ensures var p := Pack([100.0, 50.0, 80.0, 120.0], 10, ColumnOffsets(210.0, 10, 2, false));
            && p.placed == [Placement(Some(10), Some(10)), Placement(Some(110), Some(10)),
                            Placement(Some(110), Some(70)), Placement(Some(10), Some(120))]
            && MaxOf(p.acc) == 250.0
  {
    var xs := ColumnOffsets(210.0, 10, 2, false);
    assert xs == [10.0, 110.0];
    var hs := [100.0, 50.0, 80.0, 120.0];
    var a, b, c, d := Placement(Some(10), Some(10)), Placement(Some(110), Some(10)),
                      Placement(Some(110), Some(70)), Placement(Some(10), Some(120));
    assert Pack(hs[..0], 10, xs) == Packing([10.0, 10.0], []) by { assert hs[..0] == []; }
    assert Pack(hs[..1], 10, xs) == Packing([120.0, 10.0], [a]) by { assert hs[..1][..0] == hs[..0]; }
    assert Pack(hs[..2], 10, xs) == Packing([120.0, 70.0], [a, b]) by { assert hs[..2][..1] == hs[..1]; }
    assert Pack(hs[..3], 10, xs) == Packing([120.0, 160.0], [a, b, c]) by { assert hs[..3][..2] == hs[..2]; }
    assert Pack(hs, 10, xs) == Packing([250.0, 160.0], [a, b, c, d]) by { assert hs[..3] == hs[..4][..3] && hs[..4] == hs; }
  }

  // ------------------------------------------------------------- the widget

  /** What `mount` writes into the page: each item's `data-axis-x/y`, the
      container's height and the items' width. */
  datatype Rendered = Rendered(placements: seq<Placement>, containerHeight: Option<real>, itemWidth: Option<real>)

  /** The page after `mount`: untouched without a container or without items;
      with no column at all every item gets `NaN` coordinates (the minimum of an
      empty list is undefined); otherwise the packing. */
  function MountResult(hasContainer: bool, heights: seq<real>, gutter: int, column: int, rtl: bool,
                       containerWidth: real, before: Rendered): Rendered
  {
    if !hasContainer || |heights| == 0 then before
    else if column < 1 then
      Rendered(seq(|heights|, _ => Placement(None, None)), before.containerHeight, before.itemWidth)
    else LaidOut(heights, gutter, column, rtl, containerWidth)
  }

  /** The page once every item is packed into `column` columns: the
      placements, the tallest column as the container height, and the column
      width less one gutter as the item width. */
  function LaidOut(heights: seq<real>, gutter: int, column: int, rtl: bool, containerWidth: real): Rendered
    requires column >= 1
  {
    var p := Pack(heights, gutter, ColumnOffsets(containerWidth, gutter, column, rtl));
    Rendered(p.placed, Some(MaxOf(p.acc)), Some(ColumnWidth(containerWidth, gutter, column) - gutter as real))
  }

  method ReverseInPlace(a: array<real>)
    modifies a
    ensures a[..] == Reversed(old(a[..]))
  {
    var i := 0;
    while i < a.Length / 2
      invariant 0 <= i <= a.Length / 2
      invariant forall j :: 0 <= j < i ==> a[j] == old(a[a.Length - 1 - j]) && a[a.Length - 1 - j] == old(a[j])
      invariant forall j :: i <= j < a.Length - i ==> a[j] == old(a[j])
    {
      a[i], a[a.Length - 1 - i] := a[a.Length - 1 - i], a[i];
      i := i + 1;
    }
  }

  /** `itemsGutter.slice(0).sort(...).shift()` then `itemsGutter.indexOf(...)`. */
  method ShortestColumn(a: array<real>) returns (c: nat)
    requires a.Length > 0
    ensures c < a.Length
    ensures forall j :: 0 <= j < a.Length ==> a[c] <= a[j]
    ensures forall j :: 0 <= j < c ==> a[c] < a[j]
    ensures c == FirstMin(a[..])
  {
    var least := a[0];
    var i := 1;
    while i < a.Length
      invariant 1 <= i <= a.Length
      invariant least in a[..i]
      invariant forall j :: 0 <= j < i ==> least <= a[j]
    {
      if a[i] < least {
        least := a[i];
      }
      i := i + 1;
    }
    assert a[..i] == a[..];
    c := 0;
    while a[c] != least
      invariant c < a.Length
      invariant forall j :: 0 <= j < c ==> a[j] != least
      invariant least in a[c..]
      decreases a.Length - c
    {
      c := c + 1;
    }
    FirstMinUnique(a[..], c);
  }

  /** The two column lists `mount` pushes: every accumulator at the gutter,
      column `i` at `i * firstChildWidth + gutter`. */
  method ColumnArrays(n: nat, firstChildWidth: real, gutter: int) returns (itemsGutter: array<real>, itemsPosX: array<real>)
    ensures fresh(itemsGutter) && fresh(itemsPosX) && itemsGutter != itemsPosX
    ensures itemsGutter[..] == seq(n, _ => gutter as real)
    ensures itemsPosX[..] == seq(n, j => j as real * firstChildWidth + gutter as real)
  {
    itemsGutter := new real[n];
    itemsPosX := new real[n];
    var i := 0;
    while i < n
      invariant 0 <= i <= n
      invariant forall j :: 0 <= j < i ==> itemsGutter[j] == gutter as real
      invariant forall j :: 0 <= j < i ==> itemsPosX[j] == j as real * firstChildWidth + gutter as real
    {
      itemsPosX[i] := i as real * firstChildWidth + gutter as real;
      itemsGutter[i] := gutter as real;
      i := i + 1;
    }
    assert forall j :: 0 <= j < n ==> itemsPosX[..][j] == seq(n, j => j as real * firstChildWidth + gutter as real)[j];
  }

  /** The column arrays `mount` builds: one gutter-high accumulator and one
      x offset per column, reversed for right-to-left; none when the column
      count is not positive. */
  method Columns(containerWidth: real, gutter: int, column: int, rtl: bool)
    returns (itemsGutter: array<real>, itemsPosX: array<real>, firstChildWidth: real)
    ensures fresh(itemsGutter) && fresh(itemsPosX) && itemsGutter != itemsPosX
    ensures itemsGutter.Length == itemsPosX.Length == if column > 0 then column else 0
    ensures column > 0 ==>
      && itemsPosX[..] == ColumnOffsets(containerWidth, gutter, column, rtl)
      && itemsGutter[..] == Pack([], gutter, ColumnOffsets(containerWidth, gutter, column, rtl)).acc
      && firstChildWidth == ColumnWidth(containerWidth, gutter, column)
  {
    var n := if column > 0 then column else 0;
    firstChildWidth := if column > 0 then ColumnWidth(containerWidth, gutter, column) else 0.0;
    itemsGutter, itemsPosX := ColumnArrays(n, firstChildWidth, gutter);
    if n > 0 {
      assert itemsPosX[..] == LeftToRight(containerWidth, gutter, column);
      assert itemsGutter[..] == Pack([], gutter, ColumnOffsets(containerWidth, gutter, column, rtl)).acc;
    }
    if rtl {
      ReverseInPlace(itemsPosX);
    }
  }

  /** What `mount` computes once it has a container and items: build the column arrays,
      place every item, and report the tallest column and the column width. */
  method Layout(heights: seq<real>, gutter: int, column: int, rtl: bool, containerWidth: real)
    returns (placed: seq<Placement>, tallest: Option<real>, firstChildWidth: real)
    requires |heights| > 0
    ensures column >= 1 ==>
      LaidOut(heights, gutter, column, rtl, containerWidth) == Rendered(placed, tallest, Some(firstChildWidth - gutter as real))
    ensures column < 1 ==> placed == seq(|heights|, _ => Placement(None, None)) && tallest == None
  {
    var itemsGutter, itemsPosX;
    itemsGutter, itemsPosX, firstChildWidth := Columns(containerWidth, gutter, column, rtl);
    ghost var xs: seq<real> := if column > 0 then ColumnOffsets(containerWidth, gutter, column, rtl) else [];
    placed, tallest := PlaceItems(heights, gutter, itemsGutter, itemsPosX, xs);
  }

  /** One turn of `mount`'s item loop on the two column lists: the item goes to
      the first shortest column and that column's accumulator grows. */
  method PlaceItem(itemsGutter: array<real>, itemsPosX: array<real>, height: real, gutter: int,
                   ghost placed: seq<Placement>) returns (placement: Placement)
    requires itemsGutter.Length == itemsPosX.Length > 0 && itemsGutter != itemsPosX
    modifies itemsGutter
    ensures Place(Packing(old(itemsGutter[..]), placed), height, gutter, itemsPosX[..])
         == Packing(itemsGutter[..], placed + [placement])
  {
    var c := ShortestColumn(itemsGutter);
    var posX := Trunc(itemsPosX[c]);
    var posY := Trunc(itemsGutter[c]);
    placement := Placement(Some(posX), Some(posY));
    itemsGutter[c] := itemsGutter[c] + height + gutter as real;
  }

  /** `mount`'s item loop: every item placed in turn; with no column at all
      every item gets `NaN` coordinates. Returns the placements and the last
      container height written. */
  method PlaceItems(items: seq<real>, gutter: int, itemsGutter: array<real>, itemsPosX: array<real>,
                    ghost xs: seq<real>) returns (placed: seq<Placement>, tallest: Option<real>)
    requires itemsGutter.Length == itemsPosX.Length && itemsGutter != itemsPosX && |items| > 0
    requires itemsGutter.Length > 0 ==> itemsPosX[..] == xs && itemsGutter[..] == Pack([], gutter, xs).acc
    modifies itemsGutter
    ensures itemsGutter.Length > 0 ==>
      placed == Pack(items, gutter, xs).placed && tallest == Some(MaxOf(Pack(items, gutter, xs).acc))
    ensures itemsGutter.Length == 0 ==> placed == seq(|items|, _ => Placement(None, None)) && tallest == None
  {
    placed := [];
    tallest := None;
    var k := 0;
    while k < |items|
      invariant 0 <= k <= |items|
      invariant |placed| == k
      invariant itemsGutter.Length > 0 ==> itemsPosX[..] == xs
      invariant itemsGutter.Length > 0 ==> Packing(itemsGutter[..], placed) == Pack(items[..k], gutter, xs)
      invariant itemsGutter.Length > 0 && k > 0 ==> tallest == Some(MaxOf(itemsGutter[..]))
      invariant itemsGutter.Length == 0 ==> placed == seq(k, _ => Placement(None, None)) && tallest == None
    {
      if itemsGutter.Length == 0 {
        placed := placed + [Placement(None, None)];
      } else {
        PackStep(items, gutter, xs, k);
        var placement := PlaceItem(itemsGutter, itemsPosX, items[k], gutter, placed);
        placed := placed + [placement];
        tallest := Some(MaxOf(itemsGutter[..]));
      }
      k := k + 1;
    }
    assert items[..k] == items;
  }

  class Minigrid {
    /** Whether `props.container` names an element. */
    const hasContainer: bool
    /** The item list, as the height of each item when the grid is built, in
        document order. Every `mount` measures the heights again. */
    const items: seq<real>
    const gutter: int
    /** `props.breakPoint` in iteration order: (minimum width, column count). */
    const breakPoint: seq<(int, int)>
    const rtl: bool
    var column: int
    var placements: seq<Placement>
    var containerHeight: Option<real>
    var itemWidth: Option<real>

    ghost predicate Valid()
      reads this
    {
      |placements| == |items|
    }

    function Page(): Rendered
      reads this
    {
      Rendered(placements, containerHeight, itemWidth)
    }

    /** The constructor validates gutter (default 50) and column (default 3),
        runs `responsive`, then `mount`, then registers the resize handler.
        Without a container the item query at line 10 throws, so a container
        is required. */
    constructor (containerPresent: bool, itemHeights: seq<real>, gutterOption: JsValue, columnOption: JsValue,
                 breakPoints: seq<(int, int)>, rightToLeft: bool, innerWidth: int, containerWidth: real)
      requires containerPresent
      ensures Valid()
      ensures hasContainer == containerPresent && items == itemHeights && breakPoint == breakPoints && rtl == rightToLeft
      ensures gutter == Validate(gutterOption, 50)
      ensures column == ResponsiveColumn(breakPoints, innerWidth, Validate(columnOption, 3))
      ensures Page() == MountResult(containerPresent, itemHeights, gutter, column, rightToLeft, containerWidth,
                                    Rendered(seq(|itemHeights|, _ => Placement(None, None)), None, None))
    {
      hasContainer := containerPresent;
      items := itemHeights;
      gutter := Validate(gutterOption, 50);
      column := Validate(columnOption, 3);
      breakPoint := breakPoints;
      rtl := rightToLeft;
      placements := seq(|itemHeights|, _ => Placement(None, None));
      containerHeight := None;
      itemWidth := None;
      new;
      Responsive(innerWidth);
      var _ := Mount(containerWidth, itemHeights);
    }

    /** The window's resize handler: `mount` first, then `responsive`, so the
        layout uses the column count from before the resize. `heights` are the
        items' heights as `mount` measures them after the resize. */
    method OnResize(innerWidth: int, containerWidth: real, heights: seq<real>)
      requires Valid() && |heights| == |items|
      modifies this`column, this`placements, this`containerHeight, this`itemWidth
      ensures Valid()
      ensures Page() == MountResult(hasContainer, heights, gutter, old(column), rtl, containerWidth, old(Page()))
      ensures column == ResponsiveColumn(breakPoint, innerWidth, old(column))
    {
      var _ := Mount(containerWidth, heights);
      Responsive(innerWidth);
    }

    method Responsive(innerWidth: int)
      modifies this`column
      ensures column == ResponsiveColumn(breakPoint, innerWidth, old(column))
    {
      var i := 0;
      while i < |breakPoint|
        invariant 0 <= i <= |breakPoint|
        invariant column == ResponsiveColumn(breakPoint[..i], innerWidth, old(column))
      {
        assert breakPoint[..i + 1][..i] == breakPoint[..i];
        if innerWidth >= breakPoint[i].0 {
          column := breakPoint[i].1;
        }
        i := i + 1;
      }
      assert breakPoint[..i] == breakPoint;
    }

    /** `mount`: false, and nothing written, without a container or without
        items; otherwise every item placed in turn, and the method falls off
        its end, returning `undefined` (`None`). `heights` are the items'
        heights as read in turn, each after its new width is written. */
    method Mount(containerWidth: real, heights: seq<real>) returns (mounted: Option<bool>)
      requires Valid() && |heights| == |items|
      modifies this`placements, this`containerHeight, this`itemWidth
      ensures mounted == if hasContainer && |items| > 0 then None else Some(false)
      ensures Valid()
      ensures Page() == MountResult(hasContainer, heights, gutter, column, rtl, containerWidth, old(Page()))
    {
      if !hasContainer {
        return Some(false);
      }
      if |items| == 0 {
        return Some(false);
      }
      mounted := None;
      Render(containerWidth, heights);
    }

    /** The body of `mount` past its early returns: the computed layout is
        written out, the container height and item width only when there
        are columns. */
    method Render(containerWidth: real, heights: seq<real>)
      requires hasContainer && |heights| > 0
      modifies this`placements, this`containerHeight, this`itemWidth
      ensures Page() == MountResult(true, heights, gutter, column, rtl, containerWidth, old(Page()))
    {
      var placed, tallest, firstChildWidth := Layout(heights, gutter, column, rtl, containerWidth);
      placements := placed;
      if column > 0 {
        containerHeight := tallest;
        itemWidth := Some(firstChildWidth - gutter as real);
      }
    }
  }
}
