/** The drag-to-reorder grid of script.js.

    The cards are identified by `ItemId`s; the children of the card container
    are the sequence `order`. Each card carries the `data-axis-x` / `data-axis-y`
    attributes the packer wrote, read back with `parseInt` (`None` is `NaN`).
    A drag of card `t` by a move vector snaps the card's original slot plus the
    vector to the nearest recorded x and the nearest recorded y; when another
    card records exactly that cell, `t` is moved to that card's index. */
module Reorder {
  import opened Util
  import Masonry

  type ItemId = nat

  // -------------------------------------------------------------- closest

  /** `closest(value, array)`: the index of the first entry nearest to
      `value`, -1 for an empty array. A later entry only wins when it is
      strictly nearer. */
  function Nearest(value: real, arr: seq<int>): (r: int)
    ensures r == -1 <==> |arr| == 0
    ensures r != -1 ==> 0 <= r < |arr|
  {
    if |arr| == 0 then -1
    else
      var n := |arr| - 1;
      var k := Nearest(value, arr[..n]);
      if k == -1 || Abs(value - arr[n] as real) < Abs(value - arr[k] as real) then n else k
  }

  /** The entry `Nearest` picks is at least as near as every entry and
      strictly nearer than every entry before it. */
  lemma {:induction false} NearestIsNearest(value: real, arr: seq<int>)
    requires |arr| > 0
    ensures var r := Nearest(value, arr);
      forall j :: 0 <= j < |arr| ==> Abs(value - arr[r] as real) <= Abs(value - arr[j] as real)
    ensures var r := Nearest(value, arr);
      forall j :: 0 <= j < r ==> Abs(value - arr[r] as real) < Abs(value - arr[j] as real)
  {
    var n := |arr| - 1;
    if n > 0 {
      var front := arr[..n];
      NearestIsNearest(value, front);
      NearestExtends(value, arr);
    }
  }

  /** The inductive step of `NearestIsNearest`, from the prefix to the whole. */
  lemma NearestExtends(value: real, arr: seq<int>)
    requires |arr| > 1
    requires var front := arr[..|arr| - 1]; var k := Nearest(value, front);
      forall j :: 0 <= j < |front| ==> Abs(value - front[k] as real) <= Abs(value - front[j] as real)
    requires var front := arr[..|arr| - 1]; var k := Nearest(value, front);
      forall j :: 0 <= j < k ==> Abs(value - front[k] as real) < Abs(value - front[j] as real)
    ensures var r := Nearest(value, arr);
      forall j :: 0 <= j < |arr| ==> Abs(value - arr[r] as real) <= Abs(value - arr[j] as real)
    ensures var r := Nearest(value, arr);
      forall j :: 0 <= j < r ==> Abs(value - arr[r] as real) < Abs(value - arr[j] as real)
  {
    var n := |arr| - 1;
    var front := arr[..n];
    var k := Nearest(value, front);
    var dk := Abs(value - arr[k] as real);
    var dn := Abs(value - arr[n] as real);
    assert front[k] == arr[k];
    if dn < dk {
      assert Nearest(value, arr) == n;
      forall j | 0 <= j < n ensures dn < Abs(value - arr[j] as real) {
        assert front[j] == arr[j];
      }
    } else {
      assert Nearest(value, arr) == k;
      forall j | 0 <= j < n ensures dk <= Abs(value - arr[j] as real) {
        assert front[j] == arr[j];
      }
      forall j | 0 <= j < k ensures dk < Abs(value - arr[j] as real) {
        assert front[j] == arr[j];
      }
    }
  }

  /** One more entry: it becomes the nearest only when strictly nearer. */
  lemma NearestSnoc(value: real, arr: seq<int>, i: nat)
    requires i < |arr|
    ensures var k := Nearest(value, arr[..i]);
      Nearest(value, arr[..i + 1]) ==
        if k == -1 || Abs(value - arr[i] as real) < Abs(value - arr[k] as real) then i else k
  {
    assert arr[..i + 1][..i] == arr[..i];
  }

  /** The loop of `closest`, with `None` standing for the initial `Infinity`. */
  method Closest(value: real, arr: seq<int>) returns (closestIndex: int)
    ensures closestIndex == Nearest(value, arr)
  {
    var closest: Option<real> := None;
    closestIndex := -1;
    var i := 0;
    while i < |arr|
      invariant 0 <= i <= |arr|
      invariant -1 <= closestIndex < i
      invariant closestIndex == Nearest(value, arr[..i])
      invariant closest.None? <==> closestIndex == -1
      invariant closest.Some? ==> closest.value == Abs(value - arr[closestIndex] as real)
    {
      NearestSnoc(value, arr, i);
      if closest.None? || Abs(value - arr[i] as real) < closest.value {
        closest := Some(Abs(value - arr[i] as real));
        closestIndex := i;
      }
      i := i + 1;
    }
    assert arr[..i] == arr;
  }

  // ------------------------------------------------------- recorded slots

  /** One entry of `tabPositions`: a card and its recorded coordinates. */
  datatype TabPosition = TabPosition(elem: ItemId, x: Option<int>, y: Option<int>)

  /** What `parseInt(getAttribute("data-axis-..."))` gives for a card: the
      recorded placement, or `NaN` for both when the card has none. */
  function AxisOf(axis: map<ItemId, Masonry.Placement>, id: ItemId): Masonry.Placement {
    if id in axis then axis[id] else Masonry.Placement(None, None)
  }

  /** `tabPositions`: one entry per card, in the current child order. */
  function TabPositions(order: seq<ItemId>, axis: map<ItemId, Masonry.Placement>): (ps: seq<TabPosition>)
    ensures |ps| == |order|
  {
    seq(|order|, i requires 0 <= i < |order| => TabPosition(order[i], AxisOf(axis, order[i]).x, AxisOf(axis, order[i]).y))
  }

  /** A number is truthy unless it is 0 or `NaN`. */
  predicate Truthy(c: Option<int>) {
    c.Some? && c.value != 0
  }

  function Coord(p: TabPosition, horizontal: bool): Option<int> {
    if horizontal then p.x else p.y
  }

  /** `tabX` (horizontal) or `tabY`: the truthy coordinates, in card order. */
  function Kept(ps: seq<TabPosition>, horizontal: bool): (r: seq<int>)
    ensures |r| <= |ps|
    ensures forall i :: 0 <= i < |r| ==> r[i] != 0
  {
    if |ps| == 0 then []
    else
      var c := Coord(ps[|ps| - 1], horizontal);
      Kept(ps[..|ps| - 1], horizontal) + if Truthy(c) then [c.value] else []
  }

  /** When every coordinate is truthy, `tabX[i]` is card `i`'s coordinate. */
  lemma {:induction false} KeptAligned(ps: seq<TabPosition>, horizontal: bool)
    requires forall i :: 0 <= i < |ps| ==> Truthy(Coord(ps[i], horizontal))
    ensures |Kept(ps, horizontal)| == |ps|
    ensures forall i :: 0 <= i < |ps| ==> Some(Kept(ps, horizontal)[i]) == Coord(ps[i], horizontal)
  {
    if |ps| > 0 {
      KeptAligned(ps[..|ps| - 1], horizontal);
    }
  }

  /** A single falsy coordinate (a card at 0 or without a recorded slot) makes
      the list shorter than the card list, so later indices no longer line up. */
  lemma {:induction false} KeptShorter(ps: seq<TabPosition>, horizontal: bool, k: nat)
    requires k < |ps| && !Truthy(Coord(ps[k], horizontal))
    ensures |Kept(ps, horizontal)| < |ps|
  {
    var n := |ps| - 1;
    if k < n {
      KeptShorter(ps[..n], horizontal, k);
    }
  }

  /** The `forEach` that pushes the truthy coordinates into `tabX` and `tabY`. */
  method CollectTabs(ps: seq<TabPosition>) returns (tabX: seq<int>, tabY: seq<int>)
    ensures tabX == Kept(ps, true) && tabY == Kept(ps, false)
  {
    tabX, tabY := [], [];
    var i := 0;
    while i < |ps|
      invariant 0 <= i <= |ps|
      invariant tabX == Kept(ps[..i], true) && tabY == Kept(ps[..i], false)
    {
      assert ps[..i + 1][..i] == ps[..i];
      if Truthy(ps[i].x) {
        tabX := tabX + [ps[i].x.value];
      }
      if Truthy(ps[i].y) {
        tabY := tabY + [ps[i].y.value];
      }
      i := i + 1;
    }
    assert ps[..i] == ps;
  }

  // ------------------------------------------------------------ animate

  /** `s[i]`, undefined out of range. */
  function At<T>(s: seq<T>, i: int): Option<T> {
    if 0 <= i < |s| then Some(s[i]) else None
  }

  /** `parent.insertBefore(node, child)` on the child list: a reference equal
      to the node itself is first replaced by the node's next sibling; the node
      is taken out and put before the reference, or last when there is none.
      A reference that is not a child throws, leaving the list as it was. */
  function InsertBefore(s: seq<ItemId>, node: ItemId, child: Option<ItemId>): seq<ItemId> {
    var i := IndexOf(s, node);
    var ref := if child == Some(node) then At(s, i + 1) else child;
    var rest := if i == -1 then s else s[..i] + s[i + 1..];
    if ref.None? then rest + [node]
    else if ref.value !in s then s
    else
      var k := IndexOf(rest, ref.value);
      if k == -1 then s else rest[..k] + [node] + rest[k..]
  }

  /** `animate(el, from, to)`: insert before the card now at `to` when moving
      up, before the one after `to` when moving down. */
  function Animated(s: seq<ItemId>, el: ItemId, from: int, to: int): seq<ItemId> {
    InsertBefore(s, el, if to < from then At(s, to) else At(s, to + 1))
  }

  /** Reference definition of a move: take the element at `from` out and put
      it back so that it ends at index `to`. */
  function MoveTo(s: seq<ItemId>, from: nat, to: nat): (r: seq<ItemId>)
    requires from < |s| && to < |s|
    ensures |r| == |s|
  {
    var rest := s[..from] + s[from + 1..];
    rest[..to] + [s[from]] + rest[to..]
  }

  /** A move is a permutation that puts the moved element at `to` and keeps
      every other element in its original relative order. */
  lemma MoveToIsReorder(s: seq<ItemId>, from: nat, to: nat)
    requires from < |s| && to < |s|
    ensures multiset(MoveTo(s, from, to)) == multiset(s)
    ensures MoveTo(s, from, to)[to] == s[from]
    ensures MoveTo(s, from, to)[..to] + MoveTo(s, from, to)[to + 1..] == s[..from] + s[from + 1..]
  {
    var rest := s[..from] + s[from + 1..];
    var r := MoveTo(s, from, to);
    calc {
      multiset(r);
      multiset(rest[..to]) + multiset([s[from]]) + multiset(rest[to..]);
      { assert rest == rest[..to] + rest[to..]; }
      multiset(rest) + multiset([s[from]]);
      multiset(s[..from]) + multiset(s[from + 1..]) + multiset([s[from]]);
      { assert s == s[..from] + [s[from]] + s[from + 1..]; }
      multiset(s);
    }
    assert r[..to] == rest[..to];
    assert r[to + 1..] == rest[to..];
  }

  /** Taking an element out of a duplicate-free sequence leaves one without it. */
  lemma RemoveAtDistinct(s: seq<ItemId>, from: nat)
    requires from < |s| && Distinct(s)
    ensures var rest := s[..from] + s[from + 1..]; Distinct(rest) && s[from] !in rest
  {
    var rest := s[..from] + s[from + 1..];
    forall i | 0 <= i < |rest| ensures rest[i] == s[if i < from then i else i + 1] {
    }
  }

  /** Putting an absent element into a duplicate-free sequence keeps it so. */
  lemma InsertAtDistinct(rest: seq<ItemId>, to: nat, x: ItemId)
    requires to <= |rest| && Distinct(rest) && x !in rest
    ensures Distinct(rest[..to] + [x] + rest[to..])
  {
    var r := rest[..to] + [x] + rest[to..];
    forall i | 0 <= i < |r| ensures r[i] == if i < to then rest[i] else if i == to then x else rest[i - 1] {
    }
  }

  lemma MoveToDistinct(s: seq<ItemId>, from: nat, to: nat)
    requires from < |s| && to < |s| && Distinct(s)
    ensures Distinct(MoveTo(s, from, to))
  {
    RemoveAtDistinct(s, from);
    InsertAtDistinct(s[..from] + s[from + 1..], to, s[from]);
  }

  /** `animate` with the indices the dragMove handler passes (the card's own
      index and another in range) is exactly the reference move. */
  lemma AnimateIsMove(s: seq<ItemId>, from: nat, to: nat)
    requires Distinct(s) && from < |s| && to < |s| && from != to
    ensures Animated(s, s[from], from, to) == MoveTo(s, from, to)
  {
    if to < from {
      InsertBeforeAt(s, from, to, to);
    } else if to + 1 < |s| {
      InsertBeforeAt(s, from, to + 1, to);
    } else {
      AnimateToEnd(s, from, to);
    }
  }

  /** Inserting before the card that sits at `k` of the remaining cards. */
  lemma InsertBeforeAt(s: seq<ItemId>, from: nat, j: nat, k: nat)
    requires Distinct(s) && from < |s| && j < |s| && j != from
    requires k < |s| - 1 && (s[..from] + s[from + 1..])[k] == s[j]
    ensures InsertBefore(s, s[from], Some(s[j])) == MoveTo(s, from, k)
  {
    var node := s[from];
    var rest := s[..from] + s[from + 1..];
    IndexOfDistinct(s, from);
    RemoveAtDistinct(s, from);
    IndexOfDistinct(rest, k);
    assert IndexOf(s, node) == from;
    assert s[j] != node && s[j] in s;
    assert IndexOf(rest, s[j]) == k;
  }

  /** Moving a card to the last index appends it. */
  lemma AnimateToEnd(s: seq<ItemId>, from: nat, to: nat)
    requires Distinct(s) && from < |s| && to == |s| - 1 && from != to
    ensures Animated(s, s[from], from, to) == MoveTo(s, from, to)
  {
    var rest := s[..from] + s[from + 1..];
    IndexOfDistinct(s, from);
    assert rest[to..] == [] && rest[..to] == rest;
  }

  // ---------------------------------------------------------- the reorder

  /** `tab[closest(candidate, tab)]`: the recorded coordinate nearest to the
      candidate, undefined when the candidate is `NaN` or the list is empty. */
  function Snap(tab: seq<int>, candidate: Option<real>): (r: Option<int>)
    ensures r.Some? <==> candidate.Some? && |tab| > 0
    ensures r.Some? ==> r.value in tab
    ensures r.Some? ==> forall v :: v in tab ==> Abs(candidate.value - r.value as real) <= Abs(candidate.value - v as real)
  {
    if candidate.None? || |tab| == 0 then None
    else
      NearestIsNearest(candidate.value, tab);
      At(tab, Nearest(candidate.value, tab))
  }

  /** The candidate coordinate: the card's original slot plus the move,
      `NaN` when the slot list has no entry at the card's original index. */
  function Candidate(tab: seq<int>, originalIndex: int, delta: real): Option<real> {
    if 0 <= originalIndex < |tab| then Some(tab[originalIndex] as real + delta) else None
  }

  /** `posX == pos.x` in JavaScript: `undefined` and `NaN` equal nothing. */
  predicate SameCoord(snapped: Option<int>, recorded: Option<int>) {
    snapped.Some? && recorded.Some? && snapped.value == recorded.value
  }

  /** One turn of the dragMove handler's loop, for the snapshot entry `pos`. */
  function SweepStep(s: seq<ItemId>, t: ItemId, pos: TabPosition, posX: Option<int>, posY: Option<int>): seq<ItemId> {
    var currentIndex := IndexOf(s, t);
    if pos.elem == t then s
    else if SameCoord(posX, pos.x) && SameCoord(posY, pos.y) then
      var found := IndexOf(s, pos.elem);
      var destinationIndex := if found < 0 then 0 else if found > |s| then |s| else found;
      if currentIndex != destinationIndex then Animated(s, t, currentIndex, destinationIndex) else s
    else s
  }

  /** The whole dragMove handler over a snapshot `ps` of `tabPositions`. */
  function Sweep(s: seq<ItemId>, t: ItemId, ps: seq<TabPosition>, posX: Option<int>, posY: Option<int>): seq<ItemId> {
    if |ps| == 0 then s
    else SweepStep(Sweep(s, t, ps[..|ps| - 1], posX, posY), t, ps[|ps| - 1], posX, posY)
  }

  /** Does `pos` trigger a move: another card recording exactly the snapped cell. */
  predicate Hit(pos: TabPosition, t: ItemId, posX: Option<int>, posY: Option<int>) {
    pos.elem != t && SameCoord(posX, pos.x) && SameCoord(posY, pos.y)
  }

  /** Every step keeps the order a duplicate-free permutation holding `t`. */
  lemma SweepStepPermutes(s: seq<ItemId>, t: ItemId, pos: TabPosition, posX: Option<int>, posY: Option<int>)
    requires Distinct(s) && t in s
    ensures var r := SweepStep(s, t, pos, posX, posY);
      multiset(r) == multiset(s) && Distinct(r)
  {
    if Hit(pos, t, posX, posY) {
      var from := IndexOf(s, t);
      var found := IndexOf(s, pos.elem);
      var to := if found < 0 then 0 else found;
      if from != to {
        AnimateIsMove(s, from, to);
        MoveToIsReorder(s, from, to);
        MoveToDistinct(s, from, to);
      }
    }
  }

  /** A drag sample only ever permutes the cards. */
  lemma {:induction false} SweepPermutes(s: seq<ItemId>, t: ItemId, ps: seq<TabPosition>, posX: Option<int>, posY: Option<int>)
    requires Distinct(s) && t in s
    ensures var r := Sweep(s, t, ps, posX, posY);
      multiset(r) == multiset(s) && Distinct(r) && t in r
  {
    if |ps| > 0 {
      var m := Sweep(s, t, ps[..|ps| - 1], posX, posY);
      SweepPermutes(s, t, ps[..|ps| - 1], posX, posY);
      SweepStepPermutes(m, t, ps[|ps| - 1], posX, posY);
      assert t in multiset(m);
    }
  }

  /** Without a hit a drag sample changes nothing. */
  lemma {:induction false} SweepNoHit(s: seq<ItemId>, t: ItemId, ps: seq<TabPosition>, posX: Option<int>, posY: Option<int>)
    requires forall i :: 0 <= i < |ps| ==> !Hit(ps[i], t, posX, posY)
    ensures Sweep(s, t, ps, posX, posY) == s
  {
    if |ps| > 0 {
      SweepNoHit(s, t, ps[..|ps| - 1], posX, posY);
    }
  }

  /** With exactly one hit, on card `c`, the dragged card takes `c`'s index
      and the others keep their relative order. */
  lemma SweepOneHit(s: seq<ItemId>, t: ItemId, ps: seq<TabPosition>, posX: Option<int>, posY: Option<int>, k: nat)
    requires Distinct(s) && t in s
    requires k < |ps| && Hit(ps[k], t, posX, posY) && ps[k].elem in s
    requires forall i :: 0 <= i < |ps| && i != k ==> !Hit(ps[i], t, posX, posY)
    ensures Sweep(s, t, ps, posX, posY) == MoveTo(s, IndexOf(s, t), IndexOf(s, ps[k].elem))
  {
    var from := IndexOf(s, t);
    var to := IndexOf(s, ps[k].elem);
    SweepNoHit(s, t, ps[..k], posX, posY);
    assert ps[..k + 1][..k] == ps[..k];
    assert Sweep(s, t, ps[..k + 1], posX, posY) == MoveTo(s, from, to) by {
      AnimateIsMove(s, from, to);
    }
    SweepTail(MoveTo(s, from, to), s, t, ps, posX, posY, k + 1);
  }

  /** Entries after the last hit change nothing. */
  lemma {:induction false} SweepTail(m: seq<ItemId>, s: seq<ItemId>, t: ItemId, ps: seq<TabPosition>,
                                     posX: Option<int>, posY: Option<int>, k: nat)
    requires k <= |ps| && Sweep(s, t, ps[..k], posX, posY) == m
    requires forall i :: k <= i < |ps| ==> !Hit(ps[i], t, posX, posY)
    ensures Sweep(s, t, ps, posX, posY) == m
  {
    if k == |ps| {
      assert ps[..k] == ps;
    } else {
      var n := |ps| - 1;
      assert ps[..n][..k] == ps[..k];
      SweepTail(m, s, t, ps[..n], posX, posY, k);
      SweepStepNoHit(m, t, ps[n], posX, posY);
    }
  }

  /** Dragging a card back over its own recorded cell changes nothing: the
      only card recording that cell is the dragged card, which the handler
      skips. The recorded cells never move during a drag, so a reorder is
      not undone this way. */
  lemma DragBackKeepsOrder(s: seq<ItemId>, t: ItemId, axis: map<ItemId, Masonry.Placement>)
    requires t in axis && axis[t].x.Some? && axis[t].y.Some?
    requires forall c :: c in s && c != t ==> AxisOf(axis, c) != axis[t]
    ensures Sweep(s, t, TabPositions(s, axis), axis[t].x, axis[t].y) == s
  {
    var ps := TabPositions(s, axis);
    forall i | 0 <= i < |ps| ensures !Hit(ps[i], t, axis[t].x, axis[t].y) {
      assert ps[i].elem == s[i];
    }
    SweepNoHit(s, t, ps, axis[t].x, axis[t].y);
  }

  /** Cards 1, 2, 3 recorded at x = 10, 110, 210 and y = 10. */
  function ExampleAxis(): map<ItemId, Masonry.Placement> {
    map[1 := Masonry.Placement(Some(10), Some(10)), 2 := Masonry.Placement(Some(110), Some(10)),
        3 := Masonry.Placement(Some(210), Some(10))]
  }

  /** Card 1 dragged 100 px right snaps to x = 110; dragged back, to x = 10. */
  lemma ExampleSnaps()
    ensures Snap([10, 110, 210], Candidate([10, 110, 210], 0, 100.0)) == Some(110)
    ensures Snap([10, 110, 210], Candidate([10, 110, 210], 0, 0.0)) == Some(10)
  {
    var tab := [10, 110, 210];
    assert tab[..2] == [10, 110] && tab[..2][..1] == [10];
    assert tab[..2][..1][..0] == [];
  }

  /** Snapped to (110, 10), card 1 takes card 2's place. */
  lemma ExampleDragThere()
    ensures Sweep([1, 2, 3], 1, TabPositions([1, 2, 3], ExampleAxis()), Some(110), Some(10)) == [2, 1, 3]
  {
    var s := [1, 2, 3];
    var ps := TabPositions(s, ExampleAxis());
    assert ps == [TabPosition(1, Some(10), Some(10)), TabPosition(2, Some(110), Some(10)), TabPosition(3, Some(210), Some(10))];
    assert IndexOf(s, 1) == 0;
    assert IndexOf(s, 2) == 1 by { assert s[1..] == [2, 3]; }
    assert Distinct(s);
    SweepOneHit(s, 1, ps, Some(110), Some(10), 1);
    assert MoveTo(s, 0, 1) == [2, 1, 3];
  }

  /** Dragged back to its own slot (10, 10), card 1 stays where the first
      sample put it: the order is not restored. */
  lemma DragBackExample()
    ensures var there := Sweep([1, 2, 3], 1, TabPositions([1, 2, 3], ExampleAxis()), Some(110), Some(10));
      there == [2, 1, 3] && there != [1, 2, 3]
      && Sweep(there, 1, TabPositions(there, ExampleAxis()), Some(10), Some(10)) == [2, 1, 3]
  {
    ExampleDragThere();
    DragBackKeepsOrder([2, 1, 3], 1, ExampleAxis());
  }

  lemma SweepStepNoHit(s: seq<ItemId>, t: ItemId, pos: TabPosition, posX: Option<int>, posY: Option<int>)
    requires !Hit(pos, t, posX, posY)
    ensures SweepStep(s, t, pos, posX, posY) == s
  {
  }

  /** `sendResult`'s record for one card: its recorded x and y. */
  datatype Record = Record(elem: ItemId, x: Option<int>, y: Option<int>)

  // ------------------------------------------------------------- the grid

  class Grid {
    /** The recorded `data-axis-x/y` of every card. */
    const axis: map<ItemId, Masonry.Placement>
    /** The card container's children, in document order. */
    var order: seq<ItemId>
    /** The cards as they were when `setupDraggibilly` last ran: each
        handler's `originalIndex` is the card's index here. */
    var origin: seq<ItemId>
    var tabX: seq<int>
    var tabY: seq<int>
    /** Every dragger ever created, one per card per setup; never emptied. */
    var draggabillies: seq<ItemId>
    var isDragging: bool
    /** `draggabillyDragging`: the card whose drag started last. */
    var dragging: Option<ItemId>
    /** `setTimeout(..., 300)` callbacks of the dragEnd handler not yet run. */
    var pendingSetups: nat

    ghost predicate Valid()
      reads this
    {
      Distinct(order) && multiset(origin) == multiset(order)
    }

    /** `new Grid()` followed by `init(el)`: `layout()` (which mounts nothing)
        and `setupDraggibilly()`. */
    constructor (cards: seq<ItemId>, recorded: map<ItemId, Masonry.Placement>)
      requires Distinct(cards)
      ensures Valid()
      ensures order == cards && axis == recorded && origin == cards && draggabillies == cards
      ensures tabX == Kept(TabPositions(cards, recorded), true) && tabY == Kept(TabPositions(cards, recorded), false)
      ensures !isDragging && dragging == None && pendingSetups == 0
    {
      axis := recorded;
      order := cards;
      origin := [];
      tabX, tabY := [], [];
      draggabillies := [];
      isDragging := false;
      dragging := None;
      pendingSetups := 0;
      new;
      SetupDraggibilly();
    }

    /** The card's `originalIndex`, -1 for a card no handler was made for. */
    function OriginalIndex(t: ItemId): int
      reads this
    {
      IndexOf(origin, t)
    }

    /** `setupDraggibilly`: recollect the slot lists, end a drag in progress
        (its dragEnd handler schedules one more setup), and make one dragger
        per card. The previous draggers are destroyed, not removed. */
    method SetupDraggibilly()
      requires Distinct(order)
      modifies this`origin, this`tabX, this`tabY, this`draggabillies, this`isDragging, this`dragging, this`pendingSetups
      ensures Valid()
      ensures origin == order
      ensures tabX == Kept(TabPositions(order, axis), true) && tabY == Kept(TabPositions(order, axis), false)
      ensures draggabillies == old(draggabillies) + order
      ensures !isDragging
      ensures dragging == if old(isDragging) then None else old(dragging)
      ensures pendingSetups == if old(isDragging) then old(pendingSetups) + 1 else old(pendingSetups)
    {
      var tabEls := order;
      var positions := TabPositions(order, axis);
      tabX, tabY := CollectTabs(positions);
      if isDragging {
        isDragging := false;
        // draggabillyDragging.dragEnd() runs the dragEnd handler below
        pendingSetups := pendingSetups + 1;
        dragging := None;
      }
      origin := tabEls;
      draggabillies := draggabillies + tabEls;
    }

    /** The dragStart handler of card `t`. */
    method DragStarted(t: ItemId)
      requires t in origin
      modifies this`isDragging, this`dragging
      ensures isDragging && dragging == Some(t)
    {
      isDragging := true;
      dragging := Some(t);
    }

    /** The dragEnd handler of card `t`: relayout is deferred by 300 ms. */
    method DragEnded(t: ItemId)
      requires t in origin
      modifies this`isDragging, this`pendingSetups
      ensures !isDragging && pendingSetups == old(pendingSetups) + 1
    {
      isDragging := false;
      pendingSetups := pendingSetups + 1;
    }

    /** One deferred callback fires: `setupDraggibilly()` then `layout()`. */
    method TimerFired()
      requires Valid()
      modifies this`origin, this`tabX, this`tabY, this`draggabillies, this`isDragging, this`dragging, this`pendingSetups
      ensures Valid()
      ensures old(pendingSetups) == 0 ==> pendingSetups == 0 && origin == old(origin) && tabX == old(tabX) && tabY == old(tabY)
      ensures old(pendingSetups) == 0 ==> draggabillies == old(draggabillies) && isDragging == old(isDragging) && dragging == old(dragging)
      ensures old(pendingSetups) > 0 ==> origin == order && pendingSetups == old(pendingSetups) - (if old(isDragging) then 0 else 1)
      ensures old(pendingSetups) > 0 ==>
                tabX == Kept(TabPositions(order, axis), true) && tabY == Kept(TabPositions(order, axis), false)
      ensures old(pendingSetups) > 0 ==>
                draggabillies == old(draggabillies) + order && !isDragging
                && dragging == (if old(isDragging) then None else old(dragging))
    {
      if pendingSetups > 0 {
        pendingSetups := pendingSetups - 1;
        SetupDraggibilly();
      }
    }

    /** The snapped cell for card `t` dragged by `mv`. */
    function Target(t: ItemId, mv: Vector): (Option<int>, Option<int>)
      reads this
    {
      var i := OriginalIndex(t);
      (Snap(tabX, Candidate(tabX, i, mv.x)), Snap(tabY, Candidate(tabY, i, mv.y)))
    }

    /** The part of the dragMove handler that does not depend on the loop
        entry: the candidate cell and the recorded cell nearest to it. */
    method SnapTarget(t: ItemId, mv: Vector) returns (posX: Option<int>, posY: Option<int>)
      ensures (posX, posY) == Target(t, mv)
      ensures posX.Some? ==> posX.value in tabX
      ensures posY.Some? ==> posY.value in tabY
    {
      var originalIndex := IndexOf(origin, t);
      var cx := Candidate(tabX, originalIndex, mv.x);
      var cy := Candidate(tabY, originalIndex, mv.y);
      posX, posY := None, None;
      if cx.Some? {
        var i := Closest(cx.value, tabX);
        posX := At(tabX, i);
      }
      if cy.Some? {
        var i := Closest(cy.value, tabY);
        posY := At(tabY, i);
      }
    }

    /** The dragMove handler of card `t`: walks a snapshot of `tabPositions`
        and moves `t` to the index of any other card recording the snapped cell. */
    method DragMoved(t: ItemId, mv: Vector)
      requires Valid() && t in origin
      modifies this`order
      ensures Valid()
      ensures order == Sweep(old(order), t, TabPositions(old(order), axis), Target(t, mv).0, Target(t, mv).1)
    {
      var positions := TabPositions(order, axis);
      var posX, posY := SnapTarget(t, mv);
      ghost var order0 := order;
      var k := 0;
      while k < |positions|
        invariant 0 <= k <= |positions|
        invariant order == Sweep(order0, t, positions[..k], posX, posY)
      {
        assert positions[..k + 1][..k] == positions[..k];
        Visit(t, positions[k], posX, posY);
        k := k + 1;
      }
      assert positions[..k] == positions;
      assert t in multiset(order0);
      SweepPermutes(order0, t, positions, posX, posY);
    }

    /** One entry of the handler's `forEach` over the snapshot. */
    method Visit(t: ItemId, pos: TabPosition, posX: Option<int>, posY: Option<int>)
      modifies this`order
      ensures order == SweepStep(old(order), t, pos, posX, posY)
    {
      var currentIndex := IndexOf(order, t);
      if pos.elem == t {
        return;
      }
      if SameCoord(posX, pos.x) && SameCoord(posY, pos.y) {
        var found := IndexOf(order, pos.elem);
        var destinationIndex := if found < 0 then 0 else if found > |order| then |order| else found;
        if currentIndex != destinationIndex {
          Animate(t, currentIndex, destinationIndex);
        }
      }
    }

    /** `animate(tabEl, from, to)`; the `layout()` that follows mounts nothing. */
    method Animate(el: ItemId, from: int, to: int)
      modifies this`order
      ensures order == Animated(old(order), el, from, to)
    {
      var ref := if to < from then At(order, to) else At(order, to + 1);
      order := InsertBefore(order, el, ref);
    }

    /** `sendResult`: one record per card, in the current order. */
    method SendResult() returns (results: seq<Record>)
      ensures |results| == |order|
      ensures forall i :: 0 <= i < |order| ==>
        results[i] == Record(order[i], AxisOf(axis, order[i]).x, AxisOf(axis, order[i]).y)
    {
      results := [];
      var i := 0;
      while i < |order|
        invariant 0 <= i <= |order|
        invariant |results| == i
        invariant forall j :: 0 <= j < i ==> results[j] == Record(order[j], AxisOf(axis, order[j]).x, AxisOf(axis, order[j]).y)
      {
        var item := order[i];
        results := results + [Record(item, AxisOf(axis, item).x, AxisOf(axis, item).y)];
        i := i + 1;
      }
    }
  }
}
