/** Edits of the layout tree undo each other, and its rectangles tile. */
module LayoutTheorems {
  import opened Bytes
  import opened Wrappers
  import opened Layouts

  // ---------- leaves ----------

  lemma {:induction false} HoldsIsMember(t: Tree, p: nat)
    ensures Holds(t, p) <==> p in Leaves(t)
  {
    if t.Split? {
      HoldsIsMember(t.first, p);
      HoldsIsMember(t.second, p);
    }
  }

  lemma DistinctParts<T>(a: seq<T>, b: seq<T>)
    requires Distinct(a + b)
    ensures Distinct(a) && Distinct(b) && forall x :: !(x in a && x in b)
  {
    var s := a + b;
    forall i, j | 0 <= i < j < |a| ensures a[i] != a[j] { assert s[i] == a[i] && s[j] == a[j]; }
    forall i, j | 0 <= i < j < |b| ensures b[i] != b[j] { assert s[|a| + i] == b[i] && s[|a| + j] == b[j]; }
    forall i, j | 0 <= i < |a| && 0 <= j < |b| ensures a[i] != b[j] { assert s[i] == a[i] && s[|a| + j] == b[j]; }
  }

  // ---------- splitting ----------

  lemma {:induction false} SplitsIffHeld(t: Tree, target: nat, added: nat, dir: Dir)
    ensures SplitAt(t, target, added, dir).Some? <==> Holds(t, target)
  {
    if t.Split? {
      SplitsIffHeld(t.first, target, added, dir);
      SplitsIffHeld(t.second, target, added, dir);
    }
  }

  /** s with x put in right after the first occurrence of y. */
  function InsertAfter<T(==)>(s: seq<T>, y: T, x: T): seq<T> {
    if s == [] then [] else if s[0] == y then [y, x] + s[1..] else [s[0]] + InsertAfter(s[1..], y, x)
  }

  function Removed<T(==)>(s: seq<T>, x: T): seq<T> {
    if s == [] then [] else if s[0] == x then s[1..] else [s[0]] + Removed(s[1..], x)
  }

  lemma {:induction false} InsertInFront<T>(a: seq<T>, b: seq<T>, y: T, x: T)
    ensures y in a ==> InsertAfter(a + b, y, x) == InsertAfter(a, y, x) + b
    ensures y !in a ==> InsertAfter(a + b, y, x) == a + InsertAfter(b, y, x)
  {
    if a == [] {
      assert a + b == b;
    } else {
      assert (a + b)[1..] == a[1..] + b;
      if a[0] != y {
        InsertInFront(a[1..], b, y, x);
        hide InsertAfter;
        Associative([a[0]], InsertAfter(a[1..], y, x), b);
        Associative([a[0]], a[1..], InsertAfter(b, y, x));
      } else {
        Associative([y, x], a[1..], b);
      }
    }
  }

  lemma {:induction false} RemoveInFront<T>(a: seq<T>, b: seq<T>, x: T)
    ensures x in a ==> Removed(a + b, x) == Removed(a, x) + b
    ensures x !in a ==> Removed(a + b, x) == a + Removed(b, x)
  {
    if a == [] {
      assert a + b == b;
    } else {
      assert (a + b)[1..] == a[1..] + b;
      if a[0] != x { RemoveInFront(a[1..], b, x); }
    }
  }

  /** The new pane comes right after its target; the others keep their order. */
  lemma {:induction false} SplitInsertsAfter(t: Tree, target: nat, added: nat, dir: Dir)
    requires Holds(t, target)
    ensures SplitAt(t, target, added, dir).Some?
    ensures Leaves(SplitAt(t, target, added, dir).value) == InsertAfter(Leaves(t), target, added)
  {
    SplitsIffHeld(t, target, added, dir);
    if t.Split? {
      SplitsIffHeld(t.first, target, added, dir);
      HoldsIsMember(t.first, target);
      InsertInFront(Leaves(t.first), Leaves(t.second), target, added);
      if Holds(t.first, target) {
        SplitInsertsAfter(t.first, target, added, dir);
      } else {
        SplitInsertsAfter(t.second, target, added, dir);
      }
    }
  }

  /** One list is the other with one more element somewhere. */
  predicate OneMore<T(==)>(s: seq<T>, r: seq<T>, x: T) {
    exists i | 0 <= i <= |s| :: OneMoreAt(s, r, x, i)
  }

  predicate OneMoreAt<T(==)>(s: seq<T>, r: seq<T>, x: T, i: int) {
    0 <= i <= |s| && r == s[..i] + [x] + s[i..]
  }

  lemma OneMoreWithin<T>(a: seq<T>, s: seq<T>, r: seq<T>, b: seq<T>, x: T)
    requires OneMore(s, r, x)
    ensures OneMore(a + s + b, a + r + b, x)
  {
    var i :| 0 <= i <= |s| && OneMoreAt(s, r, x, i);
    var whole := a + s + b;
    assert whole[..|a| + i] == a + s[..i] && whole[|a| + i..] == s[i..] + b;
    assert OneMoreAt(whole, a + r + b, x, |a| + i);
  }

  lemma OneMoreFirst<T>(x: T)
    ensures OneMore([], [x], x)
  {
    assert OneMoreAt([], [x], x, 0);
  }

  /** All splits keep direction and ratio; one even split in the given direction is added. */
  lemma {:induction false} SplitAddsOneSplit(t: Tree, target: nat, added: nat, dir: Dir)
    requires Holds(t, target)
    ensures SplitAt(t, target, added, dir).Some?
    ensures OneMore(Splits(t), Splits(SplitAt(t, target, added, dir).value), (dir, 0.5))
  {
    SplitsIffHeld(t, target, added, dir);
    var x := (dir, 0.5);
    if t.Leaf? {
      OneMoreFirst(x);
      assert Splits(SplitAt(t, target, added, dir).value) == [x] + [] + [] == [x];
    } else {
      SplitsIffHeld(t.first, target, added, dir);
      var (head, a, b) := ([(t.dir, t.ratio)], Splits(t.first), Splits(t.second));
      if Holds(t.first, target) {
        SplitAddsOneSplit(t.first, target, added, dir);
        OneMoreWithin(head, a, Splits(SplitAt(t.first, target, added, dir).value), b, x);
      } else {
        SplitAddsOneSplit(t.second, target, added, dir);
        var c := Splits(SplitAt(t.second, target, added, dir).value);
        OneMoreWithin(head + a, b, c, [], x);
        assert head + a + b + [] == head + a + b && head + a + c + [] == head + a + c;
      }
    }
  }

  // ---------- removing ----------

  lemma {:induction false} WithoutIff(t: Tree, target: nat)
    ensures Without(t, target).Some? <==> t.Split? && Holds(t, target)
  {
    if t.Split? {
      WithoutIff(t.first, target);
      WithoutIff(t.second, target);
    }
  }

  /** Exactly the target's leaf goes. */
  lemma {:induction false} WithoutRemovesLeaf(t: Tree, target: nat)
    requires Distinct(Leaves(t)) && t.Split? && Holds(t, target)
    ensures Without(t, target).Some?
    ensures Leaves(Without(t, target).value) == Removed(Leaves(t), target)
  {
    WithoutIff(t, target);
    DistinctParts(Leaves(t.first), Leaves(t.second));
    HoldsIsMember(t.first, target);
    HoldsIsMember(t.second, target);
    RemoveInFront(Leaves(t.first), Leaves(t.second), target);
    WithoutIff(t.first, target);
    if t.first != Leaf(target) && t.second != Leaf(target) {
      if Holds(t.first, target) { WithoutRemovesLeaf(t.first, target); } else { WithoutRemovesLeaf(t.second, target); }
    }
  }

  /** All other splits keep direction and ratio; the one above the leaf goes. */
  lemma {:induction false} WithoutRemovesOneSplit(t: Tree, target: nat) returns (x: (Dir, real))
    requires t.Split? && Holds(t, target)
    ensures Without(t, target).Some?
    ensures OneMore(Splits(Without(t, target).value), Splits(t), x)
  {
    WithoutIff(t, target);
    WithoutIff(t.first, target);
    var (head, a, b) := ([(t.dir, t.ratio)], Splits(t.first), Splits(t.second));
    if t.first == Leaf(target) {
      x := (t.dir, t.ratio);
      assert OneMoreAt(b, Splits(t), x, 0);
    } else if t.second == Leaf(target) {
      x := (t.dir, t.ratio);
      assert OneMoreAt(a, Splits(t), x, 0);
    } else if Without(t.first, target).Some? {
      x := WithoutRemovesOneSplit(t.first, target);
      OneMoreWithin(head, Splits(Without(t.first, target).value), a, b, x);
    } else {
      x := WithoutRemovesOneSplit(t.second, target);
      var c := Splits(Without(t.second, target).value);
      OneMoreWithin(head + a, c, b, [], x);
      assert head + a + b + [] == head + a + b && head + a + c + [] == head + a + c;
    }
  }

  /** Removing the new pane undoes a split. */
  lemma {:induction false} RemoveUndoesSplit(t: Tree, target: nat, added: nat, dir: Dir)
    requires Holds(t, target) && !Holds(t, added)
    ensures SplitAt(t, target, added, dir).Some?
    ensures Without(SplitAt(t, target, added, dir).value, added) == Some(t)
  {
    SplitsIffHeld(t, target, added, dir);
    if t.Split? {
      SplitsIffHeld(t.first, target, added, dir);
      WithoutIff(t.first, added);
      if Holds(t.first, target) {
        RemoveUndoesSplit(t.first, target, added, dir);
      } else {
        RemoveUndoesSplit(t.second, target, added, dir);
      }
    }
  }

  // ---------- ratios ----------

  predicate RatiosIn(t: Tree, lo: real, hi: real) {
    t.Split? ==> lo <= t.ratio <= hi && RatiosIn(t.first, lo, hi) && RatiosIn(t.second, lo, hi)
  }

  lemma {:induction false} EditsKeepRatios(t: Tree, target: nat, added: nat, dir: Dir, path: Path, ratio: real)
    requires RatiosIn(t, RATIO_MIN, RATIO_MAX)
    ensures var r := SplitAt(t, target, added, dir); r.Some? ==> RatiosIn(r.value, RATIO_MIN, RATIO_MAX)
    ensures var r := Without(t, target); r.Some? ==> RatiosIn(r.value, RATIO_MIN, RATIO_MAX)
    ensures RatiosIn(WithRatio(t, path, ClampRatio(ratio)), RATIO_MIN, RATIO_MAX)
  {
    if t.Split? {
      var rest := if path == [] then [] else path[1..];
      EditsKeepRatios(t.first, target, added, dir, rest, ratio);
      EditsKeepRatios(t.second, target, added, dir, rest, ratio);
    }
  }

  // ---------- geometry ----------

  lemma PartOf(a: real, ratio: real)
    requires 0.0 <= ratio <= 1.0
    ensures 0.0 <= a ==> 0.0 <= a * ratio <= a
    ensures a <= 0.0 ==> a <= a * ratio <= 0.0
  {
    assert a * ratio + a * (1.0 - ratio) == a;
  }

  lemma PortionBounds(extent: int, ratio: real)
    requires 0.0 <= ratio <= 1.0
    ensures extent >= 0 ==> 0.0 <= Portion(extent, ratio) <= extent as real
    ensures extent <= 0 ==> extent as real <= Portion(extent, ratio) <= 0.0
  {
    var a := extent as real;
    PartOf(a, ratio);
    assert Portion(extent, ratio) == a * ratio;
  }

  lemma TruncBounds(extent: int, ratio: real)
    requires 0.0 <= ratio <= 1.0
    ensures extent >= 0 ==> 0 <= Trunc(Portion(extent, ratio)) <= extent
    ensures extent <= 0 ==> extent <= Trunc(Portion(extent, ratio)) <= 0
  {
    PortionBounds(extent, ratio);
    hide Portion;
  }

  lemma SnapBounds(f: int, cell: int)
    requires cell > 0
    ensures f >= 0 ==> 0 <= TruncDiv(f, cell) * cell <= f
    ensures f <= 0 ==> f <= TruncDiv(f, cell) * cell <= 0
  {
    if f >= 0 {
      WholeCells(f, cell);
    } else {
      WholeCells(-f, cell);
      NegatedProduct(-f / cell, cell);
    }
  }

  lemma WholeCells(g: int, cell: int)
    requires g >= 0 && cell > 0
    ensures 0 <= g / cell * cell <= g
  {
    assert g == g / cell * cell + g % cell;
  }

  lemma NegatedProduct(q: int, c: int)
    ensures -q * c == -(q * c)
  {
  }

  /** The first child's part starts at the parent's start and the second's ends at its end, with the
      divider between them, even when there is no room for them. */
  lemma ExtentBounds(extent: int, ratio: real, border: nat, cell: int)
    requires 0.0 <= ratio <= 1.0
    ensures var f := FirstExtent(extent, ratio, border, cell);
            && (extent >= 0 ==> f <= extent && f + border >= 0)
            && (extent <= 0 ==> f <= 0 && extent - f - border <= 0)
  {
    TruncBounds(extent, ratio);
    hide Trunc, Portion;
    var f := Trunc(Portion(extent, ratio)) - border / 2;
    if cell > 0 { SnapBounds(f, cell); }
  }

  lemma StepTiles(r: Rect, dir: Dir, ratio: real, g: Grid, x: int, y: int)
    requires 0.0 <= ratio <= 1.0
    ensures Within(FirstRect(r, dir, ratio, g), x, y) ==> Within(r, x, y)
    ensures Within(SecondRect(r, dir, ratio, g), x, y) ==> Within(r, x, y)
    ensures !(Within(FirstRect(r, dir, ratio, g), x, y) && Within(SecondRect(r, dir, ratio, g), x, y))
  {
    ExtentBounds(r.w, ratio, g.border, g.cellW);
    ExtentBounds(r.h, ratio, g.border, g.cellH);
    hide FirstExtent;
  }

  /** No pane reaches outside the rectangle. */
  lemma {:induction false} PlacesAreInside(t: Tree, r: Rect, g: Grid, i: nat, x: int, y: int)
    requires RatiosIn(t, 0.0, 1.0) && i < |Leaves(t)| && Within(Places(t, r, g)[i].rect, x, y)
    ensures Within(r, x, y)
  {
    if t.Split? {
      StepTiles(r, t.dir, t.ratio, g, x, y);
      var n := |Leaves(t.first)|;
      if i < n {
        PlacesAreInside(t.first, FirstRect(r, t.dir, t.ratio, g), g, i, x, y);
      } else {
        PlacesAreInside(t.second, SecondRect(r, t.dir, t.ratio, g), g, i - n, x, y);
      }
      hide FirstRect, SecondRect, Within;
    }
  }

  /** No point belongs to two panes. */
  lemma {:induction false} PlacesAreDisjoint(t: Tree, r: Rect, g: Grid, i: nat, j: nat, x: int, y: int)
    requires RatiosIn(t, 0.0, 1.0) && i < j < |Leaves(t)|
    ensures !(Within(Places(t, r, g)[i].rect, x, y) && Within(Places(t, r, g)[j].rect, x, y))
  {
    if t.Split? {
      var (a, b) := (FirstRect(r, t.dir, t.ratio, g), SecondRect(r, t.dir, t.ratio, g));
      var n := |Leaves(t.first)|;
      StepTiles(r, t.dir, t.ratio, g, x, y);
      hide FirstRect, SecondRect, Within;
      if j < n {
        PlacesAreDisjoint(t.first, a, g, i, j, x, y);
      } else if i >= n {
        PlacesAreDisjoint(t.second, b, g, i - n, j - n, x, y);
      } else if Within(Places(t, r, g)[i].rect, x, y) && Within(Places(t, r, g)[j].rect, x, y) {
        PlacesAreInside(t.first, a, g, i, x, y);
        PlacesAreInside(t.second, b, g, j - n, x, y);
      }
    }
  }

  /** The hit test finds the one pane that has the point, and nothing where there is none. */
  lemma {:induction false} PaneAtIff(t: Tree, r: Rect, g: Grid, i: nat, x: int, y: int)
    requires RatiosIn(t, 0.0, 1.0) && Distinct(Leaves(t)) && i < |Leaves(t)|
    ensures PaneAt(t, r, g, x, y) == Some(Leaves(t)[i]) <==> Within(Places(t, r, g)[i].rect, x, y)
  {
    if t.Split? {
      var (a, b) := (FirstRect(r, t.dir, t.ratio, g), SecondRect(r, t.dir, t.ratio, g));
      var n := |Leaves(t.first)|;
      StepTiles(r, t.dir, t.ratio, g, x, y);
      DistinctParts(Leaves(t.first), Leaves(t.second));
      HitIsInside(t.first, a, g, x, y);
      HitIsInside(t.second, b, g, x, y);
      hide FirstRect, SecondRect, Within;
      if i < n {
        assert Leaves(t)[i] == Leaves(t.first)[i];
        PaneAtIff(t.first, a, g, i, x, y);
      } else {
        assert Leaves(t)[i] == Leaves(t.second)[i - n];
        PaneAtIff(t.second, b, g, i - n, x, y);
        if Within(Places(t, r, g)[i].rect, x, y) { PlacesAreInside(t.second, b, g, i - n, x, y); }
      }
    }
  }

  lemma {:induction false} HitIsInside(t: Tree, r: Rect, g: Grid, x: int, y: int)
    requires RatiosIn(t, 0.0, 1.0)
    ensures PaneAt(t, r, g, x, y).Some? ==> Within(r, x, y) && PaneAt(t, r, g, x, y).value in Leaves(t)
  {
    if t.Split? {
      StepTiles(r, t.dir, t.ratio, g, x, y);
      HitIsInside(t.first, FirstRect(r, t.dir, t.ratio, g), g, x, y);
      HitIsInside(t.second, SecondRect(r, t.dir, t.ratio, g), g, x, y);
      hide FirstRect, SecondRect, Within;
    }
  }

  // ---------- moving a divider ----------

  /** A split in the given direction with the pane in its first child. */
  predicate IsEdge(t: Tree, p: nat, dir: Dir, path: Path) {
    match NodeAt(t, path)
    case Some(Split(d, _, first, _)) => d == dir && Holds(first, p)
    case _ => false
  }

  lemma {:induction false} EdgeHolds(t: Tree, p: nat, dir: Dir, path: Path)
    requires IsEdge(t, p, dir, path)
    ensures t.Split? && Holds(t, p) && (path != [] ==> Holds(Child(t, path[0]), p) && IsEdge(Child(t, path[0]), p, dir, path[1..]))
  {
    if path != [] && t.Split? { EdgeHolds(Child(t, path[0]), p, dir, path[1..]); }
  }

  /** The divider that moves is the innermost one of that direction with the pane before it. */
  lemma {:induction false} EdgeSplitIsInnermost(t: Tree, p: nat, dir: Dir, path: Path)
    requires Distinct(Leaves(t)) && IsEdge(t, p, dir, path)
    ensures EdgeSplit(t, p, dir).Some? && path <= EdgeSplit(t, p, dir).value
  {
    EdgeHolds(t, p, dir, path);
    DistinctParts(Leaves(t.first), Leaves(t.second));
    HoldsIsMember(t.first, p);
    HoldsIsMember(t.second, p);
    EdgeSplitIsEdge(t.first, p, dir);
    if path != [] {
      EdgeSplitIsInnermost(Child(t, path[0]), p, dir, path[1..]);
      assert path == [path[0]] + path[1..];
    }
  }

  lemma {:induction false} EdgeSplitIsEdge(t: Tree, p: nat, dir: Dir)
    ensures EdgeSplit(t, p, dir).Some? ==> IsEdge(t, p, dir, EdgeSplit(t, p, dir).value) && Holds(t, p)
  {
    if t.Split? {
      EdgeSplitIsEdge(t.first, p, dir);
      EdgeSplitIsEdge(t.second, p, dir);
      if EdgeSplit(t.first, p, dir).Some? {
        assert ([false] + EdgeSplit(t.first, p, dir).value)[1..] == EdgeSplit(t.first, p, dir).value;
      } else if EdgeSplit(t.second, p, dir).Some? {
        assert ([true] + EdgeSplit(t.second, p, dir).value)[1..] == EdgeSplit(t.second, p, dir).value;
      }
    }
  }

  /** Setting one ratio changes no other split and no leaf. */
  lemma {:induction false} WithRatioChangesOne(t: Tree, path: Path, ratio: real, q: Path)
    ensures Leaves(WithRatio(t, path, ratio)) == Leaves(t)
    ensures match (NodeAt(t, q), NodeAt(WithRatio(t, path, ratio), q))
            case (Some(Split(d, r, _, _)), Some(Split(e, s, _, _))) => d == e && (s == if q == path then ratio else r)
            case (Some(Leaf(x)), Some(Leaf(y))) => x == y
            case (a, b) => a.None? && b.None?
  {
    if t.Split? {
      if path == [] {
        if q != [] { SameBelow(t, ratio, q); }
      } else {
        var down := if q == [] then [] else q[1..];
        WithRatioChangesOne(t.first, path[1..], ratio, down);
        WithRatioChangesOne(t.second, path[1..], ratio, down);
        if q != [] {
          assert q == path <==> q[0] == path[0] && q[1..] == path[1..] by {
            assert q == [q[0]] + q[1..] && path == [path[0]] + path[1..];
          }
        }
      }
    }
  }

  lemma SameBelow(t: Tree, ratio: real, q: Path)
    requires t.Split? && q != []
    ensures NodeAt(t.(ratio := ratio), q) == NodeAt(t, q)
  {
  }

  /** A resize moves the innermost divider and nothing else, and no side gets less than a twentieth;
      it does nothing exactly when there is no such divider or its split has no extent. */
  lemma ResizeMovesOneDivider(t: Tree, r: Rect, g: Grid, p: nat, horizontal: bool, delta: int)
    requires RatiosIn(t, RATIO_MIN, RATIO_MAX)
    ensures var (path, u) := (EdgeSplit(t, p, if horizontal then Vertical else Horizontal), ResizeEdge(t, r, g, p, horizontal, delta));
            && (u.Some? <==> path.Some? && (if horizontal then RectAt(t, r, g, path.value).w else RectAt(t, r, g, path.value).h) > 0)
            && (u.Some? ==> Leaves(u.value) == Leaves(t) && RatiosIn(u.value, RATIO_MIN, RATIO_MAX)
                            && exists ratio :: u.value == WithRatio(t, path.value, ratio))
  {
    var dir := if horizontal then Vertical else Horizontal;
    EdgeSplitIsEdge(t, p, dir);
    var path := EdgeSplit(t, p, dir);
    if path.Some? {
      var at := RectAt(t, r, g, path.value);
      var extent := if horizontal then at.w else at.h;
      if extent > 0 {
        var ratio := NodeAt(t, path.value).value.ratio + delta as real / extent as real;
        EditsKeepRatios(t, p, p, dir, path.value, ratio);
        WithRatioChangesOne(t, path.value, ClampRatio(ratio), []);
        assert ResizeEdge(t, r, g, p, horizontal, delta).value == WithRatio(t, path.value, ClampRatio(ratio));
      }
    }
  }
}
