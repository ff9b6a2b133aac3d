/** The layout tree as the program keeps it: linked nodes that are changed in place. */
module LayoutNodes {
  import opened Bytes
  import opened Wrappers
  import L = Layouts
  import T = LayoutTheorems

  class LayoutNode {
    var pane: Option<nat>
    var dir: L.Dir
    var ratio: real
    var first: LayoutNode?
    var second: LayoutNode?
    var rect: L.Rect
    ghost var Repr: set<object>

    ghost predicate Valid()
      reads this, Repr
      decreases Repr
    {
      && this in Repr
      && (pane.Some? ==> first == null && second == null)
      && (pane.None? ==>
            && first != null && second != null
            && first in Repr && first.Repr <= Repr && this !in first.Repr && first.Valid()
            && second in Repr && second.Repr <= Repr && this !in second.Repr && second.Valid()
            && first.Repr !! second.Repr)
    }

    ghost function Tree(): L.Tree
      requires Valid()
      reads this, Repr
      decreases Repr
    {
      if pane.Some? then L.Leaf(pane.value) else L.Split(dir, ratio, first.Tree(), second.Tree())
    }

    /** The rectangles are those of the last layout computed from this node's. */
    ghost predicate Laid(g: L.Grid)
      requires Valid()
      reads this, Repr
      decreases Repr
    {
      pane.None? ==>
        && first.rect == L.FirstRect(rect, dir, ratio, g) && first.Laid(g)
        && second.rect == L.SecondRect(rect, dir, ratio, g) && second.Laid(g)
    }

    constructor (p: nat)
      ensures Valid() && Repr == {this} && Tree() == L.Leaf(p)
    {
      pane, dir, ratio, first, second, rect := Some(p), L.Vertical, 0.5, null, null, L.Rect(0, 0, 0, 0);
      Repr := {this};
    }

    /** The leaf becomes a split of its pane and a new one. */
    method BecomeSplit(added: nat, d: L.Dir)
      requires Valid() && pane.Some?
      modifies this
      ensures Valid() && fresh(Repr - {this})
      ensures Tree() == L.Split(d, 0.5, L.Leaf(old(pane.value)), L.Leaf(added))
    {
      var a := new LayoutNode(pane.value);
      var b := new LayoutNode(added);
      pane, dir, ratio, first, second := None, d, 0.5, a, b;
      Repr := {this} + a.Repr + b.Repr;
    }

    /** How a split of a subtree looks from the node above it. */
    static lemma SplitBelow(t: L.Tree, target: nat, added: nat, d: L.Dir)
      ensures t.Leaf? ==> L.SplitAt(t, target, added, d) ==
                          if t.pane == target then Some(L.Split(d, 0.5, L.Leaf(t.pane), L.Leaf(added))) else None
      ensures t.Split? ==>
                var (a, b) := (L.SplitAt(t.first, target, added, d), L.SplitAt(t.second, target, added, d));
                L.SplitAt(t, target, added, d) ==
                  if a.Some? then Some(t.(first := a.value)) else if b.Some? then Some(t.(second := b.value)) else None
    {
    }

    method Split(target: nat, added: nat, d: L.Dir) returns (ok: bool)
      requires Valid()
      modifies Repr
      ensures Valid() && fresh(Repr - old(Repr))
      ensures ok <==> L.SplitAt(old(Tree()), target, added, d).Some?
      ensures Tree() == if ok then L.SplitAt(old(Tree()), target, added, d).value else old(Tree())
      decreases Tree(), 1
    {
      SplitBelow(Tree(), target, added, d);
      hide L.SplitAt;
      if pane.Some? {
        ok := pane.value == target;
        if ok { BecomeSplit(added, d); }
        return;
      }
      ok := SplitFirst(target, added, d);
      if !ok { ok := SplitSecond(target, added, d); }
    }

    method SplitFirst(target: nat, added: nat, d: L.Dir) returns (ok: bool)
      requires Valid() && pane.None?
      modifies Repr
      ensures Valid() && pane.None? && fresh(Repr - old(Repr)) 
      ensures ok <==> L.SplitAt(old(first.Tree()), target, added, d).Some?
      ensures Tree() == L.Split(old(dir), old(ratio),
                                if ok then L.SplitAt(old(first.Tree()), target, added, d).value else old(first.Tree()),
                                old(second.Tree()))
      decreases Tree(), 0
    {
      hide L.SplitAt;
      ok := first.Split(target, added, d);
      Repr := Repr + first.Repr;
    }

    method SplitSecond(target: nat, added: nat, d: L.Dir) returns (ok: bool)
      requires Valid() && pane.None?
      modifies Repr
      ensures Valid() && pane.None? && fresh(Repr - old(Repr))
      ensures ok <==> L.SplitAt(old(second.Tree()), target, added, d).Some?
      ensures Tree() == L.Split(old(dir), old(ratio), old(first.Tree()),
                                if ok then L.SplitAt(old(second.Tree()), target, added, d).value else old(second.Tree()))
      decreases Tree(), 0
    {
      hide L.SplitAt;
      ok := second.Split(target, added, d);
      Repr := Repr + second.Repr;
    }

    /** The node takes over what another node holds. */
    method Absorb(n: LayoutNode)
      requires Valid() && n.Valid() && this !in n.Repr
      modifies this
      ensures Valid() && Repr == {this} + n.Repr && Tree() == old(n.Tree())
    {
      pane, dir, ratio, first, second := n.pane, n.dir, n.ratio, n.first, n.second;
      Repr := {this} + n.Repr;
    }

    /** Collapses the split above the target's leaf into the leaf's sibling. */
    method Remove(target: nat) returns (ok: bool)
      requires Valid()
      modifies Repr
      ensures Valid() && Repr <= old(Repr)
      ensures ok <==> L.Without(old(Tree()), target).Some?
      ensures Tree() == if ok then L.Without(old(Tree()), target).value else old(Tree())
      decreases Repr
    {
      if pane.Some? { return false; }
      if first.pane == Some(target) {
        Absorb(second);
        return true;
      }
      if second.pane == Some(target) {
        Absorb(first);
        return true;
      }
      ok := first.Remove(target);
      if !ok { ok := second.Remove(target); }
    }

    /** Divides a rectangle among the panes below this node. */
    method ComputeNode(r: L.Rect, g: L.Grid)
      requires Valid()
      modifies Repr
      ensures Valid() && Repr == old(Repr) && Tree() == old(Tree())
      ensures rect == r && Laid(g)
      decreases Repr
    {
      rect := r;
      if pane.Some? { return; }
      var f, s := L.FirstRect(r, dir, ratio, g), L.SecondRect(r, dir, ratio, g);
      first.ComputeNode(f, g);
      second.ComputeNode(s, g);
    }

    method PaneAt(x: int, y: int, ghost g: L.Grid) returns (p: Option<nat>)
      requires Valid() && Laid(g)
      ensures p == L.PaneAt(Tree(), rect, g, x, y)
      decreases Repr
    {
      if pane.Some? { return if L.Within(rect, x, y) then pane else None; }
      p := first.PaneAt(x, y, g);
      if p.None? { p := second.PaneAt(x, y, g); }
    }

    method Contains(p: nat) returns (r: bool)
      requires Valid()
      ensures r == L.Holds(Tree(), p)
      decreases Repr
    {
      if pane.Some? { return pane.value == p; }
      r := first.Contains(p);
      if !r { r := second.Contains(p); }
    }

    /** Finds the innermost divider of the direction with the target before it, and moves it. */
    method MoveEdge(target: nat, d: L.Dir, delta: int, ghost g: L.Grid) returns (found: bool, moved: bool)
      requires Valid() && Laid(g)
      modifies Repr
      ensures Valid() && Repr == old(Repr)
      ensures found <==> L.EdgeSplit(old(Tree()), target, d).Some?
      ensures moved <==> L.ResizeEdge(old(Tree()), old(rect), g, target, d.Vertical?, delta).Some?
      ensures moved ==> found
      ensures !moved ==> Laid(g) && rect == old(rect)
      ensures Tree() == if moved then L.ResizeEdge(old(Tree()), old(rect), g, target, d.Vertical?, delta).value else old(Tree())
      decreases Tree(), 1
    {
      hide L.EdgeSplit, L.ResizeEdge, L.FirstRect, L.SecondRect, L.MovedRatio;
      if pane.Some? {
        NoEdgeInLeaf(pane.value, rect, g, target, d, delta);
        return false, false;
      }
      EdgeBelow(Tree(), rect, g, target, d, delta);
      found, moved := MoveBelow(first, target, d, delta, g);
      if found { return; }
      found, moved := MoveBelow(second, target, d, delta, g);
      if found { return; }
      found, moved := MoveOwn(target, d, delta, g);
    }

    /** This node's own divider, if the target is before it. */
    method MoveOwn(target: nat, d: L.Dir, delta: int, ghost g: L.Grid) returns (found: bool, moved: bool)
      requires Valid() && pane.None? && Laid(g)
      modifies this`ratio
      ensures Valid()
      ensures found <==> dir == d && L.Holds(first.Tree(), target)
      ensures moved <==> found && (if d.Vertical? then rect.w else rect.h) > 0
      ensures first.Tree() == old(first.Tree()) && second.Tree() == old(second.Tree())
      ensures ratio == if moved then L.MovedRatio(old(ratio), delta, if d.Vertical? then rect.w else rect.h) else old(ratio)
      ensures !moved ==> Laid(g)
    {
      hide L.FirstRect, L.SecondRect;
      if dir != d { return false, false; }
      var held := first.Contains(target);
      if !held { return false, false; }
      var extent := if d.Vertical? then rect.w else rect.h;
      if extent <= 0 { return true, false; }
      ratio := L.MovedRatio(ratio, delta, extent);
      return true, true;
    }

    /** The search and the move in one child; the other is not touched. */
    method MoveBelow(child: LayoutNode, target: nat, d: L.Dir, delta: int, ghost g: L.Grid) returns (found: bool, moved: bool)
      requires Valid() && pane.None? && child in {first, second} && Laid(g)
      modifies child.Repr
      ensures Valid() && Repr == old(Repr)
      ensures found <==> L.EdgeSplit(old(child.Tree()), target, d).Some?
      ensures moved <==> L.ResizeEdge(old(child.Tree()), old(child.rect), g, target, d.Vertical?, delta).Some?
      ensures moved ==> found
      ensures child.Tree() == if moved then L.ResizeEdge(old(child.Tree()), old(child.rect), g, target, d.Vertical?, delta).value
                              else old(child.Tree())
      ensures child == first ==> second.Tree() == old(second.Tree())
      ensures child == second ==> first.Tree() == old(first.Tree())
      ensures !moved ==> Laid(g) && first.rect == old(first.rect) && second.rect == old(second.rect)
      decreases Tree(), 0
    {
      hide L.EdgeSplit, L.ResizeEdge, L.FirstRect, L.SecondRect;
      found, moved := child.MoveEdge(target, d, delta, g);
    }

    /** How a search and a move that end below a split look from the split. */
    static lemma EdgeBelow(t: L.Tree, r: L.Rect, g: L.Grid, p: nat, d: L.Dir, delta: int)
      requires t.Split?
      ensures var (a, b, own) := (L.EdgeSplit(t.first, p, d), L.EdgeSplit(t.second, p, d), t.dir == d && L.Holds(t.first, p));
              (L.EdgeSplit(t, p, d).Some? <==> a.Some? || b.Some? || own)
      ensures L.ResizeEdge(t, r, g, p, d.Vertical?, delta) == EdgeMoved(t, r, g, p, d, delta)
    {
      var (a, b) := (L.EdgeSplit(t.first, p, d), L.EdgeSplit(t.second, p, d));
      hide L.FirstRect, L.SecondRect, L.MovedRatio, L.Holds, L.NodeAt, L.RectAt, L.WithRatio;
      if a.Some? {
        assert L.EdgeSplit(t, p, d) == Some([false] + a.value);
        hide L.EdgeSplit;
        OneStepDown(t, r, g, false, a.value);
      } else if b.Some? {
        assert L.EdgeSplit(t, p, d) == Some([true] + b.value);
        hide L.EdgeSplit;
        OneStepDown(t, r, g, true, b.value);
      } else {
        assert L.EdgeSplit(t, p, d) == if t.dir == d && L.Holds(t.first, p) then Some([]) else None;
        hide L.EdgeSplit;
        Top(t, r, g);
      }
    }

    static lemma Top(t: L.Tree, r: L.Rect, g: L.Grid)
      requires t.Split?
      ensures L.NodeAt(t, []) == Some(t) && L.RectAt(t, r, g, []) == r
      ensures forall x :: L.WithRatio(t, [], x) == t.(ratio := x)
    {
    }

    static lemma OneStepDown(t: L.Tree, r: L.Rect, g: L.Grid, step: bool, path: L.Path)
      requires t.Split?
      ensures L.NodeAt(t, [step] + path) == L.NodeAt(L.Child(t, step), path)
      ensures L.RectAt(t, r, g, [step] + path)
           == L.RectAt(L.Child(t, step), if step then L.SecondRect(r, t.dir, t.ratio, g) else L.FirstRect(r, t.dir, t.ratio, g), g, path)
      ensures forall x :: L.WithRatio(t, [step] + path, x) ==
                if step then t.(second := L.WithRatio(t.second, path, x)) else t.(first := L.WithRatio(t.first, path, x))
    {
      assert ([step] + path)[1..] == path;
    }

    static function EdgeMoved(t: L.Tree, r: L.Rect, g: L.Grid, p: nat, d: L.Dir, delta: int): Option<L.Tree>
      requires t.Split?
    {
      if L.EdgeSplit(t.first, p, d).Some? then
        (match L.ResizeEdge(t.first, L.FirstRect(r, t.dir, t.ratio, g), g, p, d.Vertical?, delta)
         case Some(u) => Some(t.(first := u))
         case None => None)
      else if L.EdgeSplit(t.second, p, d).Some? then
        (match L.ResizeEdge(t.second, L.SecondRect(r, t.dir, t.ratio, g), g, p, d.Vertical?, delta)
         case Some(u) => Some(t.(second := u))
         case None => None)
      else
        var extent := if d.Vertical? then r.w else r.h;
        if t.dir == d && L.Holds(t.first, p) && extent > 0
        then Some(t.(ratio := L.MovedRatio(t.ratio, delta, extent))) else None
    }

    static lemma NoEdgeInLeaf(q: nat, r: L.Rect, g: L.Grid, p: nat, d: L.Dir, delta: int)
      ensures L.EdgeSplit(L.Leaf(q), p, d) == None && L.ResizeEdge(L.Leaf(q), r, g, p, d.Vertical?, delta) == None
    {
    }
  }

  class LayoutTree {
    var root: LayoutNode?
    ghost var Repr: set<object>

    ghost predicate Valid()
      reads this, Repr
    {
      this in Repr && (root != null ==> root in Repr && root.Repr <= Repr && this !in root.Repr && root.Valid())
    }

    ghost function Model(): Option<L.Tree>
      requires Valid()
      reads this, Repr
    {
      if root == null then None else Some(root.Tree())
    }

    constructor ()
      ensures Valid() && fresh(Repr) && Model() == None
    {
      root := null;
      Repr := {this};
    }

    method Init(p: nat)
      requires Valid()
      modifies this
      ensures Valid() && fresh(Repr - old(Repr)) && Model() == Some(L.Leaf(p))
    {
      root := new LayoutNode(p);
      Repr := Repr + root.Repr;
    }

    method Split(target: nat, added: nat, d: L.Dir) returns (ok: bool)
      requires Valid()
      modifies Repr
      ensures Valid() && fresh(Repr - old(Repr))
      ensures ok <==> old(Model()).Some? && L.SplitAt(old(Model()).value, target, added, d).Some?
      ensures Model() == if ok then L.SplitAt(old(Model()).value, target, added, d) else old(Model())
    {
      if root == null { return false; }
      ok := root.Split(target, added, d);
      Repr := Repr + root.Repr;
    }

    /** The last pane takes the whole tree with it. */
    method Remove(target: nat) returns (ok: bool)
      requires Valid()
      modifies Repr
      ensures Valid() && Repr <= old(Repr)
      ensures ok <==> old(Model()).Some? && L.Holds(old(Model()).value, target)
      ensures Model() == if !ok then old(Model())
                         else if old(Model()) == Some(L.Leaf(target)) then None
                         else L.Without(old(Model()).value, target)
    {
      if root == null { return false; }
      T.WithoutIff(root.Tree(), target);
      if root.pane == Some(target) {
        root := null;
        return true;
      }
      ok := root.Remove(target);
    }

    method ComputeLayout(r: L.Rect, g: L.Grid)
      requires Valid()
      modifies Repr
      ensures Valid() && Repr == old(Repr) && Model() == old(Model())
      ensures root == old(root) && (root != null ==> root.rect == r && root.Laid(g))
    {
      if root != null { root.ComputeNode(r, g); }
    }

    method PaneAt(x: int, y: int, ghost g: L.Grid) returns (p: Option<nat>)
      requires Valid() && (root != null ==> root.Laid(g))
      ensures p == if root == null then None else L.PaneAt(Model().value, root.rect, g, x, y)
    {
      if root == null { return None; }
      p := root.PaneAt(x, y, g);
    }

    method ResizeEdge(target: nat, horizontal: bool, delta: int, ghost g: L.Grid) returns (moved: bool)
      requires Valid() && (root != null ==> root.Laid(g))
      modifies Repr
      ensures Valid() && Repr == old(Repr)
      ensures moved <==> old(Model()).Some? && L.ResizeEdge(old(Model()).value, old(root.rect), g, target, horizontal, delta).Some?
      ensures Model() == if moved then L.ResizeEdge(old(Model()).value, old(root.rect), g, target, horizontal, delta) else old(Model())
    {
      if root == null { return false; }
      var found;
      found, moved := root.MoveEdge(target, if horizontal then L.Vertical else L.Horizontal, delta, g);
    }
  }
}
