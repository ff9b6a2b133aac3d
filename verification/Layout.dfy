/**
  The split-pane layout tree: inserting and removing panes, dividing a rectangle among
  them, hit-testing, moving a divider. The nodes that the program changes in place are in
  LayoutNode.dfy and are proved against this.
*/
module Layouts {
  import opened Bytes
  import opened Wrappers

  datatype Dir = Horizontal | Vertical

  /** A vertical split has its children side by side, a horizontal one has them on top of each other. */
  datatype Tree = Leaf(pane: nat) | Split(dir: Dir, ratio: real, first: Tree, second: Tree)

  /** The panes from left to right, or top to bottom. */
  function Leaves(t: Tree): (s: seq<nat>)
    ensures s != []
  {
    match t
    case Leaf(p) => [p]
    case Split(_, _, first, second) => Leaves(first) + Leaves(second)
  }

  predicate Holds(t: Tree, p: nat) {
    match t
    case Leaf(q) => q == p
    case Split(_, _, first, second) => Holds(first, p) || Holds(second, p)
  }

  /** Direction and ratio of every split, outermost first. */
  function Splits(t: Tree): seq<(Dir, real)> {
    match t
    case Leaf(_) => []
    case Split(dir, ratio, first, second) => [(dir, ratio)] + Splits(first) + Splits(second)
  }

  predicate Distinct<T(==)>(s: seq<T>) {
    forall i, j | 0 <= i < j < |s| :: s[i] != s[j]
  }

  // ---------- edits ----------

  /** The first leaf of the target becomes a split of it and the new pane. */
  function SplitAt(t: Tree, target: nat, added: nat, dir: Dir): Option<Tree> {
    match t
    case Leaf(p) => if p == target then Some(Split(dir, 0.5, Leaf(target), Leaf(added))) else None
    case Split(d, ratio, first, second) =>
      match SplitAt(first, target, added, dir)
      case Some(f) => Some(Split(d, ratio, f, second))
      case None =>
        match SplitAt(second, target, added, dir)
        case Some(s) => Some(Split(d, ratio, first, s))
        case None => None
  }

  /** The split above the target's leaf is replaced by the leaf's sibling; None without such a split. */
  function Without(t: Tree, target: nat): Option<Tree> {
    match t
    case Leaf(_) => None
    case Split(d, ratio, first, second) =>
      if first == Leaf(target) then Some(second)
      else if second == Leaf(target) then Some(first)
      else
        match Without(first, target)
        case Some(f) => Some(Split(d, ratio, f, second))
        case None =>
          match Without(second, target)
          case Some(s) => Some(Split(d, ratio, first, s))
          case None => None
  }

  // ---------- geometry ----------

  datatype Rect = Rect(x: int, y: int, w: int, h: int)

  /** Width of dividers, and the size of a cell; a size of 0 or less means no snapping. */
  datatype Grid = Grid(border: nat, cellW: int, cellH: int)

  /** Division as in C++, toward zero. */
  function TruncDiv(a: int, b: int): int
    requires b > 0
  {
    if a >= 0 then a / b else -(-a / b)
  }

  /** Conversion of a real to an integer as in C++, toward zero. */
  function Trunc(r: real): int {
    if r >= 0.0 then r.Floor else -(-r).Floor
  }

  function Portion(extent: int, ratio: real): real {
    extent as real * ratio
  }

  /** What the first child gets of an extent. */
  function FirstExtent(extent: int, ratio: real, border: nat, cell: int): int {
    var f := Trunc(Portion(extent, ratio)) - border / 2;
    if cell > 0 then TruncDiv(f, cell) * cell else f
  }

  function FirstRect(r: Rect, dir: Dir, ratio: real, g: Grid): Rect {
    if dir.Vertical? then r.(w := FirstExtent(r.w, ratio, g.border, g.cellW))
    else r.(h := FirstExtent(r.h, ratio, g.border, g.cellH))
  }

  function SecondRect(r: Rect, dir: Dir, ratio: real, g: Grid): Rect {
    var f := FirstRect(r, dir, ratio, g);
    if dir.Vertical? then r.(x := r.x + f.w + g.border, w := r.w - f.w - g.border)
    else r.(y := r.y + f.h + g.border, h := r.h - f.h - g.border)
  }

  datatype Place = Place(pane: nat, rect: Rect)

  /** Where every leaf is put, in leaf order. */
  function Places(t: Tree, r: Rect, g: Grid): (s: seq<Place>)
    ensures |s| == |Leaves(t)| && forall i | 0 <= i < |s| :: s[i].pane == Leaves(t)[i]
  {
    match t
    case Leaf(p) => [Place(p, r)]
    case Split(dir, ratio, first, second) =>
      Places(first, FirstRect(r, dir, ratio, g), g) + Places(second, SecondRect(r, dir, ratio, g), g)
  }

  predicate Within(r: Rect, x: int, y: int) {
    r.x <= x < r.x + r.w && r.y <= y < r.y + r.h
  }

  /** The pane at a point: the first place in leaf order that has it. */
  function PaneAt(t: Tree, r: Rect, g: Grid, x: int, y: int): Option<nat> {
    match t
    case Leaf(p) => if Within(r, x, y) then Some(p) else None
    case Split(dir, ratio, first, second) =>
      match PaneAt(first, FirstRect(r, dir, ratio, g), g, x, y)
      case Some(p) => Some(p)
      case None => PaneAt(second, SecondRect(r, dir, ratio, g), g, x, y)
  }

  // ---------- moving a divider ----------

  const RATIO_MIN: real := 0.05
  const RATIO_MAX: real := 0.95

  function ClampRatio(r: real): real {
    if r < RATIO_MIN then RATIO_MIN else if r > RATIO_MAX then RATIO_MAX else r
  }

  /** The ratio after its divider has moved by delta units of an extent. */
  function MovedRatio(ratio: real, delta: int, extent: int): real
    requires extent > 0
  {
    ClampRatio(ratio + delta as real / extent as real)
  }

  /** The way down to a node: false for the first child, true for the second. */
  type Path = seq<bool>

  function Child(t: Tree, step: bool): Tree
    requires t.Split?
  {
    if step then t.second else t.first
  }

  /** The node at the end of the way, if it leads anywhere. */
  function NodeAt(t: Tree, path: Path): Option<Tree> {
    if path == [] then Some(t)
    else if t.Leaf? then None
    else NodeAt(Child(t, path[0]), path[1..])
  }

  function RectAt(t: Tree, r: Rect, g: Grid, path: Path): Rect {
    if path == [] || t.Leaf? then r
    else RectAt(Child(t, path[0]), if path[0] then SecondRect(r, t.dir, t.ratio, g) else FirstRect(r, t.dir, t.ratio, g), g, path[1..])
  }

  function WithRatio(t: Tree, path: Path, ratio: real): Tree {
    if t.Leaf? then t
    else if path == [] then t.(ratio := ratio)
    else if path[0] then t.(second := WithRatio(t.second, path[1..], ratio))
    else t.(first := WithRatio(t.first, path[1..], ratio))
  }

  /** The divider at the pane's right or lower edge: children are searched before the node itself. */
  function EdgeSplit(t: Tree, p: nat, dir: Dir): Option<Path> {
    if t.Leaf? then None
    else match EdgeSplit(t.first, p, dir)
      case Some(path) => Some([false] + path)
      case None =>
        match EdgeSplit(t.second, p, dir)
        case Some(path) => Some([true] + path)
        case None => if t.dir == dir && Holds(t.first, p) then Some([]) else None
  }

  /** Moves that divider by delta units of the split's extent; None if there is none or no room. */
  function ResizeEdge(t: Tree, r: Rect, g: Grid, p: nat, horizontal: bool, delta: int): Option<Tree> {
    match EdgeSplit(t, p, if horizontal then Vertical else Horizontal)
    case None => None
    case Some(path) =>
      var at := RectAt(t, r, g, path);
      var extent := if horizontal then at.w else at.h;
      match NodeAt(t, path)
      case Some(Split(_, ratio, _, _)) =>
        if extent <= 0 then None
        else Some(WithRatio(t, path, MovedRatio(ratio, delta, extent)))
      case _ => None
  }
}
