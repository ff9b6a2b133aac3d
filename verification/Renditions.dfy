/**
  What a graphic-rendition sequence says. A colour beyond the first sixteen is written in one of several
  forms, some of them several parameters long; a whole sequence means its renditions, one after the other,
  in whatever forms its colours are written.
*/
module Renditions {
  import opened Bytes
  import opened Cells
  import opened VtParsing
  import opened Screens

  datatype Hue = Indexed(n: nat) | Direct(r: nat, g: nat, b: nat)

  /** 38;2;r;g;b and 38;5;n, or 38:2::r:g:b and 38:5:n, or 38:2:r:g:b. */
  datatype Form = Semicolons | Colons | ShortColons

  datatype Rendition =
    | Code(p: Param)
    | Foreground(hue: Hue, form: Form)
    | Background(hue: Hue, form: Form)

  /** Left out, as the colour space between two colons. */
  const NOTHING: int := -1

  function Extended(channel: nat, hue: Hue, form: Form): seq<Param> {
    match (hue, form)
    case (Indexed(n), Semicolons) => [Param(channel, []), Param(5, []), Param(n, [])]
    case (Indexed(n), _) => [Param(channel, [5, n])]
    case (Direct(r, g, b), Semicolons) => [Param(channel, []), Param(2, []), Param(r, []), Param(g, []), Param(b, [])]
    case (Direct(r, g, b), Colons) => [Param(channel, [2, NOTHING, r, g, b])]
    case (Direct(r, g, b), ShortColons) => [Param(channel, [2, r, g, b])]
  }

  function Written(x: Rendition): (ps: seq<Param>)
    ensures ps != []
  {
    match x
    case Code(p) => [p]
    case Foreground(hue, form) => Extended(38, hue, form)
    case Background(hue, form) => Extended(48, hue, form)
  }

  function AllWritten(xs: seq<Rendition>): seq<Param> {
    if xs == [] then [] else Written(xs[0]) + AllWritten(xs[1..])
  }

  /** A palette index or three channels, eight bits each. */
  function ColorOf(hue: Hue): nat {
    match hue
    case Indexed(n) => n % 0x100
    case Direct(r, g, b) => Rgb(r, g, b)
  }

  function Painted(pen: Pen, x: Rendition): Pen {
    match x
    case Code(p) => SgrStep(pen, [p], 0).0
    case Foreground(hue, _) => pen.(fg := ColorOf(hue))
    case Background(hue, _) => pen.(bg := ColorOf(hue))
  }

  function AllPainted(pen: Pen, xs: seq<Rendition>): Pen
    decreases |xs|
  {
    if xs == [] then pen else AllPainted(Painted(pen, xs[0]), xs[1..])
  }

  predicate Introduces(p: Param) {
    p.value in {38, 48, 58}
  }

  /** Single codes are not the beginning of an extended colour. */
  predicate Single(xs: seq<Rendition>) {
    forall i | 0 <= i < |xs| :: xs[i].Code? ==> !Introduces(xs[i].p)
  }

  lemma ValueShifts(front: seq<Param>, ps: seq<Param>, i: nat)
    ensures ParamValue(front + ps, |front| + i, 0) == ParamValue(ps, i, 0)
  {
  }

  lemma ColorShifts(front: seq<Param>, ps: seq<Param>, i: nat, prior: nat)
    requires i < |ps|
    ensures ExtendedColor(front + ps, |front| + i, prior) == ExtendedColor(ps, i, prior)
  {
    hide ParamValue, Rgb;
    assert (front + ps)[|front| + i] == ps[i];
    ValueShifts(front, ps, i + 1);
    ValueShifts(front, ps, i + 2);
    ValueShifts(front, ps, i + 3);
    ValueShifts(front, ps, i + 4);
  }

  /** What is read from parameter i on does not depend on the parameters before. */
  lemma StepShifts(pen: Pen, front: seq<Param>, ps: seq<Param>, i: nat)
    requires i < |ps|
    ensures var (x, y) := (SgrStep(pen, front + ps, |front| + i), SgrStep(pen, ps, i));
            x.0 == y.0 && x.1 == |front| + y.1
  {
    var all := front + ps;
    assert all[|front| + i] == ps[i];
    hide Underlined, ExtendedColor, ParamValue;
    ValueShifts(front, ps, i);
    ColorShifts(front, ps, i, pen.fg);
    ColorShifts(front, ps, i, pen.bg);
    ColorShifts(front, ps, i, 0);
  }

  lemma {:induction false} ReadingShifts(pen: Pen, front: seq<Param>, ps: seq<Param>, i: nat)
    ensures SgrFrom(pen, front + ps, |front| + i) == SgrFrom(pen, ps, i)
    decreases |ps| - i
  {
    hide SgrStep;
    if i < |ps| {
      StepShifts(pen, front, ps, i);
      ReadingShifts(SgrStep(pen, ps, i).0, front, ps, SgrStep(pen, ps, i).1);
    }
  }

  /** An extended colour takes all its parameters and no more, and sets the one colour. */
  lemma RenditionIsRead(pen: Pen, x: Rendition, rest: seq<Param>)
    requires x.Code? ==> !Introduces(x.p)
    ensures SgrStep(pen, Written(x) + rest, 0) == (Painted(pen, x), |Written(x)|)
  {
    hide Rgb, Underlined;
    match x {
      case Code(p) =>
        hide ExtendedColor;
      case Foreground(hue, form) => HueIsRead(pen.fg, 38, hue, form, rest);
        hide ExtendedColor, Extended, ColorOf;
      case Background(hue, form) => HueIsRead(pen.bg, 48, hue, form, rest);
        hide ExtendedColor, Extended, ColorOf;
    }
  }

  lemma HueIsRead(prior: nat, channel: nat, hue: Hue, form: Form, rest: seq<Param>)
    ensures var ps := Extended(channel, hue, form) + rest;
            ParamValue(ps, 0, 0) == channel && ExtendedColor(ps, 0, prior) == (ColorOf(hue), |Extended(channel, hue, form)| - 1)
  {
    hide Rgb;
  }

  lemma {:induction false} SequenceIsRead(pen: Pen, xs: seq<Rendition>)
    requires Single(xs)
    ensures SgrFrom(pen, AllWritten(xs), 0) == AllPainted(pen, xs)
    decreases |xs|
  {
    hide SgrStep, Written, Painted;
    if xs != [] {
      var (front, rest) := (Written(xs[0]), AllWritten(xs[1..]));
      RenditionIsRead(pen, xs[0], rest);
      ReadingShifts(Painted(pen, xs[0]), front, rest, 0);
      SequenceIsRead(Painted(pen, xs[0]), xs[1..]);
    }
  }

  /** A rendition sequence sets the pen to what its renditions say in turn; an empty one makes it plain. */
  lemma PenIsPainted(pen: Pen, xs: seq<Rendition>)
    requires Single(xs)
    ensures Sgr(pen, AllWritten(xs)) == if xs == [] then PLAIN else AllPainted(pen, xs)
  {
    SequenceIsRead(pen, xs);
  }

  predicate SameButForm(x: Rendition, y: Rendition) {
    match (x, y)
    case (Code(p), Code(q)) => p == q
    case (Foreground(h, _), Foreground(k, _)) => h == k
    case (Background(h, _), Background(k, _)) => h == k
    case _ => false
  }

  lemma {:induction false} PaintedAlike(pen: Pen, xs: seq<Rendition>, ys: seq<Rendition>)
    requires |xs| == |ys| && forall i | 0 <= i < |xs| :: SameButForm(xs[i], ys[i])
    ensures AllPainted(pen, xs) == AllPainted(pen, ys)
    decreases |xs|
  {
    if xs != [] {
      assert SameButForm(xs[0], ys[0]);
      PaintedAlike(Painted(pen, xs[0]), xs[1..], ys[1..]);
    }
  }

  /** The forms in which colours are written make no difference: 38;2;r;g;b, 38:2::r:g:b and 38:2:r:g:b, anywhere
      in a sequence. */
  lemma FormsAgree(pen: Pen, xs: seq<Rendition>, ys: seq<Rendition>)
    requires Single(xs) && |xs| == |ys| && forall i | 0 <= i < |xs| :: SameButForm(xs[i], ys[i])
    ensures Sgr(pen, AllWritten(xs)) == Sgr(pen, AllWritten(ys))
  {
    forall i | 0 <= i < |ys| ensures ys[i].Code? ==> !Introduces(ys[i].p) { assert SameButForm(xs[i], ys[i]); }
    PenIsPainted(pen, xs);
    PenIsPainted(pen, ys);
    PaintedAlike(pen, xs, ys);
  }

  lemma RgbOf(r: nat, g: nat, b: nat)
    requires InRange(Direct(r, g, b))
    ensures Rgb(r, g, b) == COLOR_TRUECOLOR + (0x1_0000 * r + (0x100 * g + b))
  {
    Small(r);
    Small(g);
    Small(b);
  }

  lemma Small(n: nat)
    requires n < 0x100
    ensures n % 0x100 == n
  {
  }

  /** Two hues in range are one colour exactly when they are equal, and none is the default colour. */
  lemma ColorsAreDistinct(h: Hue, k: Hue)
    requires InRange(h) && InRange(k)
    ensures ColorOf(h) == ColorOf(k) <==> h == k
    ensures ColorOf(h) != COLOR_DEFAULT
  {
    if h.Direct? { RgbOf(h.r, h.g, h.b); } else { Small(h.n); }
    if k.Direct? { RgbOf(k.r, k.g, k.b); } else { Small(k.n); }
    hide Rgb;
  }

  predicate InRange(h: Hue) {
    match h
    case Indexed(n) => n < 0x100
    case Direct(r, g, b) => r < 0x100 && g < 0x100 && b < 0x100
  }
}
