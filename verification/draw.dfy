/** The drawing commands a frame issues, in order, and the style of a
    particle derived from its perspective scale. */
module Draw {
  import opened RealMath
  import opened Projection
  import opened DepthSort

  /** One canvas operation with the parameters the renderer computes.
      `Place` opens a saved, translated and squashed context: the dots, the
      orbit and the emblem that follow it are relative to the placed origin.
      The context is restored before the `Vignette`, which, like `Clear` and
      `Backdrop`, is in surface (CSS pixel) coordinates. */
  datatype Cmd =
    | Clear(w: real, h: real)                            // clearRect over the surface
    | Backdrop(w: real, h: real)                         // solid black fillRect
    | Place(ox: real, oy: real, squash: real)            // translate, then scale(1, squash)
    | Dot(x: real, y: real, radius: real, alpha: real)   // filled white circle
    | Orbit(rx: real, ry: real, rotation: real)          // faint ellipse stroke
    | Logo(x: real, y: real, w: real, h: real)           // drawImage of the emblem
    | Vignette(cx: real, cy: real, outer: real, w: real, h: real)  // radial gradient fillRect

  /** Position of each kind of command in the fixed layer order. */
  function Rank(c: Cmd): nat {
    match c
    case Clear(_, _) => 0
    case Backdrop(_, _) => 1
    case Place(_, _, _) => 2
    case Dot(_, _, _, _) => 3
    case Orbit(_, _, _) => 4
    case Logo(_, _, _, _) => 5
    case Vignette(_, _, _, _, _) => 6
  }

  /** Commands in layer order: no kind is drawn after a later kind. */
  predicate Layered(cmds: seq<Cmd>) {
    forall i, j :: 0 <= i < j < |cmds| ==> Rank(cmds[i]) <= Rank(cmds[j])
  }

  /** Fill opacity of a particle: `Math.min(0.9, 0.2 + 0.8 * s)`. */
  function Alpha(s: real): (a: real)
    ensures a <= 0.9
    ensures a == 0.9 <==> s >= 0.875
    ensures s < 0.875 ==> a == 0.2 + 0.8 * s
    ensures 0.0 < s < 1.0 ==> 0.2 < a <= 0.9
  {
    Min(0.9, 0.2 + 0.8 * s)
  }

  /** Radius of a particle: `Math.max(0.6, 2.6 * s)`. */
  function DotRadius(s: real): (r: real)
    ensures r >= 0.6
    ensures r == 0.6 <==> s * 2.6 <= 0.6
    ensures s * 2.6 > 0.6 ==> r == 2.6 * s
  {
    Max(0.6, 2.6 * s)
  }

  /** Nearer (larger-scale) particles are never dimmer or smaller. */
  lemma StyleMonotone(s1: real, s2: real)
    requires s1 <= s2
    ensures Alpha(s1) <= Alpha(s2) && DotRadius(s1) <= DotRadius(s2)
  {
  }

  /** Dots drawn as a depth cue: every one within the style bounds of a
      scale in (0, 1), and each at least as large and as opaque as every dot
      drawn before it. */
  predicate DepthCued(ds: seq<Cmd>) {
    && (forall k :: 0 <= k < |ds| ==> ds[k].Dot? && ds[k].radius >= 0.6 && 0.2 < ds[k].alpha <= 0.9)
    && (forall i, j :: 0 <= i < j < |ds| ==> ds[i].radius <= ds[j].radius && ds[i].alpha <= ds[j].alpha)
  }

  /** Spread of the unit sphere on screen, as a fraction of the shorter side. */
  const Spread: real := 0.42

  /** The circle drawn for one projected point: centred on the projected
      offset stretched to `Spread` (0.42) of the shorter side, and styled by the scale. */
  function Paint(q: Projected, minDim: real): (c: Cmd)
    ensures c.Dot?
    ensures c.x == q.x * minDim * Spread && c.y == q.y * minDim * Spread
    ensures c.radius == DotRadius(q.s) && c.alpha == Alpha(q.s)
  {
    Dot(q.x * minDim * Spread, q.y * minDim * Spread, DotRadius(q.s), Alpha(q.s))
  }

  /** The dots for a sequence of projected points, in the same order. */
  function PaintAll(qs: seq<Projected>, minDim: real): (ds: seq<Cmd>)
    ensures |ds| == |qs|
    decreases |qs|
  {
    if |qs| == 0 then [] else [Paint(qs[0], minDim)] + PaintAll(qs[1..], minDim)
  }

  /** Dot k is painted from projected point k. */
  lemma {:induction false} PaintAllPointwise(qs: seq<Projected>, minDim: real)
    ensures forall k :: 0 <= k < |qs| ==> PaintAll(qs, minDim)[k] == Paint(qs[k], minDim)
    decreases |qs|
  {
    if |qs| > 0 {
      PaintAllPointwise(qs[1..], minDim);
    }
  }

  /** Painting distributes over concatenation. */
  lemma {:induction false} PaintAllConcat(a: seq<Projected>, b: seq<Projected>, minDim: real)
    ensures PaintAll(a + b, minDim) == PaintAll(a, minDim) + PaintAll(b, minDim)
    decreases |a|
  {
    if |a| > 0 {
      assert (a + b)[1..] == a[1..] + b;
      PaintAllConcat(a[1..], b, minDim);
    } else {
      assert a + b == b;
    }
  }

  /** Painting with element i taken out paints every dot but the one of
      element i. */
  lemma PaintAllRemove(ys: seq<Projected>, i: nat, minDim: real)
    requires i < |ys|
    ensures multiset(PaintAll(ys, minDim))
            == multiset(PaintAll(ys[..i] + ys[i + 1..], minDim)) + multiset{Paint(ys[i], minDim)}
  {
    assert ys == ys[..i] + [ys[i]] + ys[i + 1..];
    PaintAllConcat(ys[..i] + [ys[i]], ys[i + 1..], minDim);
    PaintAllConcat(ys[..i], [ys[i]], minDim);
    PaintAllConcat(ys[..i], ys[i + 1..], minDim);
    assert PaintAll([ys[i]], minDim) == [Paint(ys[i], minDim)];
  }

  /** A position at which x occurs in ys. */
  function IndexOf(ys: seq<Projected>, x: Projected): (i: nat)
    requires x in multiset(ys)
    ensures i < |ys| && ys[i] == x
    decreases |ys|
  {
    if ys[0] == x then 0
    else
      assert ys == [ys[0]] + ys[1..];
      1 + IndexOf(ys[1..], x)
  }

  /** Taking out element i leaves the multiset less that element. */
  lemma MultisetRemove(ys: seq<Projected>, i: nat)
    requires i < |ys|
    ensures multiset(ys[..i] + ys[i + 1..]) == multiset(ys) - multiset{ys[i]}
  {
    assert ys == ys[..i] + [ys[i]] + ys[i + 1..];
  }

  /** Painting a rearrangement of the points paints a rearrangement of the
      dots: the same dots, each as often. */
  lemma {:induction false} PaintAllPermutes(xs: seq<Projected>, ys: seq<Projected>, minDim: real)
    requires multiset(xs) == multiset(ys)
    ensures multiset(PaintAll(xs, minDim)) == multiset(PaintAll(ys, minDim))
    decreases |xs|
  {
    if |xs| > 0 {
      var x := xs[0];
      var i := IndexOf(ys, x);
      var rest := ys[..i] + ys[i + 1..];
      assert multiset(xs[1..]) == multiset(rest) by {
        MultisetRemove(ys, i);
        MultisetRemove(xs, 0);
        assert xs[..0] + xs[1..] == xs[1..];
      }
      PaintAllPermutes(xs[1..], rest, minDim);
      PaintAllRemove(ys, i, minDim);
      assert PaintAll(xs, minDim) == [Paint(x, minDim)] + PaintAll(xs[1..], minDim);
    } else {
      assert |ys| == 0;
    }
  }

  /** Points whose scales lie in (0, 1) and never fall along the sequence
      paint as a depth cue. */
  lemma PaintedDepthCue(qs: seq<Projected>, minDim: real)
    requires forall k :: 0 <= k < |qs| ==> 0.0 < qs[k].s < 1.0
    requires forall i, j :: 0 <= i < j < |qs| ==> qs[i].s <= qs[j].s
    ensures DepthCued(PaintAll(qs, minDim))
  {
    PaintAllPointwise(qs, minDim);
  }

  /** Points in view, sorted far first and painted, form a depth cue made
      of the same dots as the unsorted points. */
  lemma SortedDots(qs: seq<Projected>, fov: real, minDim: real)
    requires fov > 0.0
    requires AllInView(qs, fov)
    ensures DepthCued(PaintAll(SortFarFirst(qs), minDim))
    ensures multiset(PaintAll(SortFarFirst(qs), minDim)) == multiset(PaintAll(qs, minDim))
  {
    var sorted := SortFarFirst(qs);
    PermutationKeepsPerspective(qs, sorted, fov);
    ScalesRiseTowardViewer(sorted, fov);
    PaintedDepthCue(sorted, minDim);
    PaintAllPermutes(sorted, qs, minDim);
  }
}
