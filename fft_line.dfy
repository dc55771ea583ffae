/**
 * The linear line painter: `num` vertical segments at the centres of `num`
 * equal slots across the canvas, drawn with one `drawLines` call from a
 * buffer of `4 * num` floats.
 */
module FftLine {
  import opened Wrappers
  import opened Visualizer

  /** The centre of slot `i`: `gapWidth * (i + .5)`. */
  function Centre(gw: real, i: nat): real {
    gw * ((i as real) + 0.5)
  }

  /**
   * With `gapWidth = width / num` over a canvas of positive width, the
   * segments lie strictly inside the canvas, half a slot from either edge,
   * one slot apart and in increasing order.
   */
  lemma {:induction false} SegmentsInsideTheWidth(width: int, num: nat, gw: real, i: nat)
    requires width > 0 && i < num && gw * (num as real) == width as real
    ensures 0.0 < Centre(gw, i) < width as real
    ensures Centre(gw, 0) == gw / 2.0 && Centre(gw, num - 1) + gw / 2.0 == width as real
    ensures i + 1 < num ==> Centre(gw, i + 1) - Centre(gw, i) == gw > 0.0
  {
    var r := i as real;
    assert gw > 0.0;
    assert gw * (r + 1.5) == gw * (r + 0.5) + gw;
    assert Centre(gw, i) > 0.0;
    var d := (num as real) - 1.0 - r;
    assert gw * d >= 0.0;
    assert gw * ((num as real) - 0.5) == gw * (r + 0.5) + gw * d;
    assert gw * ((num as real) - 0.5) == gw * (num as real) - gw / 2.0;
  }

  /** Segment `i`: from `(x, -psf(i))` to the axis (first drawHelper branch) or to `(x, psf(i))` (second). */
  function Segment(gw: real, psf: real -> real, i: nat, branch: nat): (xy: seq<real>)
    ensures |xy| == 4
  {
    var x := Centre(gw, i);
    var here := psf(RealOf(i));
    [x, -here, x, if branch == 0 then 0.0 else here]
  }

  /** Every segment is vertical and starts at minus the spline at knot `i`; the second branch mirrors it about the axis. */
  lemma SegmentShape(gw: real, psf: real -> real, i: nat, branch: nat)
    ensures var xy := Segment(gw, psf, i, branch);
      xy[0] == xy[2] == Centre(gw, i) && xy[1] == -psf(RealOf(i)) &&
      (branch == 0 ==> xy[3] == 0.0) && (branch != 0 ==> xy[3] == -xy[1])
  {
  }

  /** The buffer after the first `n` segments. */
  function Segments(gw: real, psf: real -> real, n: nat, branch: nat): (pts: seq<real>)
    ensures |pts| == 4 * n
  {
    if n == 0 then [] else Segments(gw, psf, n - 1, branch) + Segment(gw, psf, n - 1, branch)
  }

  /** Slots `4i .. 4i+3` hold segment `i`. */
  lemma {:induction false} SegmentsAt(gw: real, psf: real -> real, n: nat, branch: nat, i: nat)
    requires i < n
    ensures Segments(gw, psf, n, branch)[4 * i..4 * i + 4] == Segment(gw, psf, i, branch)
  {
    var prefix := Segments(gw, psf, n - 1, branch);
    var last := Segment(gw, psf, n - 1, branch);
    assert Segments(gw, psf, n, branch) == prefix + last;
    if i < n - 1 {
      SegmentsAt(gw, psf, n - 1, branch, i);
      SliceOfFront(prefix, last, 4 * i, 4 * i + 4);
    } else {
      SliceOfBack(prefix, last);
    }
  }

  /** The spline is read only at the integer knots `0..n-1`. */
  lemma {:induction false} SegmentsReadKnotsOnly(gw: real, f: real -> real, g: real -> real, n: nat, branch: nat)
    requires forall j: nat :: j < n ==> f(RealOf(j)) == g(RealOf(j))
    ensures Segments(gw, f, n, branch) == Segments(gw, g, n, branch)
  {
    if n > 0 {
      SegmentsReadKnotsOnly(gw, f, g, n - 1, branch);
      assert Segment(gw, f, n - 1, branch) == Segment(gw, g, n - 1, branch);
      assert Segments(gw, f, n, branch) == Segments(gw, f, n - 1, branch) + Segment(gw, f, n - 1, branch);
      assert Segments(gw, g, n, branch) == Segments(gw, g, n - 1, branch) + Segment(gw, g, n - 1, branch);
    }
  }

  /** The drawing loop of either branch over a fresh zeroed buffer of `4 * num` floats. */
  method WriteSegments(pts: array<real>, gw: real, f: real -> real, num: nat, branch: nat)
    requires pts.Length == 4 * num
    requires forall j :: 0 <= j < pts.Length ==> pts[j] == 0.0
    modifies pts
    ensures pts[..] == Segments(gw, f, num, branch)
  {
    ghost var target := Segments(gw, f, num, branch);
    var i, k := 0, 0;
    while i < num
      invariant 0 <= i <= num && k == 4 * i
      invariant forall j :: 0 <= j < k ==> pts[j] == target[j]
      invariant forall j :: k <= j < pts.Length ==> pts[j] == 0.0
    {
      var x := gw * ((i as real) + 0.5);
      var here := f(RealOf(i));
      var xy := if branch == 0 then [x, -here, x, 0.0] else [x, -here, x, here];
      SegmentsAt(gw, f, num, branch, i);
      assert target[k..k + 4] == xy;
      WriteQuad(pts, k, xy);
      i, k := i + 1, k + 4;
    }
    assert pts[..] == target;
  }

  class FftLine {
    const num: nat
    const interpolator: string
    const side: string
    const mirror: bool
    const power: bool
    const ampR: real
    const c: Collaborators
    /** The magnitude buffer, 256 values. */
    const fft: array<real>
    var points: array<Gravity>
    var skipFrame: bool
    /** `lateinit psf`: `None` until a loud frame has been computed. */
    var psf: Option<real -> real>

    constructor(num: nat, interpolator: string, side: string, mirror: bool, power: bool, ampR: real, c: Collaborators)
      ensures this.num == num && this.interpolator == interpolator && this.side == side
      ensures this.mirror == mirror && this.power == power && this.ampR == ampR && this.c == c
      ensures fresh(fft) && fft.Length == 256 && fresh(points) && points.Length == 0
      ensures !skipFrame && psf.None?
    {
      this.num := num;
      this.interpolator := interpolator;
      this.side := side;
      this.mirror := mirror;
      this.power := power;
      this.ampR := ampR;
      this.c := c;
      fft := new real[256](_ => 0.0);
      points := new Gravity[0];
      skipFrame := false;
      psf := None;
    }

    /** `calc`: quiet frames are skipped; loud ones update the bars and interpolate them along the line. */
    method Calc(magnitudes: seq<real>)
      requires Sound(c) && |magnitudes| <= fft.Length
      modifies this, fft, points
      ensures skipFrame <==> Quiet(magnitudes)
      ensures skipFrame ==> points == old(points) && points[..] == old(points[..]) && psf == old(psf) &&
                            fft[..] == Filled(old(fft[..]), magnitudes)
      ensures !skipFrame ==>
                var s := Shape(c, power, mirror, false, Filled(old(fft[..]), magnitudes), |magnitudes|);
                fft[..] == s.buffer && points.Length == s.size &&
                (old(points.Length) == s.size ==> points == old(points)) &&
                (old(points.Length) != s.size ==> fresh(points)) &&
                points[..] == Updated(Prior(old(points[..]), s.size, c), s.processing, ampR, c) &&
                psf == Some(c.interpolate(points[..], num, interpolator))
    {
      var skip, bars := CalcFrame(fft, points, magnitudes, c, true, power, mirror, false, ampR);
      skipFrame := skip;
      points := bars;
      if !skip {
        psf := Some(c.interpolate(points[..], num, interpolator));
      }
    }

    /** `draw`: nothing on a skipped frame; otherwise one `drawLines` of the `num` segments, anchored at the left edge halfway down. */
    method Draw(canvas: Canvas)
      requires skipFrame || psf.Some?
      modifies canvas
      ensures skipFrame ==> canvas.drawn == old(canvas.drawn)
      ensures !skipFrame ==>
                canvas.drawn == old(canvas.drawn) +
                  [LinesDrawing(0.0, 0.5, Segments(Step(canvas.width as real, num), psf.value, num, c.branch(side, 2)))]
    {
      if skipFrame {
        return;
      }
      var gw := Step(canvas.width as real, num);
      var pts := new real[4 * num](_ => 0.0);
      WriteSegments(pts, gw, psf.value, num, c.branch(side, 2));
      canvas.drawn := canvas.drawn + [LinesDrawing(0.0, 0.5, pts[..])];
    }
  }
}
