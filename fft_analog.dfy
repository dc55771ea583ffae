/**
 * The analog spectrum painter: one open polyline through `num` vertices
 * `gapWidth` apart, alternately above (even vertices) and below (odd
 * vertices) the axis by the spline's value, so the trace zig-zags like an
 * oscilloscope.
 */
module FftAnalog {
  import opened Wrappers
  import opened Visualizer

  /** Vertex `i` at `(gapWidth * i, ∓psf(i))`: the first is a `moveTo`, the rest `lineTo`s. */
  function Vertex(gw: real, psf: real -> real, i: nat): PathCmd {
    var x := gw * (i as real);
    var y := if i % 2 == 0 then -psf(RealOf(i)) else psf(RealOf(i));
    if i == 0 then MoveTo(x, y) else LineTo(x, y)
  }

  /** The first `n` vertices of the trace. */
  function Trace(gw: real, psf: real -> real, n: nat): (cmds: seq<PathCmd>)
    ensures |cmds| == n
  {
    if n == 0 then [] else Trace(gw, psf, n - 1) + [Vertex(gw, psf, n - 1)]
  }

  /** Command `i` of the trace is vertex `i`. */
  lemma {:induction false} TraceAt(gw: real, psf: real -> real, n: nat, i: nat)
    requires i < n
    ensures Trace(gw, psf, n)[i] == Vertex(gw, psf, i)
  {
    assert Trace(gw, psf, n) == Trace(gw, psf, n - 1) + [Vertex(gw, psf, n - 1)];
    if i < n - 1 {
      TraceAt(gw, psf, n - 1, i);
    }
  }

  /**
   * The trace starts with a `moveTo` at the left edge and continues with
   * `lineTo`s one slot apart; even vertices sit at minus the spline, odd
   * ones at the spline.  With `gapWidth = width / num` the last vertex is
   * one slot short of the right edge, and on a canvas of positive width
   * the vertices run strictly left to right.
   */
  lemma Zigzag(width: int, gw: real, psf: real -> real, num: nat)
    requires num > 0 && gw * (num as real) == width as real
    ensures var cmds := Trace(gw, psf, num);
      cmds[0] == MoveTo(0.0, -psf(RealOf(0))) &&
      (forall i :: 1 <= i < num ==> cmds[i].LineTo?) &&
      (forall i :: 0 <= i < num ==> cmds[i].x == gw * (i as real)) &&
      (forall i :: 0 <= i < num ==> cmds[i].y == if i % 2 == 0 then -psf(RealOf(i)) else psf(RealOf(i))) &&
      cmds[num - 1].x + gw == width as real &&
      (width > 0 ==> forall i :: 1 <= i < num ==> cmds[i - 1].x < cmds[i].x)
  {
    var cmds := Trace(gw, psf, num);
    forall i | 0 <= i < num
      ensures cmds[i] == Vertex(gw, psf, i)
    {
      TraceAt(gw, psf, num, i);
    }
    assert gw * ((num - 1) as real) + gw == gw * (num as real);
    if width > 0 {
      assert gw > 0.0;
      forall i | 1 <= i < num
        ensures cmds[i - 1].x < cmds[i].x
      {
        assert gw * (i as real) == gw * ((i - 1) as real) + gw;
      }
    }
  }

  /** The spline is read only at the integer knots `0..n-1`. */
  lemma {:induction false} TraceReadsKnotsOnly(gw: real, f: real -> real, g: real -> real, n: nat)
    requires forall j: nat :: j < n ==> f(RealOf(j)) == g(RealOf(j))
    ensures Trace(gw, f, n) == Trace(gw, g, n)
  {
    if n > 0 {
      TraceReadsKnotsOnly(gw, f, g, n - 1);
      assert Vertex(gw, f, n - 1) == Vertex(gw, g, n - 1);
      assert Trace(gw, f, n) == Trace(gw, f, n - 1) + [Vertex(gw, f, n - 1)];
      assert Trace(gw, g, n) == Trace(gw, g, n - 1) + [Vertex(gw, g, n - 1)];
    }
  }

  class FftAnalog {
    const num: nat
    const interpolator: string
    const mirror: bool
    const power: bool
    const ampR: real
    const c: Collaborators
    /** The magnitude buffer, 256 values. */
    const fft: array<real>
    var points: array<Gravity>
    var skipFrame: bool
    /** `lateinit psf`: `None` until a loud frame has been computed. */
    var psf: Option<real -> real>
    var path: seq<PathCmd>
    var fillType: FillType

    constructor(num: nat, interpolator: string, mirror: bool, power: bool, ampR: real, c: Collaborators)
      ensures this.num == num && this.interpolator == interpolator
      ensures this.mirror == mirror && this.power == power && this.ampR == ampR && this.c == c
      ensures fresh(fft) && fft.Length == 256 && fresh(points) && points.Length == 0
      ensures !skipFrame && psf.None? && path == [] && fillType == Winding
    {
      this.num := num;
      this.interpolator := interpolator;
      this.mirror := mirror;
      this.power := power;
      this.ampR := ampR;
      this.c := c;
      fft := new real[256](_ => 0.0);
      points := new Gravity[0];
      skipFrame := false;
      psf := None;
      path := [];
      fillType := Winding;
    }

    /** `calc`: quiet frames are skipped; loud ones update the bars and interpolate them along the line. */
    method Calc(magnitudes: seq<real>)
      requires Sound(c) && |magnitudes| <= fft.Length
      modifies this, fft, points
      ensures skipFrame <==> Quiet(magnitudes)
      ensures skipFrame ==> points == old(points) && points[..] == old(points[..]) && psf == old(psf) &&
                            fft[..] == Filled(old(fft[..]), magnitudes)
      ensures !skipFrame ==>
                var s := Shape(c, power, mirror, false, Filled(old(fft[..]), magnitudes), |magnitudes|);
                fft[..] == s.buffer && points.Length == s.size &&
                (old(points.Length) == s.size ==> points == old(points)) &&
                (old(points.Length) != s.size ==> fresh(points)) &&
                points[..] == Updated(Prior(old(points[..]), s.size, c), s.processing, ampR, c) &&
                psf == Some(c.interpolate(points[..], num, interpolator))
      ensures path == old(path) && fillType == old(fillType)
    {
      var skip, bars := CalcFrame(fft, points, magnitudes, c, true, power, mirror, false, ampR);
      skipFrame := skip;
      points := bars;
      if !skip {
        psf := Some(c.interpolate(points[..], num, interpolator));
      }
    }

    /** The drawing loop: vertices `0 .. num-1` appended in order. */
    method AppendTrace(gw: real, f: real -> real)
      modifies this
      ensures path == old(path) + Trace(gw, f, num)
      ensures points == old(points) && skipFrame == old(skipFrame) && psf == old(psf) && fillType == old(fillType)
    {
      var i := 0;
      while i < num
        invariant 0 <= i <= num
        invariant path == old(path) + Trace(gw, f, i)
        invariant points == old(points) && skipFrame == old(skipFrame) && psf == old(psf) && fillType == old(fillType)
      {
        ghost var before := path;
        if i % 2 == 0 {
          if i == 0 {
            path := path + [MoveTo(gw * (i as real), -f(RealOf(i)))];
          } else {
            path := path + [LineTo(gw * (i as real), -f(RealOf(i)))];
          }
        } else {
          path := path + [LineTo(gw * (i as real), f(RealOf(i)))];
        }
        assert path == before + [Vertex(gw, f, i)];
        AppendAssoc(old(path), Trace(gw, f, i), [Vertex(gw, f, i)]);
        i := i + 1;
      }
    }

    /**
     * `draw`: nothing on a skipped frame; otherwise the trace is appended to
     * the path, drawn anchored at the left edge halfway down, and the path
     * is reset.
     */
    method Draw(canvas: Canvas)
      requires skipFrame || psf.Some?
      modifies this, canvas
      ensures points == old(points) && skipFrame == old(skipFrame) && psf == old(psf) && fillType == old(fillType)
      ensures skipFrame ==> canvas.drawn == old(canvas.drawn) && path == old(path)
      ensures !skipFrame ==>
                canvas.drawn == old(canvas.drawn) +
                  [PathDrawing(0.0, 0.5, old(path) + Trace(Step(canvas.width as real, num), psf.value, num), fillType)] &&
                path == []
    {
      if skipFrame {
        return;
      }
      var gw := Step(canvas.width as real, num);
      AppendTrace(gw, psf.value);
      canvas.drawn := canvas.drawn + [PathDrawing(0.0, 0.5, path, fillType)];
      path := [];
    }
  }
}
