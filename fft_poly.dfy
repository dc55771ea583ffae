/**
 * The linear bar painter: `num` trapezoids side by side across the canvas,
 * `gapX` apart, each spanning `barWidth` and its top edge following the
 * spline from knot `i` to knot `i + 1`.
 */
module FftPoly {
  import opened Wrappers
  import opened Visualizer

  /**
   * `barWidth = (width - (num + 1) * gapX) / num`: the `num` bars and the
   * `num + 1` gaps around them fill the width.
   */
  function BarWidth(width: int, gapX: real, num: nat): (bw: real)
    ensures num > 0 ==> bw * (num as real) + ((num + 1) as real) * gapX == width as real
  {
    Step(width as real - ((num + 1) as real) * gapX, num)
  }

  /** The left edge of bar `i`: `barWidth * i + gapX * (i + 1)`. */
  function Left(bw: real, gapX: real, i: nat): real {
    bw * (i as real) + gapX * ((i + 1) as real)
  }

  /** The right edge of bar `i`: `barWidth * (i + 1) + gapX * (i + 1)`. */
  function Right(bw: real, gapX: real, i: nat): real {
    bw * ((i + 1) as real) + gapX * ((i + 1) as real)
  }

  /**
   * With the bar width the layout computes, every bar is `barWidth` wide,
   * the first starts one gap in, neighbours are one gap apart, and the
   * last ends one gap before the right edge of the canvas.
   */
  lemma {:induction false} BarsSpanTheWidth(width: int, gapX: real, num: nat, bw: real, i: nat)
    requires i < num && bw * (num as real) + ((num + 1) as real) * gapX == width as real
    ensures Right(bw, gapX, i) - Left(bw, gapX, i) == bw
    ensures Left(bw, gapX, 0) == gapX
    ensures i + 1 < num ==> Left(bw, gapX, i + 1) - Right(bw, gapX, i) == gapX
    ensures Right(bw, gapX, num - 1) + gapX == width as real
  {
    var r := i as real;
    assert bw * (r + 1.0) == bw * r + bw;
    assert gapX * (r + 2.0) == gapX * (r + 1.0) + gapX;
    var n := (num - 1) as real;
    assert bw * (n + 1.0) + gapX * (n + 1.0) + gapX == bw * (num as real) + ((num + 1) as real) * gapX;
  }

  /**
   * Bar `i`: its top edge from `(left, -psf(i))` to `(right, -psf(i + 1))`,
   * then down to the axis (first drawHelper branch) or to the mirror image
   * of the top edge (second branch), and closed.
   */
  function Box(bw: real, gapX: real, psf: real -> real, i: nat, branch: nat): (cmds: seq<PathCmd>)
    ensures |cmds| == 5 && cmds[0].MoveTo? && cmds[1].LineTo? && cmds[2].LineTo? && cmds[3].LineTo? && cmds[4].Close?
  {
    var here := psf(RealOf(i));
    var next := psf(RealOf(i + 1));
    var l := Left(bw, gapX, i);
    var r := Right(bw, gapX, i);
    var bottom := if branch == 0 then (0.0, 0.0) else (next, here);
    [MoveTo(l, -here), LineTo(r, -next), LineTo(r, bottom.0), LineTo(l, bottom.1), Close]
  }

  /**
   * Each bar is an upright trapezoid over `[Left(i), Right(i)]` whose top
   * corners sit at minus the spline at knots `i` and `i + 1`; in the first
   * branch its base lies on the axis, in the second it is symmetric about it.
   */
  lemma BoxShape(bw: real, gapX: real, psf: real -> real, i: nat, branch: nat)
    ensures var cmds := Box(bw, gapX, psf, i, branch);
      cmds[0].x == cmds[3].x == Left(bw, gapX, i) && cmds[1].x == cmds[2].x == Right(bw, gapX, i) &&
      cmds[0].y == -psf(RealOf(i)) && cmds[1].y == -psf(RealOf(i + 1)) &&
      (branch == 0 ==> cmds[2].y == 0.0 && cmds[3].y == 0.0) &&
      (branch != 0 ==> cmds[2].y == -cmds[1].y && cmds[3].y == -cmds[0].y)
  {
  }

  /** The first `n` bars, one after the other. */
  function Boxes(bw: real, gapX: real, psf: real -> real, n: nat, branch: nat): (cmds: seq<PathCmd>)
    ensures |cmds| == 5 * n
  {
    if n == 0 then [] else Boxes(bw, gapX, psf, n - 1, branch) + Box(bw, gapX, psf, n - 1, branch)
  }

  lemma BoxesStep(bw: real, gapX: real, psf: real -> real, i: nat, branch: nat, front: seq<PathCmd>)
    ensures front + Boxes(bw, gapX, psf, i, branch) + Box(bw, gapX, psf, i, branch) == front + Boxes(bw, gapX, psf, i + 1, branch)
  {
    assert Boxes(bw, gapX, psf, i + 1, branch) == Boxes(bw, gapX, psf, i, branch) + Box(bw, gapX, psf, i, branch);
  }

  /** The commands `5i .. 5i+4` of the path are bar `i`. */
  lemma {:induction false} BoxesAt(bw: real, gapX: real, psf: real -> real, n: nat, branch: nat, i: nat)
    requires i < n
    ensures Boxes(bw, gapX, psf, n, branch)[5 * i..5 * i + 5] == Box(bw, gapX, psf, i, branch)
  {
    var prefix := Boxes(bw, gapX, psf, n - 1, branch);
    var last := Box(bw, gapX, psf, n - 1, branch);
    assert Boxes(bw, gapX, psf, n, branch) == prefix + last;
    if i < n - 1 {
      BoxesAt(bw, gapX, psf, n - 1, branch, i);
      SliceOfFront(prefix, last, 5 * i, 5 * i + 5);
    } else {
      SliceOfBack(prefix, last);
    }
  }

  lemma BoxReadsTwoKnots(bw: real, gapX: real, f: real -> real, g: real -> real, i: nat, branch: nat)
    requires f(RealOf(i)) == g(RealOf(i)) && f(RealOf(i + 1)) == g(RealOf(i + 1))
    ensures Box(bw, gapX, f, i, branch) == Box(bw, gapX, g, i, branch)
  {
  }

  /** The spline is read only at the integer knots `0..n`. */
  lemma {:induction false} BoxesReadKnotsOnly(bw: real, gapX: real, f: real -> real, g: real -> real, n: nat, branch: nat)
    requires forall k: nat :: k <= n ==> f(RealOf(k)) == g(RealOf(k))
    ensures Boxes(bw, gapX, f, n, branch) == Boxes(bw, gapX, g, n, branch)
  {
    if n > 0 {
      BoxesReadKnotsOnly(bw, gapX, f, g, n - 1, branch);
      BoxReadsTwoKnots(bw, gapX, f, g, n - 1, branch);
      assert Boxes(bw, gapX, f, n, branch) == Boxes(bw, gapX, f, n - 1, branch) + Box(bw, gapX, f, n - 1, branch);
      assert Boxes(bw, gapX, g, n, branch) == Boxes(bw, gapX, g, n - 1, branch) + Box(bw, gapX, g, n - 1, branch);
    }
  }

  class FftPoly {
    const num: nat
    const interpolator: string
    const side: string
    const mirror: bool
    const power: bool
    const gapX: real
    const ampR: real
    const c: Collaborators
    /** The magnitude buffer, 256 values. */
    const fft: array<real>
    var points: array<Gravity>
    var skipFrame: bool
    /** `lateinit psf`: `None` until a loud frame has been computed. */
    var psf: Option<real -> real>
    var path: seq<PathCmd>
    var fillType: FillType

    constructor(num: nat, interpolator: string, side: string, mirror: bool, power: bool,
                gapX: real, ampR: real, c: Collaborators)
      ensures this.num == num && this.interpolator == interpolator && this.side == side
      ensures this.mirror == mirror && this.power == power
      ensures this.gapX == gapX && this.ampR == ampR && this.c == c
      ensures fresh(fft) && fft.Length == 256 && fresh(points) && points.Length == 0
      ensures !skipFrame && psf.None? && path == [] && fillType == Winding
    {
      this.num := num;
      this.interpolator := interpolator;
      this.side := side;
      this.mirror := mirror;
      this.power := power;
      this.gapX := gapX;
      this.ampR := ampR;
      this.c := c;
      fft := new real[256](_ => 0.0);
      points := new Gravity[0];
      skipFrame := false;
      psf := None;
      path := [];
      fillType := Winding;
    }

    /**
     * `calc`: a quiet frame sets `skipFrame` and leaves the bars and the
     * spline alone; a loud one shapes the buffer (no circular padding),
     * updates the bars and interpolates them along the line.
     */
    method Calc(magnitudes: seq<real>)
      requires Sound(c) && |magnitudes| <= fft.Length
      modifies this, fft, points
      ensures skipFrame <==> Quiet(magnitudes)
      ensures skipFrame ==> points == old(points) && points[..] == old(points[..]) && psf == old(psf) &&
                            fft[..] == Filled(old(fft[..]), magnitudes)
      ensures !skipFrame ==>
                var s := Shape(c, power, mirror, false, Filled(old(fft[..]), magnitudes), |magnitudes|);
                fft[..] == s.buffer && points.Length == s.size &&
                (old(points.Length) == s.size ==> points == old(points)) &&
                (old(points.Length) != s.size ==> fresh(points)) &&
                points[..] == Updated(Prior(old(points[..]), s.size, c), s.processing, ampR, c) &&
                psf == Some(c.interpolate(points[..], num, interpolator))
      ensures path == old(path) && fillType == old(fillType)
    {
      var skip, bars := CalcFrame(fft, points, magnitudes, c, true, power, mirror, false, ampR);
      skipFrame := skip;
      points := bars;
      if !skip {
        psf := Some(c.interpolate(points[..], num, interpolator));
      }
    }

    /** One pass of the drawing loop: the four corners of bar `i`, then `close`. */
    method AppendBox(bw: real, f: real -> real, i: nat, branch: nat)
      modifies this
      ensures path == old(path) + Box(bw, gapX, f, i, branch)
      ensures points == old(points) && skipFrame == old(skipFrame) && psf == old(psf) && fillType == old(fillType)
    {
      var left := Left(bw, gapX, i);
      var right := Right(bw, gapX, i);
      path := path + [MoveTo(left, -f(RealOf(i)))];
      path := path + [LineTo(right, -f(RealOf(i + 1)))];
      if branch == 0 {
        path := path + [LineTo(right, 0.0)];
        path := path + [LineTo(left, 0.0)];
      } else {
        path := path + [LineTo(right, f(RealOf(i + 1)))];
        path := path + [LineTo(left, f(RealOf(i)))];
      }
      path := path + [Close];
    }

    /** The drawing loop of either branch: bars `0 .. num-1` appended in order. */
    method AppendBoxes(bw: real, f: real -> real, branch: nat)
      modifies this
      ensures path == old(path) + Boxes(bw, gapX, f, num, branch)
      ensures points == old(points) && skipFrame == old(skipFrame) && psf == old(psf) && fillType == old(fillType)
    {
      var i := 0;
      while i < num
        invariant 0 <= i <= num
        invariant path == old(path) + Boxes(bw, gapX, f, i, branch)
        invariant points == old(points) && skipFrame == old(skipFrame) && psf == old(psf) && fillType == old(fillType)
      {
        AppendBox(bw, f, i, branch);
        BoxesStep(bw, gapX, f, i, branch, old(path));
        i := i + 1;
      }
    }

    /**
     * `draw`: nothing on a skipped frame; otherwise the branch `side`
     * selects appends the `num` bars to the path, draws it anchored at the
     * left edge halfway down, and resets it.
     */
    method Draw(canvas: Canvas)
      requires skipFrame || psf.Some?
      modifies this, canvas
      ensures points == old(points) && skipFrame == old(skipFrame) && psf == old(psf) && fillType == old(fillType)
      ensures skipFrame ==> canvas.drawn == old(canvas.drawn) && path == old(path)
      ensures !skipFrame ==>
                var bw := BarWidth(canvas.width, gapX, num);
                canvas.drawn == old(canvas.drawn) + [PathDrawing(0.0, 0.5, old(path) + Boxes(bw, gapX, psf.value, num, c.branch(side, 2)), fillType)] &&
                path == []
    {
      if skipFrame {
        return;
      }
      var bw := BarWidth(canvas.width, gapX, num);
      AppendBoxes(bw, psf.value, c.branch(side, 2));
      canvas.drawn := canvas.drawn + [PathDrawing(0.0, 0.5, path, fillType)];
      path := [];
    }
  }
}
