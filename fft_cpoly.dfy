/**
 * The circular bar painter: `num` trapezoids around a circle, each spanning
 * `angle` radians and separated from the next by `gapTheta`, their outer
 * (or inner) edge following the spline.
 */
module FftCPoly {
  import opened Wrappers
  import opened Visualizer

  /** The angular layout of one frame. */
  datatype Layout = Layout(base: real, gapTheta: real, angle: real)

  /**
   * `gapTheta = gapX / base` and `angle = 2π / num - gapTheta`: a bar and
   * its gap together take one `num`-th of the turn.
   */
  function LayoutOf(shortest: int, radiusR: real, gapX: real, num: nat): (l: Layout)
    ensures l.base == BaseRadius(shortest, radiusR)
  {
    var base := BaseRadius(shortest, radiusR);
    var gapTheta := Ratio(gapX, base);
    Layout(base, gapTheta, Step(2.0 * PiF, num) - gapTheta)
  }

  /** The gap is `gapX` long on the base circle, and the `num` bars with their gaps make a full turn. */
  lemma LayoutCoversTurn(shortest: int, radiusR: real, gapX: real, num: nat)
    ensures var l := LayoutOf(shortest, radiusR, gapX, num);
      (l.base != 0.0 ==> l.gapTheta * l.base == gapX) &&
      (num > 0 ==> (l.angle + l.gapTheta) * (num as real) == 2.0 * PiF)
  {
  }

  /** Where bar `i` starts: `(angle + gapTheta) * i`. */
  function StartAngle(l: Layout, i: nat): real {
    (l.angle + l.gapTheta) * (i as real)
  }

  /** Where bar `i` ends: `angle * (i + 1) + gapTheta * i`. */
  function StopAngle(l: Layout, i: nat): (t: real)
    ensures t == StartAngle(l, i) + l.angle
  {
    l.angle * ((i + 1) as real) + l.gapTheta * (i as real)
  }

  /** Successive bars are one gap apart, and the last one closes the turn. */
  lemma {:induction false} BarsTileTheTurn(shortest: int, radiusR: real, gapX: real, num: nat, i: nat)
    requires i + 1 < num
    ensures var l := LayoutOf(shortest, radiusR, gapX, num);
      StartAngle(l, i + 1) == StopAngle(l, i) + l.gapTheta &&
      StopAngle(l, num - 1) + l.gapTheta == 2.0 * PiF
  {
    var l := LayoutOf(shortest, radiusR, gapX, num);
    LayoutCoversTurn(shortest, radiusR, gapX, num);
    var w := l.angle + l.gapTheta;
    assert StartAngle(l, i + 1) == w * (i as real) + w;
    assert StopAngle(l, num - 1) + l.gapTheta == w * ((num - 1) as real) + w;
    assert w * ((num - 1) as real) + w == w * (num as real);
  }

  /** The four radii of bar `i` in the order they are visited, per drawHelper branch. */
  function Radii(base: real, psf: real -> real, i: nat, branch: nat): (real, real, real, real) {
    var here := psf(RealOf(i));
    var next := psf(RealOf(i + 1));
    if branch == 0 then (base, base + here, base + next, base)
    else if branch == 1 then (base, base - here, base - next, base)
    else (base + here, base - here, base - next, base + next)
  }

  /** Bar `i`: a closed quadrilateral, two corners on its start ray and two on its stop ray. */
  function Bar(c: Collaborators, l: Layout, psf: real -> real, i: nat, branch: nat): (cmds: seq<PathCmd>)
    ensures |cmds| == 5 && cmds[0].MoveTo? && cmds[1].LineTo? && cmds[2].LineTo? && cmds[3].LineTo? && cmds[4].Close?
  {
    var r := Radii(l.base, psf, i, branch);
    var start1 := c.toCartesian(r.0, StartAngle(l, i));
    var stop1 := c.toCartesian(r.1, StartAngle(l, i));
    var stop2 := c.toCartesian(r.2, StopAngle(l, i));
    var start2 := c.toCartesian(r.3, StopAngle(l, i));
    [MoveTo(start1.0, start1.1), LineTo(stop1.0, stop1.1), LineTo(stop2.0, stop2.1), LineTo(start2.0, start2.1), Close]
  }

  /** The first `n` bars, one after the other. */
  function Bars(c: Collaborators, l: Layout, psf: real -> real, n: nat, branch: nat): (cmds: seq<PathCmd>)
    ensures |cmds| == 5 * n
  {
    if n == 0 then [] else Bars(c, l, psf, n - 1, branch) + Bar(c, l, psf, n - 1, branch)
  }

  lemma BarsStep(c: Collaborators, l: Layout, psf: real -> real, i: nat, branch: nat, front: seq<PathCmd>)
    ensures front + Bars(c, l, psf, i, branch) + Bar(c, l, psf, i, branch) == front + Bars(c, l, psf, i + 1, branch)
  {
    assert Bars(c, l, psf, i + 1, branch) == Bars(c, l, psf, i, branch) + Bar(c, l, psf, i, branch);
  }

  /** The commands `5i .. 5i+4` of the path are bar `i`. */
  lemma {:induction false} BarsAt(c: Collaborators, l: Layout, psf: real -> real, n: nat, branch: nat, i: nat)
    requires i < n
    ensures Bars(c, l, psf, n, branch)[5 * i..5 * i + 5] == Bar(c, l, psf, i, branch)
  {
    var prefix := Bars(c, l, psf, n - 1, branch);
    var last := Bar(c, l, psf, n - 1, branch);
    assert Bars(c, l, psf, n, branch) == prefix + last;
    if i < n - 1 {
      BarsAt(c, l, psf, n - 1, branch, i);
      SliceOfFront(prefix, last, 5 * i, 5 * i + 5);
    } else {
      SliceOfBack(prefix, last);
    }
  }

  lemma BarReadsTwoKnots(c: Collaborators, l: Layout, f: real -> real, g: real -> real, i: nat, branch: nat)
    requires f(RealOf(i)) == g(RealOf(i)) && f(RealOf(i + 1)) == g(RealOf(i + 1))
    ensures Bar(c, l, f, i, branch) == Bar(c, l, g, i, branch)
  {
    assert Radii(l.base, f, i, branch) == Radii(l.base, g, i, branch);
  }

  /** The spline is read only at the integer knots `0..n`. */
  lemma {:induction false} BarsReadKnotsOnly(c: Collaborators, l: Layout, f: real -> real, g: real -> real, n: nat, branch: nat)
    requires forall k: nat :: k <= n ==> f(RealOf(k)) == g(RealOf(k))
    ensures Bars(c, l, f, n, branch) == Bars(c, l, g, n, branch)
  {
    if n > 0 {
      BarsReadKnotsOnly(c, l, f, g, n - 1, branch);
      BarReadsTwoKnots(c, l, f, g, n - 1, branch);
      assert Bars(c, l, f, n, branch) == Bars(c, l, f, n - 1, branch) + Bar(c, l, f, n - 1, branch);
      assert Bars(c, l, g, n, branch) == Bars(c, l, g, n - 1, branch) + Bar(c, l, g, n - 1, branch);
    }
  }

  class FftCPoly {
    const num: nat
    const interpolator: string
    const side: string
    const mirror: bool
    const power: bool
    const radiusR: real
    const gapX: real
    const ampR: real
    const c: Collaborators
    /** The magnitude buffer, 260 values. */
    const fft: array<real>
    var points: array<Gravity>
    var skipFrame: bool
    /** `lateinit psf`: `None` until a loud frame has been computed. */
    var psf: Option<real -> real>
    /** The commands of the reusable `path` and its fill type. */
    var path: seq<PathCmd>
    var fillType: FillType

    constructor(num: nat, interpolator: string, side: string, mirror: bool, power: bool,
                radiusR: real, gapX: real, ampR: real, c: Collaborators)
      ensures this.num == num && this.interpolator == interpolator && this.side == side
      ensures this.mirror == mirror && this.power == power && this.radiusR == radiusR
      ensures this.gapX == gapX && this.ampR == ampR && this.c == c
      ensures fresh(fft) && fft.Length == 260 && fresh(points) && points.Length == 0
      ensures !skipFrame && psf.None? && path == [] && fillType == Winding
    {
      this.num := num;
      this.interpolator := interpolator;
      this.side := side;
      this.mirror := mirror;
      this.power := power;
      this.radiusR := radiusR;
      this.gapX := gapX;
      this.ampR := ampR;
      this.c := c;
      fft := new real[260](_ => 0.0);
      points := new Gravity[0];
      skipFrame := false;
      psf := None;
      path := [];
      fillType := Winding;
    }

    /**
     * `calc`, given what `fillFftMagnitudeRange` writes.  A quiet frame sets
     * `skipFrame` and leaves the bars and the spline alone; a loud one shapes
     * the buffer, updates the bars and interpolates them around the circle.
     */
    method Calc(magnitudes: seq<real>)
      requires Sound(c) && |magnitudes| <= fft.Length
      modifies this, fft, points
      ensures skipFrame <==> Quiet(magnitudes)
      ensures skipFrame ==> points == old(points) && points[..] == old(points[..]) && psf == old(psf) &&
                            fft[..] == Filled(old(fft[..]), magnitudes)
      ensures !skipFrame ==>
                var s := Shape(c, power, mirror, true, Filled(old(fft[..]), magnitudes), |magnitudes|);
                fft[..] == s.buffer && points.Length == s.size &&
                (old(points.Length) == s.size ==> points == old(points)) &&
                (old(points.Length) != s.size ==> fresh(points)) &&
                points[..] == Updated(Prior(old(points[..]), s.size, c), s.processing, ampR, c) &&
                psf == Some(c.interpolateCircle(points[..], num, interpolator))
      ensures path == old(path) && fillType == old(fillType)
    {
      var skip, bars := CalcFrame(fft, points, magnitudes, c, true, power, mirror, true, ampR);
      skipFrame := skip;
      points := bars;
      if !skip {
        psf := Some(c.interpolateCircle(points[..], num, interpolator));
      }
    }

    /** One pass of the drawing loop: the four corners of bar `i`, then `close`. */
    method AppendBar(l: Layout, f: real -> real, i: nat, branch: nat)
      modifies this
      ensures path == old(path) + Bar(c, l, f, i, branch)
      ensures points == old(points) && skipFrame == old(skipFrame) && psf == old(psf) && fillType == old(fillType)
    {
      var r := Radii(l.base, f, i, branch);
      var start1 := c.toCartesian(r.0, StartAngle(l, i));
      var stop1 := c.toCartesian(r.1, StartAngle(l, i));
      var start2 := c.toCartesian(r.3, StopAngle(l, i));
      var stop2 := c.toCartesian(r.2, StopAngle(l, i));
      path := path + [MoveTo(start1.0, start1.1)];
      path := path + [LineTo(stop1.0, stop1.1)];
      path := path + [LineTo(stop2.0, stop2.1)];
      path := path + [LineTo(start2.0, start2.1)];
      path := path + [Close];
    }

    /** The drawing loop: bars `0 .. num-1` appended in order. */
    method AppendBars(l: Layout, f: real -> real, branch: nat)
      modifies this
      ensures path == old(path) + Bars(c, l, f, num, branch)
      ensures points == old(points) && skipFrame == old(skipFrame) && psf == old(psf) && fillType == old(fillType)
    {
      var i := 0;
      while i < num
        invariant 0 <= i <= num
        invariant path == old(path) + Bars(c, l, f, i, branch)
        invariant points == old(points) && skipFrame == old(skipFrame) && psf == old(psf) && fillType == old(fillType)
      {
        AppendBar(l, f, i, branch);
        BarsStep(c, l, f, i, branch, old(path));
        i := i + 1;
      }
    }

    /**
     * `draw`: nothing on a skipped frame; otherwise the branch `side` selects
     * appends the `num` bars to the path, draws it centred and resets it.
     */
    method Draw(canvas: Canvas)
      requires skipFrame || psf.Some?
      modifies this, canvas
      ensures points == old(points) && skipFrame == old(skipFrame) && psf == old(psf) && fillType == old(fillType)
      ensures skipFrame ==> canvas.drawn == old(canvas.drawn) && path == old(path)
      ensures !skipFrame ==>
                var l := LayoutOf(Shortest(canvas.width, canvas.height), radiusR, gapX, num);
                canvas.drawn == old(canvas.drawn) + [PathDrawing(0.5, 0.5, old(path) + Bars(c, l, psf.value, num, c.branch(side, 3)), fillType)] &&
                path == []
    {
      if skipFrame {
        return;
      }
      var l := LayoutOf(Shortest(canvas.width, canvas.height), radiusR, gapX, num);
      AppendBars(l, psf.value, c.branch(side, 3));
      canvas.drawn := canvas.drawn + [PathDrawing(0.5, 0.5, path, fillType)];
      path := [];
    }
  }
}
