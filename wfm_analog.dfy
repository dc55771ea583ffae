/**
 * The waveform painter: an open polyline of `num + 1` vertices across the
 * full width of the canvas, vertex `i` at the height of waveform sample
 * `point * i`, where `point = waveform.size / (num + 1)` spreads the
 * samples evenly over the capture.
 */
module WfmAnalog {
  import opened Wrappers
  import opened Visualizer

  /** A Kotlin `Byte`. */
  newtype Int8 = x: int | -128 <= x < 128

  /** `toUByte().toInt()`: the byte's eight bits read as an unsigned number. */
  function Unsigned(b: Int8): (u: int)
    ensures 0 <= u < 256 && (u - b as int) % 256 == 0
    ensures b >= 0 ==> u == b as int
  {
    if b < 0 then b as int + 256 else b as int
  }

  /** `(-b.toUByte().toInt() + 128f) * ampR`: unsigned 8-bit PCM centred on 128. */
  function Height(b: Int8, ampR: real): (y: real)
    ensures Unsigned(b) == 128 ==> y == 0.0
    ensures ampR > 0.0 && Unsigned(b) < 128 ==> y > 0.0
    ensures ampR > 0.0 && Unsigned(b) > 128 ==> y < 0.0
  {
    (128 - Unsigned(b)) as real * ampR
  }

  /**
   * Heights stay within `-127 * ampR .. 128 * ampR`, and (for a non-zero
   * amplification) a sample is drawn on the axis exactly when it is the
   * unsigned midpoint 128, the byte `-128`.
   */
  lemma HeightRange(b: Int8, ampR: real)
    ensures ampR >= 0.0 ==> -127.0 * ampR <= Height(b, ampR) <= 128.0 * ampR
    ensures ampR != 0.0 ==> (Height(b, ampR) == 0.0 <==> b == -128)
  {
    var d := (128 - Unsigned(b)) as real;
    assert -127.0 <= d <= 128.0;
    if ampR >= 0.0 {
      var lo, hi := d + 127.0, 128.0 - d;
      assert lo >= 0.0 && hi >= 0.0;
      assert lo * ampR >= 0.0 && hi * ampR >= 0.0;
      assert d * ampR == lo * ampR - 127.0 * ampR;
      assert d * ampR == 128.0 * ampR - hi * ampR;
    }
  }

  /** `waveform.size / (num + 1)`. */
  function Stride(size: nat, num: nat): (point: nat)
    ensures point <= size
    ensures point == 0 <==> size <= num
  {
    size / (num + 1)
  }

  /** The stride is the largest step that fits `num + 1` times into the capture. */
  lemma StrideFloor(size: nat, num: nat)
    ensures Stride(size, num) * (num + 1) <= size < (Stride(size, num) + 1) * (num + 1)
  {
  }

  /** The samples `point * i` read for `i` in `0..num` all lie inside a non-empty capture, in increasing order. */
  lemma {:induction false} SamplesInBounds(size: nat, num: nat, i: nat)
    requires size > 0 && i <= num
    ensures Stride(size, num) * i < size
    ensures i < num ==> Stride(size, num) * i <= Stride(size, num) * (i + 1)
  {
    var p := Stride(size, num);
    assert p * (num + 1) <= size;
    assert p * i <= p * num;
    assert p * num + p == p * (num + 1);
  }

  /** Vertex `i` at `(sliceWidth * i, height of sample point * i)`: the first a `moveTo`, the rest `lineTo`s. */
  function Vertex(w: seq<Int8>, num: nat, sw: real, ampR: real, i: nat): PathCmd
    requires |w| > 0 && i <= num
  {
    SamplesInBounds(|w|, num, i);
    var x := sw * (i as real);
    var y := Height(w[Stride(|w|, num) * i], ampR);
    if i == 0 then MoveTo(x, y) else LineTo(x, y)
  }

  /** Every vertex after the first is the `lineTo` of sample `point * i`. */
  lemma VertexIsLineTo(w: seq<Int8>, num: nat, sw: real, ampR: real, i: nat)
    requires |w| > 0 && 1 <= i <= num
    ensures Stride(|w|, num) * i < |w|
    ensures Vertex(w, num, sw, ampR, i) == LineTo(sw * (i as real), Height(w[Stride(|w|, num) * i], ampR))
  {
    SamplesInBounds(|w|, num, i);
  }

  /** The first `k` vertices of the trace. */
  function Wave(w: seq<Int8>, num: nat, sw: real, ampR: real, k: nat): (cmds: seq<PathCmd>)
    requires |w| > 0 && k <= num + 1
    ensures |cmds| == k
  {
    if k == 0 then [] else Wave(w, num, sw, ampR, k - 1) + [Vertex(w, num, sw, ampR, k - 1)]
  }

  /** Command `i` of the trace is vertex `i`. */
  lemma {:induction false} WaveAt(w: seq<Int8>, num: nat, sw: real, ampR: real, k: nat, i: nat)
    requires |w| > 0 && i < k <= num + 1
    ensures Wave(w, num, sw, ampR, k)[i] == Vertex(w, num, sw, ampR, i)
  {
    assert Wave(w, num, sw, ampR, k) == Wave(w, num, sw, ampR, k - 1) + [Vertex(w, num, sw, ampR, k - 1)];
    if i < k - 1 {
      WaveAt(w, num, sw, ampR, k - 1, i);
    }
  }

  /**
   * The trace has `num + 1` vertices: a `moveTo` at the left edge at the
   * height of the first sample, then `lineTo`s one slice apart; with
   * `sliceWidth = width / num` the last one reaches the right edge.
   */
  lemma WaveSpansTheWidth(w: seq<Int8>, width: int, num: nat, sw: real, ampR: real)
    requires |w| > 0 && num > 0 && sw * (num as real) == width as real
    ensures var cmds := Wave(w, num, sw, ampR, num + 1);
      cmds[0] == MoveTo(0.0, Height(w[0], ampR)) &&
      (forall i :: 1 <= i <= num ==> cmds[i].LineTo? && cmds[i].x == sw * (i as real)) &&
      cmds[num].x == width as real
  {
    var cmds := Wave(w, num, sw, ampR, num + 1);
    forall i | 0 <= i <= num
      ensures cmds[i] == Vertex(w, num, sw, ampR, i)
    {
      WaveAt(w, num, sw, ampR, num + 1, i);
    }
  }

  /** A silent capture (every sample the unsigned midpoint) draws a flat line along the axis. */
  lemma SilenceIsFlat(w: seq<Int8>, num: nat, sw: real, ampR: real)
    requires |w| > 0 && forall j :: 0 <= j < |w| ==> w[j] == -128
    ensures var cmds := Wave(w, num, sw, ampR, num + 1);
      forall i :: 0 <= i <= num ==> !cmds[i].Close? && cmds[i].y == 0.0
  {
    var cmds := Wave(w, num, sw, ampR, num + 1);
    forall i | 0 <= i <= num
      ensures !cmds[i].Close? && cmds[i].y == 0.0
    {
      WaveAt(w, num, sw, ampR, num + 1, i);
      SamplesInBounds(|w|, num, i);
      assert Height(w[Stride(|w|, num) * i], ampR) == 0.0;
    }
  }

  class WfmAnalog {
    const num: nat
    const ampR: real
    /** The magnitude buffer, 256 values, read only for the quiet check. */
    const fft: array<real>
    var skipFrame: bool
    /** `lateinit waveform`: `None` until a loud frame has been computed. */
    var waveform: Option<seq<Int8>>
    var path: seq<PathCmd>
    var fillType: FillType

    constructor(num: nat, ampR: real)
      ensures this.num == num && this.ampR == ampR
      ensures fresh(fft) && fft.Length == 256
      ensures !skipFrame && waveform.None? && path == [] && fillType == Winding
    {
      this.num := num;
      this.ampR := ampR;
      fft := new real[256](_ => 0.0);
      skipFrame := false;
      waveform := None;
      path := [];
      fillType := Winding;
    }

    /**
     * `calc`, given the magnitudes `fillFftMagnitudeRange` writes and the
     * capture `getWave` returns: a quiet frame is skipped and keeps the old
     * waveform; a loud one takes the new capture.
     */
    method Calc(magnitudes: seq<real>, wave: seq<Int8>)
      requires |magnitudes| <= fft.Length
      modifies this, fft
      ensures fft[..] == Filled(old(fft[..]), magnitudes)
      ensures skipFrame <==> Quiet(magnitudes)
      ensures waveform == if skipFrame then old(waveform) else Some(wave)
      ensures path == old(path) && fillType == old(fillType)
    {
      forall i | 0 <= i < |magnitudes| {
        fft[i] := magnitudes[i];
      }
      assert fft[..] == Filled(old(fft[..]), magnitudes);
      var quiet := IsQuiet(fft, |magnitudes|);
      assert fft[..|magnitudes|] == magnitudes;
      skipFrame := quiet;
      if !quiet {
        waveform := Some(wave);
      }
    }

    /** The `moveTo` and the `for (i in 1..num)` loop of `lineTo`s. */
    method AppendWave(w: seq<Int8>, sw: real)
      requires |w| > 0
      modifies this
      ensures path == old(path) + Wave(w, num, sw, ampR, num + 1)
      ensures skipFrame == old(skipFrame) && waveform == old(waveform) && fillType == old(fillType)
    {
      var point := Stride(|w|, num);
      SamplesInBounds(|w|, num, 0);
      path := path + [MoveTo(0.0, Height(w[0], ampR))];
      assert Wave(w, num, sw, ampR, 1) == [Vertex(w, num, sw, ampR, 0)];
      var i := 1;
      while i <= num
        invariant 1 <= i <= num + 1
        invariant path == old(path) + Wave(w, num, sw, ampR, i)
        invariant skipFrame == old(skipFrame) && waveform == old(waveform) && fillType == old(fillType)
      {
        VertexIsLineTo(w, num, sw, ampR, i);
        ghost var before := path;
        path := path + [LineTo(sw * (i as real), Height(w[point * i], ampR))];
        assert path == before + [Vertex(w, num, sw, ampR, i)];
        AppendAssoc(old(path), Wave(w, num, sw, ampR, i), [Vertex(w, num, sw, ampR, i)]);
        i := i + 1;
      }
    }

    /**
     * `draw`: nothing on a skipped frame; otherwise the trace of the last
     * capture is appended to the path, drawn anchored at the left edge
     * halfway down, and the path is reset.  Drawing needs a capture with
     * at least one sample (the source reads `waveform[0]`).
     */
    method Draw(canvas: Canvas)
      requires skipFrame || (waveform.Some? && |waveform.value| > 0)
      modifies this, canvas
      ensures skipFrame == old(skipFrame) && waveform == old(waveform) && fillType == old(fillType)
      ensures skipFrame ==> canvas.drawn == old(canvas.drawn) && path == old(path)
      ensures !skipFrame ==>
                canvas.drawn == old(canvas.drawn) +
                  [PathDrawing(0.0, 0.5, old(path) + Wave(waveform.value, num, Step(canvas.width as real, num), ampR, num + 1), fillType)] &&
                path == []
    {
      if skipFrame {
        return;
      }
      var sw := Step(canvas.width as real, num);
      AppendWave(waveform.value, sw);
      canvas.drawn := canvas.drawn + [PathDrawing(0.0, 0.5, path, fillType)];
      path := [];
    }
  }
}
