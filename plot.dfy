/** What one call of `wrap_gp.plot` does, as functions of the plotter's
    state and the call's arguments: how many samples it takes, whether the
    buffer completes a window, whether that window is drawn, and the frame
    that is drawn.  GnuplotSinks.WrapGp.Plot is proved to do exactly this. */
module GnuplotPlot {
  import opened GnuplotProtocol

  /** The plotting mode a plotter is called with. */
  datatype Mode = Eye | Constellation | Symbol | Fft | Mixer

  /** Number of bins of the fft and mixer spectra (and of their averages). */
  const FFT_BINS: nat := 512
  /** The eye view is drawn for one completed window in this many. */
  const EYE_DECIMATION: nat := 20
  /** Samples per symbol when a sink does not choose it. */
  const DEFAULT_SPS: nat := 10
  /** Traces per eye window: the eye sink's window is this many symbols. */
  const EYE_TRACES: nat := 100
  const CONSTELLATION_BUFSZ: nat := 1000
  const SYMBOL_BUFSZ: nat := 2400

  const TERMINAL_LINE: string := "set terminal x11 noraise"
  const KEY_LINE: string := "set key off"

  /** `min(len(buf), bufsz - len(self.buf))`: the number of samples a call
      reports as consumed. */
  function Consumed(held: nat, avail: nat, bufsz: nat): (c: int)
    ensures c <= avail && c <= bufsz - held
    ensures c == avail || c == bufsz - held
  {
    if avail <= bufsz - held then avail else bufsz - held
  }

  /** The result of offering samples to the accumulation buffer: the count
      reported, the buffer afterwards, and the window it completed, if any. */
  datatype Fill<S> = Fill(consumed: int, buf: seq<S>, window: Option<seq<S>>)

  /** The accumulation step of `plot`: extend the buffer by the samples that
      fit and hand over the buffer as a window once it holds `bufsz` samples. */
  function Feed<S>(buf: seq<S>, input: seq<S>, bufsz: nat): (f: Fill<S>)
    ensures |buf| <= bufsz ==> 0 <= f.consumed <= |input| && f.consumed <= bufsz - |buf|
    ensures |buf| <= bufsz ==> (f.window.None? <==> |buf| + |input| < bufsz)
    ensures |buf| <= bufsz && f.window.None? ==> f.consumed == |input| && f.buf == buf + input
    ensures |buf| <= bufsz && f.window.Some? ==>
      f.buf == [] && f.window.value == buf + input[..f.consumed] && |f.window.value| == bufsz
    ensures bufsz < |buf| ==> f.consumed < 0 && f.buf == [] && f.window == Some(buf)
  {
    var consumed := Consumed(|buf|, |input|, bufsz);
    var acc := if |buf| < bufsz then buf + input[..consumed] else buf;
    if |acc| < bufsz then Fill(consumed, acc, None) else Fill(consumed, [], Some(acc))
  }

  /** One eye-mode row per sample. */
  function ValueRows<S>(w: seq<S>): seq<Row<S>>
  {
    seq(|w|, i requires 0 <= i < |w| => Value(w[i]))
  }

  function PointRows<S>(w: seq<S>): seq<Row<S>>
  {
    seq(|w|, i requires 0 <= i < |w| => Point(w[i]))
  }

  /** The bins of the spectrum drawn as frame `frame`. */
  function BinRows<S>(frame: nat, n: nat): seq<Row<S>>
  {
    seq(n, i requires 0 <= i < n => Bin(frame, i))
  }

  /** The eye view: successive traces of `sps` samples each, a shorter
      remainder dropped. */
  function EyeTraces<S>(w: seq<S>, sps: nat): seq<Block<S>>
    requires sps > 0 || |w| == 0
    decreases |w|
  {
    if |w| == 0 || |w| < sps then []
    else [Block(Lines, ValueRows(w[..sps]))] + EyeTraces(w[sps..], sps)
  }

  /** The style of the single series of a non-eye mode. */
  function SeriesStyle(mode: Mode): Style
  {
    match mode
    case Constellation => Points
    case Symbol => Dots
    case _ => Lines
  }

  /** The data blocks the `while len(self.buf)` loop produces from a window
      drawn as frame `frame` (the completion count). */
  function WindowBlocks<S>(w: seq<S>, mode: Mode, sps: nat, frame: nat): seq<Block<S>>
    requires mode == Eye ==> sps > 0 || |w| == 0
  {
    if |w| == 0 then []
    else if mode == Eye then EyeTraces(w, sps)
    else [SeriesBlock(w, mode, frame)]
  }

  /** The one block a non-eye mode makes of a whole window. */
  function SeriesBlock<S>(w: seq<S>, mode: Mode, frame: nat): Block<S>
  {
    match mode
    case Constellation => Block(Points, PointRows(w))
    case Symbol => Block(Dots, ValueRows(w))
    case _ => Block(Lines, BinRows(frame, |w|))
  }

  /** An eye window with at least one whole trace gives that trace, then
      the traces of the rest. */
  lemma EyeCut<S>(w: seq<S>, sps: nat, frame: nat)
    requires 0 < sps <= |w|
    ensures WindowBlocks(w, Eye, sps, frame) ==
      [Block(Lines, ValueRows(w[..sps]))] + WindowBlocks(w[sps..], Eye, sps, frame)
  {
  }

  /** The header directives of frame `frame`; `centerSet` is whether the
      center frequency is non-zero. */
  function Header(mode: Mode, centerSet: bool, frame: nat): seq<HeaderLine>
  {
    [Fixed(TERMINAL_LINE), Fixed(KEY_LINE)] +
    match mode
    case Constellation =>
      [Fixed("set size square"), Fixed("set xrange [-1:1]"), Fixed("set yrange [-1:1]"),
       Fixed("set title \"Constellation\"")]
    case Eye => [Fixed("set yrange [-4:4]"), Fixed("set title \"Datascope\"")]
    case Symbol => [Fixed("set yrange [-4:4]"), Fixed("set title \"Symbol\"")]
    case Fft =>
      SpectrumLines(frame) + [Fixed("set title \"Spectrum\"")] +
      (if centerSet then [TunedArrow(frame), TunedTitle(frame)] else [])
    case Mixer => SpectrumLines(frame) + [BalanceTitle(frame)]
  }

  function SpectrumLines(frame: nat): seq<HeaderLine>
  {
    [Fixed("unset arrow; unset title"), XRange(frame), Fixed("set xlabel \"Frequency\""),
     Fixed("set ylabel \"Power(dB)\""), Fixed("set grid"), Fixed("set yrange [-100:0]")]
  }

  /** What the model of `plot` asks of its caller.  An eye window is cut
      into traces of `sps > 0` samples: with `sps == 0` the trace loop never
      ends once a non-empty window is drawn.  The fft and mixer spectra are
      taken of a window of `bufsz` samples, 0 < bufsz <= 512.  Every sink's
      calls meet this; it also excludes some calls the source would finish. */
  predicate CanPlot(held: nat, bufsz: nat, mode: Mode, sps: nat)
  {
    (mode == Eye && sps == 0 ==> bufsz == 0 && held == 0) &&
    ((mode == Fft || mode == Mixer) ==> 0 < bufsz <= FFT_BINS && held <= bufsz)
  }

  /** The plotter state after a call of `plot`, the count it returns and the
      frame it builds. */
  datatype Outcome<S> = Outcome(consumed: int, buf: seq<S>, plotCount: nat, frame: Option<Frame<S>>)

  function PlotStep<S>(buf: seq<S>, plotCount: nat, input: seq<S>, bufsz: nat, mode: Mode, sps: nat,
                       centerSet: bool): (r: Outcome<S>)
    requires CanPlot(|buf|, bufsz, mode, sps)
    ensures CanPlot(|r.buf|, bufsz, mode, sps)
    ensures |r.buf| < bufsz || |r.buf| == 0
  {
    var f := Feed(buf, input, bufsz);
    match f.window
    case None => Outcome(f.consumed, f.buf, plotCount, None)
    case Some(w) => Outcome(f.consumed, [], plotCount + 1, Completion(w, plotCount + 1, mode, sps, centerSet))
  }

  /** The frame drawn for a completed window `w` whose completion count is
      `n`: none for an eye window whose count is not a multiple of 20. */
  function Completion<S>(w: seq<S>, n: nat, mode: Mode, sps: nat, centerSet: bool): Option<Frame<S>>
    requires mode == Eye ==> sps > 0 || |w| == 0
  {
    if mode == Eye && n % EYE_DECIMATION != 0 then None
    else Some(Frame(Header(mode, centerSet, n), WindowBlocks(w, mode, sps, n)))
  }

  /** The payloads a call writes to the renderer: its frame, if it built one
      and the renderer is alive. */
  function Written<S>(r: Outcome<S>, alive: bool, fmt: Formatter<S>): seq<string>
  {
    if alive && r.frame.Some? then [Payload(r.frame.value, fmt)] else []
  }

  // ---------------------------------------------------------------- one call

  /** Until the buffer fills, a call takes all its samples, draws nothing and
      leaves the completion counter alone. */
  lemma NoEarlyOutput<S>(buf: seq<S>, plotCount: nat, input: seq<S>, bufsz: nat, mode: Mode, sps: nat,
                         centerSet: bool)
    requires CanPlot(|buf|, bufsz, mode, sps)
    requires |buf| + |input| < bufsz
    ensures var r := PlotStep(buf, plotCount, input, bufsz, mode, sps, centerSet);
      r.consumed == |input| && r.buf == buf + input && r.plotCount == plotCount && r.frame == None
  {
  }

  /** A call that fills the buffer counts one completion in every mode and
      empties the buffer, whether or not it draws. */
  lemma CompletionResets<S>(buf: seq<S>, plotCount: nat, input: seq<S>, bufsz: nat, mode: Mode, sps: nat,
                            centerSet: bool)
    requires CanPlot(|buf|, bufsz, mode, sps)
    requires bufsz <= |buf| + |input|
    ensures var r := PlotStep(buf, plotCount, input, bufsz, mode, sps, centerSet);
      r.plotCount == plotCount + 1 && r.buf == []
  {
  }

  /** The eye view draws a completed window only when the new count is a
      multiple of 20. */
  lemma EyeDecimation<S>(buf: seq<S>, plotCount: nat, input: seq<S>, bufsz: nat, sps: nat, centerSet: bool)
    requires CanPlot(|buf|, bufsz, Eye, sps)
    ensures var r := PlotStep(buf, plotCount, input, bufsz, Eye, sps, centerSet);
      r.frame.Some? <==> bufsz <= |buf| + |input| && (plotCount + 1) % EYE_DECIMATION == 0
  {
  }

  /** Every other mode draws every completed window. */
  lemma EveryWindowDrawn<S>(buf: seq<S>, plotCount: nat, input: seq<S>, bufsz: nat, mode: Mode, sps: nat,
                            centerSet: bool)
    requires CanPlot(|buf|, bufsz, mode, sps)
    requires mode != Eye
    ensures var r := PlotStep(buf, plotCount, input, bufsz, mode, sps, centerSet);
      r.frame.Some? <==> bufsz <= |buf| + |input|
  {
  }

  /** A drawn eye frame is the eye header and the traces of the window,
      which is the old buffer and the first `consumed` input samples
      (EyeTraceCount and EyeTraceAt give the traces' layout). */
  lemma EyeFrame<S>(buf: seq<S>, plotCount: nat, input: seq<S>, bufsz: nat, sps: nat, centerSet: bool)
    requires CanPlot(|buf|, bufsz, Eye, sps)
    requires |buf| <= bufsz
    ensures var r := PlotStep(buf, plotCount, input, bufsz, Eye, sps, centerSet);
      r.frame.Some? ==>
        var w := buf + input[..r.consumed];
        |w| == bufsz && (sps > 0 || |w| == 0) &&
        r.frame.value == Frame(Header(Eye, centerSet, plotCount + 1), EyeTraces(w, sps))
  {
  }

  /** A drawn frame of any other mode holds one block with one row per
      window sample, in window order (one per bin for fft and mixer). */
  lemma SingleBlockFrame<S>(buf: seq<S>, plotCount: nat, input: seq<S>, bufsz: nat, mode: Mode, sps: nat,
                            centerSet: bool)
    requires CanPlot(|buf|, bufsz, mode, sps)
    requires mode != Eye && 0 < bufsz && |buf| <= bufsz
    ensures var r := PlotStep(buf, plotCount, input, bufsz, mode, sps, centerSet);
      r.frame.Some? ==>
        var w := buf + input[..r.consumed];
        var blocks := r.frame.value.blocks;
        r.frame.value.header == Header(mode, centerSet, plotCount + 1) &&
        |blocks| == 1 && blocks[0].style == SeriesStyle(mode) && |blocks[0].rows| == |w| == bufsz &&
        (mode == Constellation ==> forall i :: 0 <= i < |w| ==> blocks[0].rows[i] == Point(w[i])) &&
        (mode == Symbol ==> forall i :: 0 <= i < |w| ==> blocks[0].rows[i] == Value(w[i])) &&
        (mode == Fft || mode == Mixer ==> forall i :: 0 <= i < |w| ==> blocks[0].rows[i] == Bin(plotCount + 1, i))
  {
  }

  // ---------------------------------------------------------------- eye traces

  lemma {:induction false} MulMonotone(a: nat, b: nat, d: nat)
    requires a <= b
    ensures a * d <= b * d
    decreases b - a
  {
    if a < b {
      MulMonotone(a, b - 1, d);
      assert (b - 1) * d + d == b * d;
    }
  }

  /** Integer division is determined by the bounds of its quotient. */
  lemma DivUnique(n: nat, d: nat, q: nat)
    requires d > 0 && q * d <= n < q * d + d
    ensures n / d == q
  {
    var q0, r0 := n / d, n % d;
    assert n == q0 * d + r0 && 0 <= r0 < d;
    assert (q0 + 1) * d == q0 * d + d;
    assert (q + 1) * d == q * d + d;
    if q0 < q {
      MulMonotone(q0 + 1, q, d);
      assert false;
    } else if q < q0 {
      MulMonotone(q + 1, q0, d);
      assert false;
    }
  }

  lemma {:induction false} EyeTraceCount<S>(w: seq<S>, sps: nat)
    requires sps > 0
    ensures |EyeTraces(w, sps)| == |w| / sps
    decreases |w|
  {
    if |w| < sps {
      DivUnique(|w|, sps, 0);
    } else {
      EyeTraceCount(w[sps..], sps);
      var q := |w[sps..]| / sps;
      assert q * sps <= |w| - sps < q * sps + sps;
      DivUnique(|w|, sps, q + 1);
    }
  }

  /** A trace index below `n / d` ends within the first `n` samples. */
  lemma TraceBound(k: nat, n: nat, d: nat)
    requires d > 0 && k < n / d
    ensures d <= (k + 1) * d <= n
  {
    var q := n / d;
    assert q * d <= n;
    MulMonotone(k + 1, q, d);
    MulMonotone(1, k + 1, d);
  }

  lemma TraceShift(k: nat, d: nat)
    requires k > 0
    ensures k * d == (k - 1) * d + d && (k + 1) * d == k * d + d
  {
  }

  lemma {:induction false} EyeTraceAt<S>(w: seq<S>, sps: nat, k: nat)
    requires sps > 0 && k < |w| / sps
    ensures (k + 1) * sps <= |w| && k < |EyeTraces(w, sps)|
    ensures EyeTraces(w, sps)[k] == Block(Lines, ValueRows(w[k * sps..(k + 1) * sps]))
    decreases |w|
  {
    EyeTraceCount(w, sps);
    TraceBound(k, |w|, sps);
    if k == 0 {
      assert (k + 1) * sps == sps;
    } else {
      var rest := w[sps..];
      EyeTraceCount(rest, sps);
      assert EyeTraces(w, sps) == [Block(Lines, ValueRows(w[..sps]))] + EyeTraces(rest, sps);
      EyeTraceAt(rest, sps, k - 1);
      TraceShift(k, sps);
      var lo, hi := k * sps, (k + 1) * sps;
      assert rest[lo - sps..hi - sps] == w[lo..hi];
    }
  }

  /** The eye sink's window of 100 symbols gives exactly 100 traces. */
  lemma EyeWindowTraces<S>(w: seq<S>, sps: nat)
    requires sps > 0 && |w| == EYE_TRACES * sps
    ensures |EyeTraces(w, sps)| == EYE_TRACES
  {
    EyeTraceCount(w, sps);
    DivUnique(|w|, sps, EYE_TRACES);
  }

  // ---------------------------------------------------------------- header

  /** Whatever the mode, a header begins with the terminal and key lines. */
  lemma HeaderPrefix<S>(mode: Mode, centerSet: bool, frame: nat, fmt: Formatter<S>)
    ensures var h := HeaderText(Header(mode, centerSet, frame), fmt);
      var common := TERMINAL_LINE + "\n" + KEY_LINE + "\n";
      |h| >= |common| && h[..|common|] == common
  {
    var lines := Header(mode, centerSet, frame);
    HeaderTextAppend([Fixed(TERMINAL_LINE), Fixed(KEY_LINE)], lines[2..], fmt);
    assert lines == [Fixed(TERMINAL_LINE), Fixed(KEY_LINE)] + lines[2..];
  }

  /** The spectrum header announces the tuned frequency exactly when a center
      frequency is set, and only the mixer header carries the balance. */
  lemma SpectrumHeaderLines(mode: Mode, centerSet: bool, frame: nat)
    ensures (TunedTitle(frame) in Header(mode, centerSet, frame)) <==> mode == Fft && centerSet
    ensures (TunedArrow(frame) in Header(mode, centerSet, frame)) <==> mode == Fft && centerSet
    ensures (BalanceTitle(frame) in Header(mode, centerSet, frame)) <==> mode == Mixer
    ensures (XRange(frame) in Header(mode, centerSet, frame)) <==> mode == Fft || mode == Mixer
  {
    var h := Header(mode, centerSet, frame);
    if mode == Fft {
      assert h[3] == XRange(frame) && (centerSet ==> h[9] == TunedArrow(frame) && h[10] == TunedTitle(frame));
    } else if mode == Mixer {
      assert h[3] == XRange(frame) && h[8] == BalanceTitle(frame);
    }
  }

  // ---------------------------------------------------------------- many calls

  function Total<S>(inputs: seq<seq<S>>): nat
  {
    if |inputs| == 0 then 0 else |inputs[0]| + Total(inputs[1..])
  }

  function Concat<S>(inputs: seq<seq<S>>): seq<S>
  {
    if |inputs| == 0 then [] else inputs[0] + Concat(inputs[1..])
  }

  /** The accumulator over several calls: the buffer afterwards, the windows
      completed, and the counts reported. */
  datatype Run<S> = Run(buf: seq<S>, windows: seq<seq<S>>, consumed: int)

  function FeedAll<S>(buf: seq<S>, inputs: seq<seq<S>>, bufsz: nat): Run<S>
    decreases |inputs|
  {
    if |inputs| == 0 then Run(buf, [], 0)
    else
      var f := Feed(buf, inputs[0], bufsz);
      var rest := FeedAll(f.buf, inputs[1..], bufsz);
      Run(rest.buf, (if f.window.Some? then [f.window.value] else []) + rest.windows, f.consumed + rest.consumed)
  }

  lemma {:induction false} FeedAllEmpty<S>(inputs: seq<seq<S>>, bufsz: nat)
    requires bufsz > 0 && Total(inputs) == 0
    ensures FeedAll([], inputs, bufsz) == Run([], [], 0)
  {
    if |inputs| > 0 {
      assert inputs[0] == [];
      FeedAllEmpty(inputs[1..], bufsz);
    }
  }

  lemma {:induction false} ConcatEmpty<S>(inputs: seq<seq<S>>)
    requires Total(inputs) == 0
    ensures Concat(inputs) == []
  {
    if |inputs| > 0 {
      ConcatEmpty(inputs[1..]);
    }
  }

  /** Partition invariance: samples that exactly complete the window, split
      across calls in any way, yield the one window they make up, and every
      sample is reported consumed. */
  lemma {:induction false} PartitionInvariance<S>(buf: seq<S>, inputs: seq<seq<S>>, bufsz: nat)
    requires |buf| < bufsz && |buf| + Total(inputs) == bufsz
    ensures FeedAll(buf, inputs, bufsz) == Run([], [buf + Concat(inputs)], Total(inputs))
    decreases |inputs|
  {
    var f := Feed(buf, inputs[0], bufsz);
    if |buf| + |inputs[0]| < bufsz {
      PartitionInvariance(buf + inputs[0], inputs[1..], bufsz);
      assert buf + inputs[0] + Concat(inputs[1..]) == buf + Concat(inputs);
    } else {
      assert Total(inputs) == |inputs[0]| + Total(inputs[1..]);
      assert Total(inputs[1..]) == 0;
      assert f.consumed == |inputs[0]|;
      assert inputs[0][..f.consumed] == inputs[0];
      assert f.window == Some(buf + inputs[0]) && f.buf == [];
      FeedAllEmpty(inputs[1..], bufsz);
      ConcatEmpty(inputs[1..]);
      assert Concat(inputs) == inputs[0] + [];
      assert buf + inputs[0] == buf + Concat(inputs);
    }
  }

  /** The plotter over several calls: its final state and the frames built. */
  datatype Trace<S> = Trace(buf: seq<S>, plotCount: nat, frames: seq<Frame<S>>)

  function PlotAll<S>(buf: seq<S>, plotCount: nat, inputs: seq<seq<S>>, bufsz: nat, mode: Mode, sps: nat,
                      centerSet: bool): Trace<S>
    requires CanPlot(|buf|, bufsz, mode, sps)
    decreases |inputs|
  {
    if |inputs| == 0 then Trace(buf, plotCount, [])
    else
      var r := PlotStep(buf, plotCount, inputs[0], bufsz, mode, sps, centerSet);
      var rest := PlotAll(r.buf, r.plotCount, inputs[1..], bufsz, mode, sps, centerSet);
      Trace(rest.buf, rest.plotCount, (if r.frame.Some? then [r.frame.value] else []) + rest.frames)
  }

  /** Windows completed back to back in eye mode: the counter advances by one
      per window, and only the counts that reach a multiple of 20 are drawn,
      so one window in 20 is drawn. */
  lemma {:induction false} EyeRun<S>(plotCount: nat, inputs: seq<seq<S>>, bufsz: nat, sps: nat, centerSet: bool)
    requires bufsz > 0 && sps > 0
    requires forall i :: 0 <= i < |inputs| ==> |inputs[i]| == bufsz
    ensures var t := PlotAll([], plotCount, inputs, bufsz, Eye, sps, centerSet);
      t.buf == [] && t.plotCount == plotCount + |inputs| &&
      |t.frames| == (plotCount + |inputs|) / EYE_DECIMATION - plotCount / EYE_DECIMATION
    decreases |inputs|
  {
    if |inputs| > 0 {
      EyeRun(plotCount + 1, inputs[1..], bufsz, sps, centerSet);
    }
  }

  /** Windows completed back to back in any other mode: each one is drawn. */
  lemma {:induction false} SingleBlockRun<S>(plotCount: nat, inputs: seq<seq<S>>, bufsz: nat, mode: Mode,
                                             sps: nat, centerSet: bool)
    requires mode != Eye && CanPlot(0, bufsz, mode, sps) && bufsz > 0
    requires forall i :: 0 <= i < |inputs| ==> |inputs[i]| == bufsz
    ensures var t := PlotAll([], plotCount, inputs, bufsz, mode, sps, centerSet);
      t.buf == [] && t.plotCount == plotCount + |inputs| && |t.frames| == |inputs|
    decreases |inputs|
  {
    if |inputs| > 0 {
      SingleBlockRun(plotCount + 1, inputs[1..], bufsz, mode, sps, centerSet);
    }
  }
}
