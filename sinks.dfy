/** The plotter object `wrap_gp` and the five streaming sinks built on it.
    The renderer process is represented by `alive` (whether its liveness
    poll reports it running) and by `written`, the payloads sent to its stdin. */
module GnuplotSinks {
  import opened GnuplotProtocol
  import opened GnuplotPlot

  /** The fft sink calls the plotter on one `work` call in this many. */
  const FFT_SKIP: nat := 50

  class WrapGp<S> {
    const sps: nat
    const fmt: Formatter<S>
    var centerFreq: real
    var relativeFreq: real
    var offsetFreq: real
    var width: Option<real>
    var buf: seq<S>
    var plotCount: nat
    ghost var written: seq<string>

    constructor (fmt: Formatter<S>, sps: nat := DEFAULT_SPS)
      ensures this.sps == sps && this.fmt == fmt
      ensures centerFreq == 0.0 && relativeFreq == 0.0 && offsetFreq == 0.0 && width == None
      ensures buf == [] && plotCount == 0 && written == []
    {
      this.sps := sps;
      this.fmt := fmt;
      centerFreq, relativeFreq, offsetFreq, width := 0.0, 0.0, 0.0, None;
      buf, plotCount := [], 0;
      written := [];
    }

    /** One call of the plotter: buffer the samples that fit into a window
        of `bufsz`, and once the window is full count it, cut it into data
        blocks for `mode`, and write the frame if the renderer is alive.
        The new state does not depend on `alive`: a dropped frame changes
        nothing but what was written. */
    method Plot(input: seq<S>, bufsz: nat, mode: Mode, alive: bool) returns (consumed: int, frame: Option<Frame<S>>)
      requires CanPlot(|buf|, bufsz, mode, sps)
      modifies this`buf, this`plotCount, this`written
      ensures var r := PlotStep(old(buf), old(plotCount), input, bufsz, mode, sps, centerFreq != 0.0);
        consumed == r.consumed && buf == r.buf && plotCount == r.plotCount && frame == r.frame &&
        written == old(written) + Written(r, alive, fmt)
    {
      ghost var fill := Feed(buf, input, bufsz);
      consumed := Consumed(|buf|, |input|, bufsz);
      if |buf| < bufsz {
        buf := buf + input[..consumed];
      }
      if |buf| < bufsz {
        assert fill == Fill(consumed, buf, None);
        return consumed, None;
      }
      assert fill == Fill(consumed, [], Some(buf));
      frame := Complete(mode, alive);
    }

    /** The second half of a call, once the buffer holds a whole window:
        count the completion; in eye mode drop the window unless the count is
        a multiple of 20; otherwise draw it. */
    method Complete(mode: Mode, alive: bool) returns (frame: Option<Frame<S>>)
      requires mode == Eye ==> sps > 0 || |buf| == 0
      modifies this`buf, this`plotCount, this`written
      ensures plotCount == old(plotCount) + 1 && buf == []
      ensures frame == Completion(old(buf), plotCount, mode, sps, centerFreq != 0.0)
      ensures written == old(written) + (if alive && frame.Some? then [Payload(frame.value, fmt)] else [])
    {
      plotCount := plotCount + 1;
      if mode == Eye && plotCount % EYE_DECIMATION != 0 {
        buf := [];
        return None;
      }
      frame := Draw(mode, alive);
    }

    /** The drawing half of a completed call: cut the full window into
        blocks, build the frame with the mode's header and, if the renderer
        is alive, write its payload.  The buffer is left empty. */
    method Draw(mode: Mode, alive: bool) returns (frame: Option<Frame<S>>)
      requires mode == Eye ==> sps > 0 || |buf| == 0
      modifies this`buf, this`written
      ensures frame == Some(Frame(Header(mode, centerFreq != 0.0, plotCount), WindowBlocks(old(buf), mode, sps, plotCount)))
      ensures buf == [] && written == old(written) + (if alive then [Payload(frame.value, fmt)] else [])
    {
      var blocks, s, plots := CutWindow(mode, plotCount);
      buf := [];
      var header := Header(mode, centerFreq != 0.0, plotCount);
      frame := Some(Frame(header, blocks));
      var dat := HeaderText(header, fmt) + "plot " + Join(plots, ',') + "\n" + s;
      if alive {
        written := written + [dat];
      }
    }

    /** The `while len(self.buf)` loop of the plotter: cut the window held in
        the buffer into data blocks, appending each block's rows and its `e`
        terminator to the data text and its series to the plot list.  Only an
        eye remainder shorter than `sps` is left in the buffer. */
    method CutWindow(mode: Mode, frame: nat) returns (blocks: seq<Block<S>>, s: string, plots: seq<string>)
      requires mode == Eye ==> sps > 0 || |buf| == 0
      modifies this`buf
      ensures blocks == WindowBlocks(old(buf), mode, sps, frame)
      ensures s == DataText(blocks, fmt) && plots == Specs(blocks)
      ensures |buf| == 0 || (mode == Eye && |buf| < sps)
    {
      plots, s, blocks := [], "", [];
      var w := buf;
      while |w| > 0
        invariant mode == Eye ==> sps > 0 || |w| == 0
        invariant blocks + WindowBlocks(w, mode, sps, frame) == WindowBlocks(old(buf), mode, sps, frame)
        invariant s == DataText(blocks, fmt) && plots == Specs(blocks)
        decreases |w|
      {
        ghost var before := w;
        var block: Block<S>;
        if mode == Eye {
          if |w| < sps {
            break;
          }
          block := Block(Lines, ValueRows(w[..sps]));
          w := w[sps..];
          EyeCut(before, sps, frame);
        } else {
          if mode == Constellation {
            block := Block(Points, PointRows(w));
          } else if mode == Symbol {
            block := Block(Dots, ValueRows(w));
          } else {
            block := Block(Lines, BinRows(frame, |w|));
          }
          assert block == SeriesBlock(before, mode, frame);
          w := [];
        }
        s := AppendRows(s, block.rows, fmt);
        s := s + "e\n";
        plots := plots + [Spec(block.style)];
        AppendBlock(blocks, block, fmt);
        CutProgress(blocks, block, WindowBlocks(w, mode, sps, frame), WindowBlocks(before, mode, sps, frame));
        blocks := blocks + [block];
      }
      assert WindowBlocks(w, mode, sps, frame) == [];
      buf := w;
    }

    method SetCenterFreq(f: real)
      modifies this`centerFreq
      ensures centerFreq == f
    {
      centerFreq := f;
    }

    method SetRelativeFreq(f: real)
      modifies this`relativeFreq
      ensures relativeFreq == f
    {
      relativeFreq := f;
    }

    method SetOffset(f: real)
      modifies this`offsetFreq
      ensures offsetFreq == f
    {
      offsetFreq := f;
    }

    method SetWidth(w: real)
      modifies this`width
      ensures width == Some(w)
    {
      width := Some(w);
    }
  }

  /** Moving the next block from the blocks still to cut to the blocks cut
      keeps their concatenation. */
  lemma CutProgress<T>(done: seq<T>, next: T, rest: seq<T>, before: seq<T>)
    requires before == [next] + rest
    ensures (done + [next]) + rest == done + before
  {
  }

  /** A buffer between calls at a fixed window size: partial, or emptied. */
  ghost predicate Between<S>(buf: seq<S>, bufsz: nat)
  {
    |buf| < bufsz || |buf| == 0
  }

  /** One step of the fft sink's skip counter: the new counter and whether
      this call plots. */
  function SkipStep(skip: nat): (nat, bool)
  {
    if skip + 1 == FFT_SKIP then (0, true) else (skip + 1, false)
  }

  /** The number of plotting calls among `n` calls starting at `skip`. */
  function Fires(skip: nat, n: nat): nat
    requires skip < FFT_SKIP
    decreases n
  {
    if n == 0 then 0
    else
      var (next, fire) := SkipStep(skip);
      (if fire then 1 else 0) + Fires(next, n - 1)
  }

  function SkipAfter(skip: nat, n: nat): nat
    requires skip < FFT_SKIP
    decreases n
  {
    if n == 0 then skip else SkipAfter(SkipStep(skip).0, n - 1)
  }

  /** Counting from `skip`, of `n` calls exactly those that bring the count
      to a multiple of 50 plot, and the counter stays below 50. */
  lemma {:induction false} SkipRun(skip: nat, n: nat)
    requires skip < FFT_SKIP
    ensures Fires(skip, n) == (skip + n) / FFT_SKIP
    ensures SkipAfter(skip, n) == (skip + n) % FFT_SKIP
    decreases n
  {
    if n > 0 {
      SkipRun(SkipStep(skip).0, n - 1);
    }
  }

  class EyeSink<S> {
    const sps: nat
    const gnuplot: WrapGp<S>

    ghost predicate Valid()
      reads this, gnuplot
    {
      gnuplot.sps == sps && Between(gnuplot.buf, EYE_TRACES * sps)
    }

    constructor (fmt: Formatter<S>, sps: nat := DEFAULT_SPS)
      ensures Valid() && fresh(gnuplot) && this.sps == sps
      ensures gnuplot.buf == [] && gnuplot.plotCount == 0 && gnuplot.written == [] && gnuplot.fmt == fmt
    {
      this.sps := sps;
      gnuplot := new WrapGp(fmt, sps);
    }

    /** Plots with a window of 100 symbols and returns the plotter's count. */
    method Work(input: seq<S>, alive: bool) returns (n: int)
      requires Valid()
      modifies gnuplot`buf, gnuplot`plotCount, gnuplot`written
      ensures Valid()
      ensures var r := PlotStep(old(gnuplot.buf), old(gnuplot.plotCount), input, EYE_TRACES * sps, Eye, sps,
                                gnuplot.centerFreq != 0.0);
        n == r.consumed && gnuplot.buf == r.buf && gnuplot.plotCount == r.plotCount &&
        gnuplot.written == old(gnuplot.written) + Written(r, alive, gnuplot.fmt)
      ensures 0 <= n <= |input|
    {
      var frame;
      n, frame := gnuplot.Plot(input, EYE_TRACES * sps, Eye, alive);
    }
  }

  class ConstellationSink<S> {
    const gnuplot: WrapGp<S>

    ghost predicate Valid()
      reads this, gnuplot
    {
      Between(gnuplot.buf, CONSTELLATION_BUFSZ)
    }

    constructor (fmt: Formatter<S>)
      ensures Valid() && fresh(gnuplot)
      ensures gnuplot.buf == [] && gnuplot.plotCount == 0 && gnuplot.written == [] && gnuplot.fmt == fmt
    {
      gnuplot := new WrapGp(fmt);
    }

    /** Plots with a window of 1000 samples and reports every input sample consumed. */
    method Work(input: seq<S>, alive: bool) returns (n: int)
      requires Valid()
      modifies gnuplot`buf, gnuplot`plotCount, gnuplot`written
      ensures Valid()
      ensures var r := PlotStep(old(gnuplot.buf), old(gnuplot.plotCount), input, CONSTELLATION_BUFSZ,
                                Constellation, gnuplot.sps, gnuplot.centerFreq != 0.0);
        gnuplot.buf == r.buf && gnuplot.plotCount == r.plotCount &&
        gnuplot.written == old(gnuplot.written) + Written(r, alive, gnuplot.fmt)
      ensures n == |input|
    {
      var consumed, frame := gnuplot.Plot(input, CONSTELLATION_BUFSZ, Constellation, alive);
      n := |input|;
    }
  }

  class FftSink<S> {
    const gnuplot: WrapGp<S>
    var skip: nat

    ghost predicate Valid()
      reads this, gnuplot
    {
      skip < FFT_SKIP && Between(gnuplot.buf, FFT_BINS)
    }

    constructor (fmt: Formatter<S>)
      ensures Valid() && fresh(gnuplot) && skip == 0
      ensures gnuplot.buf == [] && gnuplot.plotCount == 0 && gnuplot.written == [] && gnuplot.fmt == fmt
      ensures gnuplot.centerFreq == 0.0 && gnuplot.relativeFreq == 0.0
    {
      gnuplot := new WrapGp(fmt);
      skip := 0;
    }

    /** Steps the skip counter; on every 50th call plots a 512-bin spectrum.
        Reports every input sample consumed. */
    method Work(input: seq<S>, alive: bool) returns (n: int)
      requires Valid()
      modifies this`skip, gnuplot`buf, gnuplot`plotCount, gnuplot`written
      ensures Valid()
      ensures (skip, old(skip) + 1 == FFT_SKIP) == SkipStep(old(skip))
      ensures old(skip) + 1 == FFT_SKIP ==>
        var r := PlotStep(old(gnuplot.buf), old(gnuplot.plotCount), input, FFT_BINS, Fft, gnuplot.sps,
                          gnuplot.centerFreq != 0.0);
        gnuplot.buf == r.buf && gnuplot.plotCount == r.plotCount &&
        gnuplot.written == old(gnuplot.written) + Written(r, alive, gnuplot.fmt)
      ensures old(skip) + 1 != FFT_SKIP ==>
        gnuplot.buf == old(gnuplot.buf) && gnuplot.plotCount == old(gnuplot.plotCount) &&
        gnuplot.written == old(gnuplot.written)
      ensures n == |input|
    {
      skip := skip + 1;
      if skip == FFT_SKIP {
        skip := 0;
        var consumed, frame := gnuplot.Plot(input, FFT_BINS, Fft, alive);
      }
      n := |input|;
    }

    /** Retuning also clears the relative frequency. */
    method SetCenterFreq(f: real)
      requires Valid()
      modifies gnuplot`centerFreq, gnuplot`relativeFreq
      ensures Valid()
      ensures gnuplot.centerFreq == f && gnuplot.relativeFreq == 0.0
    {
      gnuplot.SetCenterFreq(f);
      gnuplot.SetRelativeFreq(0.0);
    }

    method SetRelativeFreq(f: real)
      requires Valid()
      modifies gnuplot`relativeFreq
      ensures Valid()
      ensures gnuplot.relativeFreq == f
    {
      gnuplot.SetRelativeFreq(f);
    }

    method SetOffset(f: real)
      requires Valid()
      modifies gnuplot`offsetFreq
      ensures Valid()
      ensures gnuplot.offsetFreq == f
    {
      gnuplot.SetOffset(f);
    }

    method SetWidth(w: real)
      requires Valid()
      modifies gnuplot`width
      ensures Valid()
      ensures gnuplot.width == Some(w)
    {
      gnuplot.SetWidth(w);
    }
  }

  class MixerSink<S> {
    const gnuplot: WrapGp<S>

    ghost predicate Valid()
      reads this, gnuplot
    {
      Between(gnuplot.buf, FFT_BINS)
    }

    constructor (fmt: Formatter<S>)
      ensures Valid() && fresh(gnuplot)
      ensures gnuplot.buf == [] && gnuplot.plotCount == 0 && gnuplot.written == [] && gnuplot.fmt == fmt
    {
      gnuplot := new WrapGp(fmt);
    }

    /** Plots the balance spectrum of 512 bins on every call and reports
        every input sample consumed. */
    method Work(input: seq<S>, alive: bool) returns (n: int)
      requires Valid()
      modifies gnuplot`buf, gnuplot`plotCount, gnuplot`written
      ensures Valid()
      ensures var r := PlotStep(old(gnuplot.buf), old(gnuplot.plotCount), input, FFT_BINS, Mixer, gnuplot.sps,
                                gnuplot.centerFreq != 0.0);
        gnuplot.buf == r.buf && gnuplot.plotCount == r.plotCount &&
        gnuplot.written == old(gnuplot.written) + Written(r, alive, gnuplot.fmt)
      ensures n == |input|
    {
      var consumed, frame := gnuplot.Plot(input, FFT_BINS, Mixer, alive);
      n := |input|;
    }
  }

  class SymbolSink<S> {
    const gnuplot: WrapGp<S>

    ghost predicate Valid()
      reads this, gnuplot
    {
      Between(gnuplot.buf, SYMBOL_BUFSZ)
    }

    constructor (fmt: Formatter<S>)
      ensures Valid() && fresh(gnuplot)
      ensures gnuplot.buf == [] && gnuplot.plotCount == 0 && gnuplot.written == [] && gnuplot.fmt == fmt
    {
      gnuplot := new WrapGp(fmt);
    }

    /** Plots with a window of 2400 samples and reports every input sample consumed. */
    method Work(input: seq<S>, alive: bool) returns (n: int)
      requires Valid()
      modifies gnuplot`buf, gnuplot`plotCount, gnuplot`written
      ensures Valid()
      ensures var r := PlotStep(old(gnuplot.buf), old(gnuplot.plotCount), input, SYMBOL_BUFSZ, Symbol,
                                gnuplot.sps, gnuplot.centerFreq != 0.0);
        gnuplot.buf == r.buf && gnuplot.plotCount == r.plotCount &&
        gnuplot.written == old(gnuplot.written) + Written(r, alive, gnuplot.fmt)
      ensures n == |input|
    {
      var consumed, frame := gnuplot.Plot(input, SYMBOL_BUFSZ, Symbol, alive);
      n := |input|;
    }
  }
}
