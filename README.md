# gr_gnuplot in Dafny

A model of op25's gnuplot display sinks (`gr_gnuplot.py`). The core is the
plotter object `wrap_gp`. Its `plot` call collects streamed samples into a
window of `bufsz` samples. When the window is full, the call counts it, and
the eye view then draws only one window in 20. A drawn window is cut into
inline data blocks: one trace of `sps` samples per block for the eye view,
and a single block in the other modes. The call then builds a header for the
mode and writes `header + "plot " + specs + "\n" + data` to the gnuplot
process, if that process is still running. Five streaming sinks sit on top
of the plotter and choose the window size and mode. The fft sink also plots
on only one `work` call in 50.

The project has three modules:

- `GnuplotProtocol` (`protocol.dfy`) is the gnuplot command stream. It has
  styles, series specs, rows, data blocks, header directives and frames, and
  renders them to text. It proves that `Join` and a reader's `Split` are a
  round trip, and how a frame's text is laid out.
- `GnuplotPlot` (`plot.dfy`) gives the meaning of one `plot` call as pure
  functions (`Feed`, `WindowBlocks`, `Header`, `PlotStep`) and of a sequence
  of calls (`FeedAll`, `PlotAll`). It proves the properties of the
  accumulate/decimate/draw state machine as lemmas.
- `GnuplotSinks` (`sinks.dfy`) is the object layer. `WrapGp` is a class with
  the plotter's fields and the four setters. Its `Plot` method does the
  accumulation, then hands a full window to `Complete` (count and
  decimate), which calls `Draw`. `Draw` runs the source's
  `while len(self.buf)` cutting loop, `CutWindow`. Each of the five
  sink classes has a `Work` method, and the fft sink also has a skip counter
  and setters. `Plot` is proved equal to `PlotStep`, so every lemma about
  `PlotStep` applies to the object.

The following are parameters of the model:

- Samples are a type parameter `S`.
- The `%f` conversions are an uninterpreted `Formatter`. A spectrum bin's
  text and a header's numbers are formatted from the frame's completion
  count together with the bin index or the quantity. So the formatter may
  render frames drawn at different counts differently, as the changing
  spectrum state may in the source. It may also render them alike, as the
  source does for a repeated spectrum.
- The liveness poll of the gnuplot process is a boolean `alive`.
- The text written to the process's stdin is the ghost log `written`.

## Model

| member | source | states |
|---|---|---|
| GnuplotProtocol.Spec | op25/gr-op25_repeater/apps/gr_gnuplot.py:89-101 | every series spec reads `"-" with <style>` and contains neither a comma nor a newline, so the comma-joined plot list can be split again |
| GnuplotProtocol.Split | op25/gr-op25_repeater/apps/gr_gnuplot.py:161 | splitting the plot list always yields at least one part |
| GnuplotProtocol.AppendRows | op25/gr-op25_repeater/apps/gr_gnuplot.py:85-86 | the row-by-row `s +=` loop appends exactly the text of the rows, in order |
| GnuplotProtocol.RowsTextAppend | op25/gr-op25_repeater/apps/gr_gnuplot.py:91-92 | the text of concatenated rows is the concatenation of their texts |
| GnuplotProtocol.RowsTextSnoc | op25/gr-op25_repeater/apps/gr_gnuplot.py:97-98 | appending one row's text extends the text of the rows before it |
| GnuplotProtocol.DataTextAppend | op25/gr-op25_repeater/apps/gr_gnuplot.py:81-125 | the data text of concatenated block lists is the concatenation of their data texts |
| GnuplotProtocol.AppendBlock | op25/gr-op25_repeater/apps/gr_gnuplot.py:86-89 | adding a block appends its rows and the `e` line to the data text, and its spec to the plot list |
| GnuplotProtocol.HeaderTextAppend | op25/gr-op25_repeater/apps/gr_gnuplot.py:128-160 | the header text of concatenated directive lists is the concatenation of their texts |
| GnuplotProtocol.DataTextTerminated | op25/gr-op25_repeater/apps/gr_gnuplot.py:87 | non-empty data text ends with the terminator line `e` |
| GnuplotProtocol.SplitNoSep | op25/gr-op25_repeater/apps/gr_gnuplot.py:161 | a part without the separator splits to itself |
| GnuplotProtocol.SplitAfter | op25/gr-op25_repeater/apps/gr_gnuplot.py:161 | splitting `x + sep + t` gives `x` followed by the parts of `t` |
| GnuplotProtocol.SplitJoin | op25/gr-op25_repeater/apps/gr_gnuplot.py:161 | `','.join` is inverted by splitting at the commas when no part contains a comma (round trip) |
| GnuplotProtocol.SeriesPerBlock | op25/gr-op25_repeater/apps/gr_gnuplot.py:161 | a reader of the plot directive finds exactly one `"-" with <style>` series per data block, in block order |
| GnuplotProtocol.PayloadLayout | op25/gr-op25_repeater/apps/gr_gnuplot.py:161 | the payload starts with the header text, followed by `plot `, and ends with `e` when the frame has blocks |
| GnuplotPlot.Consumed | op25/gr-op25_repeater/apps/gr_gnuplot.py:68 | the consumed count is the minimum of the input length and the remaining capacity |
| GnuplotPlot.Feed | op25/gr-op25_repeater/apps/gr_gnuplot.py:66-72 | only the first `consumed` input samples are buffered, never beyond `bufsz`; a window is handed over exactly when the buffer reaches `bufsz`, and then the buffer is emptied; an over-full buffer is handed over as it is, with a negative count |
| GnuplotPlot.EyeCut | op25/gr-op25_repeater/apps/gr_gnuplot.py:82-89 | cutting one `sps`-sample trace off the window leaves the traces of the rest |
| GnuplotPlot.PlotStep | op25/gr-op25_repeater/apps/gr_gnuplot.py:66-126 | after a call the buffer is partial or empty, so the call's precondition holds again for the next call |
| GnuplotPlot.NoEarlyOutput | op25/gr-op25_repeater/apps/gr_gnuplot.py:69-72 | while the buffer stays below `bufsz`, a call takes all its input, keeps the samples, leaves `plot_count` alone and builds no frame |
| GnuplotPlot.CompletionResets | op25/gr-op25_repeater/apps/gr_gnuplot.py:74-77 | in every mode, a call that fills the window adds exactly 1 to `plot_count` and leaves the buffer empty |
| GnuplotPlot.EyeDecimation | op25/gr-op25_repeater/apps/gr_gnuplot.py:74-77 | an eye call draws if and only if it completes a window and the new count is a multiple of 20 |
| GnuplotPlot.EveryWindowDrawn | op25/gr-op25_repeater/apps/gr_gnuplot.py:74-126 | a call in any other mode draws if and only if it completes a window |
| GnuplotPlot.EyeFrame | op25/gr-op25_repeater/apps/gr_gnuplot.py:79-89 | a drawn eye frame is the eye header and the traces of the old buffer plus the first `consumed` samples, a window of exactly `bufsz` samples |
| GnuplotPlot.SingleBlockFrame | op25/gr-op25_repeater/apps/gr_gnuplot.py:90-125 | a constellation, symbol, fft or mixer frame has the mode's header and one block in `points`, `dots`, `lines` or `lines` style, with one row per window sample in order (one bin per sample for the spectra, keyed on the frame's completion count) |
| GnuplotPlot.EyeTraceCount | op25/gr-op25_repeater/apps/gr_gnuplot.py:81-89 | an eye window yields `len(window) / sps` traces, and a remainder shorter than `sps` is dropped |
| GnuplotPlot.EyeTraceAt | op25/gr-op25_repeater/apps/gr_gnuplot.py:85-89 | trace `k` is a `lines` block of exactly the samples `k*sps .. (k+1)*sps - 1`, in order |
| GnuplotPlot.EyeWindowTraces | op25/gr-op25_repeater/apps/gr_gnuplot.py:193 | the eye sink's window of `100*sps` samples gives exactly 100 traces |
| GnuplotPlot.HeaderPrefix | op25/gr-op25_repeater/apps/gr_gnuplot.py:128-131 | every header begins with `set terminal x11 noraise` and `set key off` |
| GnuplotPlot.SpectrumHeaderLines | op25/gr-op25_repeater/apps/gr_gnuplot.py:146-160 | the tuned arrow and title appear if and only if the mode is fft and a center frequency is set; the balance title appears if and only if the mode is mixer; the frequency range appears if and only if the mode is fft or mixer |
| GnuplotPlot.FeedAllEmpty | op25/gr-op25_repeater/apps/gr_gnuplot.py:66-72 | calls with no samples leave an empty buffer empty and complete nothing |
| GnuplotPlot.ConcatEmpty | op25/gr-op25_repeater/apps/gr_gnuplot.py:70 | inputs holding no samples append nothing |
| GnuplotPlot.PartitionInvariance | op25/gr-op25_repeater/apps/gr_gnuplot.py:66-72 | samples that exactly complete the window give the same single window, and count all of them consumed, however they are split across calls |
| GnuplotPlot.EyeRun | op25/gr-op25_repeater/apps/gr_gnuplot.py:74-77 | over back-to-back full eye windows the counter advances by one per window and `(c+n)/20 - c/20` frames are drawn |
| GnuplotPlot.SingleBlockRun | op25/gr-op25_repeater/apps/gr_gnuplot.py:74-126 | over back-to-back full windows in any other mode, every window is drawn |
| GnuplotSinks.WrapGp.constructor | op25/gr-op25_repeater/apps/gr_gnuplot.py:42-53 | a new plotter has `sps` (10 by default), zero frequencies, no width, an empty buffer, a zero count and has written nothing |
| GnuplotSinks.WrapGp.Plot | op25/gr-op25_repeater/apps/gr_gnuplot.py:66-165 | the call's count, new buffer, new `plot_count` and frame are exactly those of `PlotStep`, and the written log grows by the frame's payload exactly when a frame is built and the process is alive |
| GnuplotSinks.WrapGp.Complete | op25/gr-op25_repeater/apps/gr_gnuplot.py:74-164 | a call holding a whole window adds 1 to `plot_count` and empties the buffer; its frame is `Completion` of the window, which is none for an eye count that is not a multiple of 20; the log grows by the payload only if a frame is drawn and the process is alive |
| GnuplotSinks.WrapGp.Draw | op25/gr-op25_repeater/apps/gr_gnuplot.py:79-164 | a completed window becomes the frame of the mode's header and the window's blocks; the buffer ends empty; the payload is written only if the process is alive |
| GnuplotSinks.WrapGp.CutWindow | op25/gr-op25_repeater/apps/gr_gnuplot.py:79-125 | the cutting loop produces exactly `WindowBlocks` of the window, its data text and its specs, and leaves at most an eye remainder shorter than `sps` |
| GnuplotSinks.WrapGp.SetCenterFreq | op25/gr-op25_repeater/apps/gr_gnuplot.py:167-168 | sets the center frequency and nothing else |
| GnuplotSinks.WrapGp.SetRelativeFreq | op25/gr-op25_repeater/apps/gr_gnuplot.py:170-171 | sets the relative frequency and nothing else |
| GnuplotSinks.WrapGp.SetOffset | op25/gr-op25_repeater/apps/gr_gnuplot.py:173-174 | sets the offset frequency and nothing else |
| GnuplotSinks.WrapGp.SetWidth | op25/gr-op25_repeater/apps/gr_gnuplot.py:176-177 | sets the width and nothing else |
| GnuplotSinks.SkipRun | op25/gr-op25_repeater/apps/gr_gnuplot.py:230-236 | starting from a counter below 50, `n` calls plot exactly `(skip+n)/50` times and leave the counter at `(skip+n) % 50` |
| GnuplotSinks.EyeSink.constructor | op25/gr-op25_repeater/apps/gr_gnuplot.py:182-189 | the eye sink's plotter uses the sink's `sps` (10 by default) and starts empty |
| GnuplotSinks.EyeSink.Work | op25/gr-op25_repeater/apps/gr_gnuplot.py:191-194 | plots in eye mode with a window of `100*sps` and returns the plotter's count, which lies between 0 and the input length; the buffer stays partial or empty |
| GnuplotSinks.ConstellationSink.constructor | op25/gr-op25_repeater/apps/gr_gnuplot.py:202-208 | the constellation sink starts with an empty plotter |
| GnuplotSinks.ConstellationSink.Work | op25/gr-op25_repeater/apps/gr_gnuplot.py:210-213 | plots in constellation mode with a window of 1000 and returns the full input length |
| GnuplotSinks.FftSink.constructor | op25/gr-op25_repeater/apps/gr_gnuplot.py:221-228 | the fft sink starts with an empty plotter and a zero skip counter |
| GnuplotSinks.FftSink.Work | op25/gr-op25_repeater/apps/gr_gnuplot.py:230-236 | steps the skip counter, which stays below 50; plots a 512-bin spectrum exactly on the call that brings the counter to 50 and otherwise leaves the plotter unchanged; returns the full input length |
| GnuplotSinks.FftSink.SetCenterFreq | op25/gr-op25_repeater/apps/gr_gnuplot.py:241-243 | sets the center frequency and also resets the relative frequency to 0.0 |
| GnuplotSinks.FftSink.SetRelativeFreq | op25/gr-op25_repeater/apps/gr_gnuplot.py:245-246 | sets only the plotter's relative frequency |
| GnuplotSinks.FftSink.SetOffset | op25/gr-op25_repeater/apps/gr_gnuplot.py:248-249 | sets only the plotter's offset frequency |
| GnuplotSinks.FftSink.SetWidth | op25/gr-op25_repeater/apps/gr_gnuplot.py:251-252 | sets only the plotter's width |
| GnuplotSinks.MixerSink.constructor | op25/gr-op25_repeater/apps/gr_gnuplot.py:257-263 | the mixer sink starts with an empty plotter |
| GnuplotSinks.MixerSink.Work | op25/gr-op25_repeater/apps/gr_gnuplot.py:265-268 | plots in mixer mode with a window of 512 and returns the full input length |
| GnuplotSinks.SymbolSink.constructor | op25/gr-op25_repeater/apps/gr_gnuplot.py:276-282 | the symbol sink starts with an empty plotter |
| GnuplotSinks.SymbolSink.Work | op25/gr-op25_repeater/apps/gr_gnuplot.py:284-287 | plots in symbol mode with a window of 2400 and returns the full input length |

## Left out

- FFT numerics (`np.blackman`, `np.fft.fft`, `fftshift`, `fftfreq`, the `0.42*BUFSZ` normalisation, `np.abs`, `20*np.log10`; gr_gnuplot.py:104-107, 116) are floating-point library code. An fft or mixer row is modelled as a bin index, and its frequency and power text come from the uninterpreted `Formatter`.
- The `avg_pwr` moving averages and the mixer's `avg_sum_pwr` balance (gr_gnuplot.py:111-122) are floating-point accumulations. They are not modelled, nor are the `avg_pwr`, `avg_sum_pwr`, `ffts` and `freqs` fields.
- The frequency remap and the numbers in the fft and mixer headers (gr_gnuplot.py:108-110, 148, 154, 158-160) are float arithmetic. The header records which directives appear. Their numbers are opaque `Quantity` values of the frame, rendered by the `Formatter`. Only whether `center_freq` is non-zero is modelled.
- The `Formatter` makes a spectrum row's text depend on the frame's completion count and the bin index only. It does not relate the text of two frames to the samples, the calibration or the averages. Frames at different counts may differ, but the model says nothing about how.
- The `%f` and `%3.0f` text conversions are uninterpreted `Formatter` functions.
- The gnuplot subprocess is not modelled: `attach_gp`, `kill`, `gp.poll` and `stdin.write` (gr_gnuplot.py:55-64, 162-164). Liveness is the `alive` parameter, and writes are appended to the ghost log `written`. The sinks' `kill` methods are left out for the same reason.
- `gr.sync_block` registration, the input signatures and the unused `debug` field (gr_gnuplot.py:183-187 and the matching lines of the other sinks) are framework glue.
- `audio.py` is not part of this model. It is option parsing and an audio socket relay with no plotting logic.
- The mode is an enumeration, so the source's behaviour for an unknown mode string is not modelled. In the source such a call counts completions like any other mode. Its cutting loop (gr_gnuplot.py:81) never ends once a non-empty window completes. With `bufsz == 0` it writes a frame whose header holds only the two common lines.
- The `mode='eye'` default of `plot` (gr_gnuplot.py:66) is not modelled: `WrapGp.Plot` always takes the mode explicitly, and every sink passes one.
- GnuplotSinks.WrapGp.Plot: requires `bufsz == 0` and an empty buffer for an eye call with `sps == 0`. The source's trace loop (gr_gnuplot.py:81-89) never ends once such a call draws a non-empty window. The requirement also excludes calls the source finishes normally: a call that does not fill the window (:71-72), and a completion that is not drawn (:75-77). No sink makes any of these calls, because the eye sink's window is `100*sps`.
- GnuplotSinks.WrapGp.Plot: requires `0 < bufsz <= 512` and a buffer no longer than `bufsz` in fft and mixer mode. Most calls outside this fail in the source: the 512-entry `avg_pwr` overflows (:113, :115), and with `bufsz == 0` the header's `self.freqs[0]` (:148) is read while `freqs` is still empty. The requirement also excludes some calls the source finishes, such as `bufsz == 1` with an over-full buffer, which numpy broadcasts (:104). No sink makes any of these calls: the fft and mixer sinks always use 512.
- GnuplotSinks.WrapGp.CutWindow: cuts a local copy of the buffer and stores the remainder back once, instead of reslicing `self.buf` on every trace. The final state is the same.
- GnuplotSinks.FftSink.Work: its contract covers one call. The relation between many calls and the plots they trigger is stated by `SkipRun`, on the pure counter step `SkipStep`.
