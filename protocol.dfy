/** The gnuplot command stream that the sinks write to the renderer's stdin.
    A frame is a list of header directives, one `plot` directive naming one
    inline series per data block, and the data blocks themselves, each
    terminated by a line holding only `e`.  Numeric text (`%f`) is produced
    by a Formatter whose functions are left uninterpreted. */
module GnuplotProtocol {

  datatype Option<T> = None | Some(value: T)

  /** The gnuplot styles the sinks draw with. */
  datatype Style = Lines | Points | Dots

  function StyleName(st: Style): string
  {
    match st
    case Lines => "lines"
    case Points => "points"
    case Dots => "dots"
  }

  /** One series of the plot directive: `"-" with <style>`, where "-" reads
      the next inline data block. */
  function Spec(st: Style): (r: string)
    ensures |r| > 9 && r[..9] == "\"-\" with "
    ensures ',' !in r && '\n' !in r
  {
    "\"-\" with " + StyleName(st)
  }

  /** One data row: a real sample on its own (eye, symbol), a complex sample
      as real and imaginary columns (constellation), or one FFT bin as
      frequency and power columns (fft, mixer).  A bin's numbers come from
      the spectrum state of the frame it is drawn in, so a bin row names
      that frame by its completion count as well as its index. */
  datatype Row<S> = Value(sample: S) | Point(sample: S) | Bin(frame: nat, index: nat)

  /** One inline data block and the style its series is drawn with. */
  datatype Block<S> = Block(style: Style, rows: seq<Row<S>>)

  /** Numbers that appear in the fft and mixer headers; their values come
      from the floating-point spectrum state, which is not modelled. */
  datatype Quantity = FirstFreq | LastFreq | Balance | TunedMhz

  /** A header directive: fixed text, or one of the directives with numbers
      in it, naming the frame whose spectrum state supplies the numbers. */
  datatype HeaderLine =
    | Fixed(text: string)
    | XRange(frame: nat)
    | BalanceTitle(frame: nat)
    | TunedArrow(frame: nat)
    | TunedTitle(frame: nat)

  datatype Frame<S> = Frame(header: seq<HeaderLine>, blocks: seq<Block<S>>)

  /** The `%f` conversions, uninterpreted: of a real sample, of the real and
      imaginary parts of a complex one, of a bin's frequency and power in a
      given frame, and of a header quantity in a given frame. */
  datatype Formatter<!S> = Formatter(
    value: S -> string,
    re: S -> string,
    im: S -> string,
    binFreq: (nat, nat) -> string,
    binPower: (nat, nat) -> string,
    number: (nat, Quantity) -> string)

  function RowText<S>(row: Row<S>, fmt: Formatter<S>): string
  {
    match row
    case Value(x) => fmt.value(x) + "\n"
    case Point(x) => fmt.re(x) + "\t" + fmt.im(x) + "\n"
    case Bin(n, i) => fmt.binFreq(n, i) + "\t" + fmt.binPower(n, i) + "\n"
  }

  function RowsText<S>(rows: seq<Row<S>>, fmt: Formatter<S>): string
  {
    if |rows| == 0 then "" else RowText(rows[0], fmt) + RowsText(rows[1..], fmt)
  }

  function BlockText<S>(b: Block<S>, fmt: Formatter<S>): string
  {
    RowsText(b.rows, fmt) + "e\n"
  }

  function DataText<S>(blocks: seq<Block<S>>, fmt: Formatter<S>): string
  {
    if |blocks| == 0 then "" else BlockText(blocks[0], fmt) + DataText(blocks[1..], fmt)
  }

  function Specs<S>(blocks: seq<Block<S>>): seq<string>
  {
    seq(|blocks|, i requires 0 <= i < |blocks| => Spec(blocks[i].style))
  }

  function LineText<S>(line: HeaderLine, fmt: Formatter<S>): string
  {
    match line
    case Fixed(t) => t + "\n"
    case XRange(n) => "set xrange [" + fmt.number(n, FirstFreq) + ":" + fmt.number(n, LastFreq) + "]\n"
    case BalanceTitle(n) => "set title \"Mixer: balance " + fmt.number(n, Balance) + " (smaller is better)\"\n"
    case TunedArrow(n) =>
      "set arrow from " + fmt.number(n, TunedMhz) + ", graph 0 to " + fmt.number(n, TunedMhz) + ", graph 1 nohead\n"
    case TunedTitle(n) => "set title \"Spectrum: tuned to " + fmt.number(n, TunedMhz) + " Mhz\"\n"
  }

  function HeaderText<S>(lines: seq<HeaderLine>, fmt: Formatter<S>): string
  {
    if |lines| == 0 then "" else LineText(lines[0], fmt) + HeaderText(lines[1..], fmt)
  }

  /** `sep.join(xs)` */
  function Join(xs: seq<string>, sep: char): string
  {
    if |xs| == 0 then "" else if |xs| == 1 then xs[0] else xs[0] + [sep] + Join(xs[1..], sep)
  }

  /** How a reader of the plot directive separates its series again. */
  function Split(s: string, sep: char): (parts: seq<string>)
    ensures |parts| > 0
  {
    if |s| == 0 then [""]
    else
      var rest := Split(s[1..], sep);
      if s[0] == sep then [""] + rest else [[s[0]] + rest[0]] + rest[1..]
  }

  /** The text written for one frame: header, plot directive, data blocks. */
  function Payload<S>(f: Frame<S>, fmt: Formatter<S>): string
  {
    HeaderText(f.header, fmt) + "plot " + Join(Specs(f.blocks), ',') + "\n" + DataText(f.blocks, fmt)
  }

  /** Appends the text of the rows one after the other, as the sinks' inner
      `for` loops append to the data string. */
  method AppendRows<S>(s: string, rows: seq<Row<S>>, fmt: Formatter<S>) returns (t: string)
    ensures t == s + RowsText(rows, fmt)
  {
    t := s;
    for i := 0 to |rows|
      invariant t == s + RowsText(rows[..i], fmt)
    {
      RowsTextSnoc(rows, i, fmt);
      t := t + RowText(rows[i], fmt);
    }
    assert rows[..|rows|] == rows;
  }

  lemma {:induction false} RowsTextAppend<S>(a: seq<Row<S>>, b: seq<Row<S>>, fmt: Formatter<S>)
    ensures RowsText(a + b, fmt) == RowsText(a, fmt) + RowsText(b, fmt)
  {
    if |a| == 0 {
      assert a + b == b;
    } else {
      assert (a + b)[1..] == a[1..] + b;
      RowsTextAppend(a[1..], b, fmt);
    }
  }

  lemma RowsTextSnoc<S>(rows: seq<Row<S>>, i: nat, fmt: Formatter<S>)
    requires i < |rows|
    ensures RowsText(rows[..i + 1], fmt) == RowsText(rows[..i], fmt) + RowText(rows[i], fmt)
  {
    RowsTextAppend(rows[..i], [rows[i]], fmt);
    assert rows[..i] + [rows[i]] == rows[..i + 1];
  }

  lemma {:induction false} DataTextAppend<S>(a: seq<Block<S>>, b: seq<Block<S>>, fmt: Formatter<S>)
    ensures DataText(a + b, fmt) == DataText(a, fmt) + DataText(b, fmt)
  {
    if |a| == 0 {
      assert a + b == b;
    } else {
      assert (a + b)[1..] == a[1..] + b;
      DataTextAppend(a[1..], b, fmt);
    }
  }

  /** Appending a block appends its rows, its terminator and its series. */
  lemma AppendBlock<S>(blocks: seq<Block<S>>, b: Block<S>, fmt: Formatter<S>)
    ensures DataText(blocks + [b], fmt) == DataText(blocks, fmt) + RowsText(b.rows, fmt) + "e\n"
    ensures Specs(blocks + [b]) == Specs(blocks) + [Spec(b.style)]
  {
    DataTextAppend(blocks, [b], fmt);
  }

  lemma {:induction false} HeaderTextAppend<S>(a: seq<HeaderLine>, b: seq<HeaderLine>, fmt: Formatter<S>)
    ensures HeaderText(a + b, fmt) == HeaderText(a, fmt) + HeaderText(b, fmt)
  {
    if |a| == 0 {
      assert a + b == b;
    } else {
      assert (a + b)[1..] == a[1..] + b;
      HeaderTextAppend(a[1..], b, fmt);
    }
  }

  /** Every non-empty data section ends with the terminator line `e`. */
  lemma {:induction false} DataTextTerminated<S>(blocks: seq<Block<S>>, fmt: Formatter<S>)
    requires |blocks| > 0
    ensures var d := DataText(blocks, fmt); |d| >= 2 && d[|d| - 2..] == "e\n"
  {
    if |blocks| > 1 {
      DataTextTerminated(blocks[1..], fmt);
    }
  }

  lemma {:induction false} SplitNoSep(x: string, sep: char)
    requires sep !in x
    ensures Split(x, sep) == [x]
  {
    if |x| > 0 {
      SplitNoSep(x[1..], sep);
      assert [x[0]] + x[1..] == x;
    }
  }

  lemma {:induction false} SplitAfter(x: string, t: string, sep: char)
    requires sep !in x
    ensures Split(x + [sep] + t, sep) == [x] + Split(t, sep)
  {
    if |x| == 0 {
      assert x + [sep] + t == [sep] + t;
      assert ([sep] + t)[1..] == t;
    } else {
      assert (x + [sep] + t)[1..] == x[1..] + [sep] + t;
      SplitAfter(x[1..], t, sep);
      assert [x[0]] + x[1..] == x;
    }
  }

  /** Joining and splitting again gives back the parts, when no part holds
      the separator. */
  lemma {:induction false} SplitJoin(xs: seq<string>, sep: char)
    requires |xs| > 0
    requires forall i :: 0 <= i < |xs| ==> sep !in xs[i]
    ensures Split(Join(xs, sep), sep) == xs
  {
    if |xs| == 1 {
      SplitNoSep(xs[0], sep);
    } else {
      SplitJoin(xs[1..], sep);
      SplitAfter(xs[0], Join(xs[1..], sep), sep);
    }
  }

  /** The plot directive names exactly one `"-" with <style>` series per data
      block, in block order, and a reader splitting it at the commas recovers
      them. */
  lemma SeriesPerBlock<S>(blocks: seq<Block<S>>)
    requires |blocks| > 0
    ensures var series := Split(Join(Specs(blocks), ','), ',');
      |series| == |blocks| &&
      forall i :: 0 <= i < |blocks| ==> series[i] == "\"-\" with " + StyleName(blocks[i].style)
  {
    SplitJoin(Specs(blocks), ',');
  }

  /** The payload of a frame is its header text followed by the plot
      directive line, and, if it has any block, it ends with the terminator `e`. */
  lemma PayloadLayout<S>(f: Frame<S>, fmt: Formatter<S>)
    ensures var p := Payload(f, fmt); var h := HeaderText(f.header, fmt);
      |p| >= |h| + 6 && p[..|h|] == h && p[|h|..|h| + 5] == "plot "
    ensures |f.blocks| > 0 ==>
      var p := Payload(f, fmt); p[|p| - 2..] == "e\n"
  {
    if |f.blocks| > 0 {
      DataTextTerminated(f.blocks, fmt);
    }
  }
}
