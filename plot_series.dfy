/**
 * The series preparation of plot.py: the legend label taken from the file
 * name, the reading of an output file's data lines into columns, and the
 * x ticks of a linear AC sweep (`set_xticks`).
 *
 * Numbers stay text, as the script hands them to matplotlib; only
 * `set_xticks` converts them, through `int(float(...))`, which is the
 * parameter `toInt` here. Python's `re.search` is replaced by a matcher for
 * well-formed lines: the leading whitespace-separated fields must be the
 * numbers the pattern describes.
 */
module PlotSeries {
  import opened Text
  import DcAnalysis
  import opened PlotFiles

  // ---------------------------------------------------------------------
  // Legend labels
  // ---------------------------------------------------------------------

  /** `parts[i]`, or `None` where Python raises IndexError. */
  function Field(parts: seq<string>, i: nat): (r: Option<string>)
  {
    if i < |parts| then Some(parts[i]) else None
  }

  /** The legend of a DC or transient file: field 3 of the `_`-split name if it contains `dc`, else field 2. */
  function DcOrTranLabel(filename: string): (r: Option<string>)
  {
    if Contains(filename, "dc") then Field(Split(filename, '_'), 3) else Field(Split(filename, '_'), 2)
  }

  /** The legend of an AC file: always field 2. */
  function AcLabel(filename: string): (r: Option<string>)
  {
    Field(Split(filename, '_'), 2)
  }

  /**
   * A name made of `_`-free pieces: the legend is piece 3 when the name
   * contains `dc` and piece 2 otherwise, or an IndexError when there is no
   * such piece.
   */
  lemma LabelPiece(parts: seq<string>)
    requires |parts| >= 1
    requires forall i :: 0 <= i < |parts| ==> Free(parts[i], '_')
    ensures var name := Join(parts, '_');
      DcOrTranLabel(name) == (if Contains(name, "dc") then Field(parts, 3) else Field(parts, 2))
    ensures AcLabel(Join(parts, '_')) == Field(parts, 2)
  {
    SplitJoin(parts, '_');
  }

  /**
   * A DC sweep output file, named as the simulator names it, is labelled by
   * its node name with the `.txt` extension.
   */
  lemma SweepFileLabel(source: string, node: string)
    requires Free(source, '_') && Free(node, '_')
    ensures DcOrTranLabel(DcAnalysis.FileName(source, node)) == Some(node + ".txt")
  {
    var name := DcAnalysis.FileName(source, node);
    assert name[..2] == "dc";
    assert Contains(name, "dc");
    DcAnalysis.FileNameFields(source, node);
  }

  /**
   * A transient file whose node name holds `dc` (say `tr_analysis_vdc.txt`)
   * is read with field 3, which it lacks: the label lookup fails.
   */
  lemma TransientNodeWithDc(node: string)
    requires Free(node, '_') && Contains(node, "dc")
    ensures DcOrTranLabel("tr_analysis_" + node) == None
  {
    var parts := ["tr", "analysis", node];
    assert Join(parts[1..], '_') == "analysis_" + node;
    assert Join(parts, '_') == "tr_analysis_" + node;
    assert Free("tr", '_') && Free("analysis", '_');
    SplitJoin(parts, '_');
    ContainsAfter("tr_analysis_", node, "dc");
  }

  // ---------------------------------------------------------------------
  // Data lines
  // ---------------------------------------------------------------------

  /** Python's `\s` on ASCII. */
  predicate IsSpace(c: char)
  {
    c == ' ' || c == '\t' || c == '\n' || c == '\r' || c as int == 11 || c as int == 12
  }

  /** Length of the leading run of non-space characters. */
  function RunLen(s: string): (n: nat)
    ensures n <= |s|
    ensures s != [] && !IsSpace(s[0]) ==> n >= 1
    decreases |s|
  {
    if s == [] || IsSpace(s[0]) then 0 else 1 + RunLen(s[1..])
  }

  /** The whitespace-separated words of a line, in order. */
  function Words(s: string): (r: seq<string>)
    decreases |s|
  {
    if s == [] then []
    else if IsSpace(s[0]) then Words(s[1..])
    else
      var n := RunLen(s);
      [s[..n]] + Words(s[n..])
  }

  /** `[0-9]+\.?[0-9]+` on a whole word: at least two digits, at most one point, digits at both ends. */
  predicate IsUnsigned(w: string)
  {
    && |w| >= 2
    && IsDigit(w[0]) && IsDigit(w[|w| - 1])
    && (forall k :: 0 <= k < |w| ==> IsDigit(w[k]) || w[k] == '.')
    && multiset(w)['.'] <= 1
  }

  /** `-?[0-9]+\.?[0-9]+` on a whole word. */
  predicate IsSigned(w: string)
  {
    IsUnsigned(w) || (|w| >= 1 && w[0] == '-' && IsUnsigned(w[1..]))
  }

  /** A DC or transient data line: an unsigned number then a signed one. */
  function MatchPair(line: string): (r: Option<(string, string)>)
  {
    var ws := Words(line);
    if |ws| >= 2 && IsUnsigned(ws[0]) && IsSigned(ws[1]) then Some((ws[0], ws[1])) else None
  }

  /** An AC data line: an unsigned number then two signed ones. */
  function MatchTriple(line: string): (r: Option<(string, string, string)>)
  {
    var ws := Words(line);
    if |ws| >= 3 && IsUnsigned(ws[0]) && IsSigned(ws[1]) && IsSigned(ws[2]) then Some((ws[0], ws[1], ws[2])) else None
  }

  /** What the matcher finds on each line, in line order; lines without a match give nothing. */
  function Matches<T>(lines: seq<string>, matcher: string -> Option<T>): (r: seq<T>)
    decreases |lines|
  {
    if lines == [] then []
    else
      var init := Matches(lines[..|lines| - 1], matcher);
      match matcher(lines[|lines| - 1])
      case None => init
      case Some(m) => init + [m]
  }

  /** `lines[1:]`: the header line is never matched. */
  function Body(lines: seq<string>): (r: seq<string>)
  {
    if lines == [] then [] else lines[1..]
  }

  /** Every match comes from some line, and every matching line gives its match. */
  lemma {:induction false} MatchesMembers<T>(lines: seq<string>, matcher: string -> Option<T>, m: T)
    ensures m in Matches(lines, matcher) <==> exists i :: 0 <= i < |lines| && matcher(lines[i]) == Some(m)
    decreases |lines|
  {
    if lines != [] {
      var init := lines[..|lines| - 1];
      MatchesMembers(init, matcher, m);
      if exists i :: 0 <= i < |init| && matcher(init[i]) == Some(m) {
        var i :| 0 <= i < |init| && matcher(init[i]) == Some(m);
        assert lines[i] == init[i];
      }
      if exists i :: 0 <= i < |lines| && matcher(lines[i]) == Some(m) {
        var i :| 0 <= i < |lines| && matcher(lines[i]) == Some(m);
        if i < |init| {
          assert init[i] == lines[i];
        }
      }
    }
  }

  /** Matches keep line order: the lines of two blocks give the two blocks' matches in turn. */
  lemma {:induction false} MatchesAppend<T>(a: seq<string>, b: seq<string>, matcher: string -> Option<T>)
    ensures Matches(a + b, matcher) == Matches(a, matcher) + Matches(b, matcher)
    decreases |b|
  {
    if b == [] {
      assert a + b == a;
    } else {
      var init := b[..|b| - 1];
      MatchesAppend(a, init, matcher);
      assert (a + b)[..|a + b| - 1] == a + init;
      assert (a + b)[|a + b| - 1] == b[|b| - 1];
    }
  }

  /** There are as many matches as matching lines. */
  lemma {:induction false} MatchesCount<T>(lines: seq<string>, matcher: string -> Option<T>)
    ensures |Matches(lines, matcher)| == |set i | 0 <= i < |lines| && matcher(lines[i]).Some?|
    decreases |lines|
  {
    if lines != [] {
      var init := lines[..|lines| - 1];
      MatchesCount(init, matcher);
      var before := set i | 0 <= i < |init| && matcher(init[i]).Some?;
      var now := set i | 0 <= i < |lines| && matcher(lines[i]).Some?;
      if matcher(lines[|lines| - 1]).Some? {
        assert now == before + {|lines| - 1};
      } else {
        assert now == before;
      }
    }
  }

  /** The loop of `plot_dc_or_transient_file`: steps and values of every matching line after the header. */
  method ReadPairs(lines: seq<string>) returns (steps: seq<string>, vals: seq<string>)
    ensures |steps| == |vals| == |Matches(Body(lines), MatchPair)|
    ensures forall k :: 0 <= k < |steps| ==> (steps[k], vals[k]) == Matches(Body(lines), MatchPair)[k]
  {
    steps, vals := [], [];
    var body := Body(lines);
    var i := 0;
    while i < |body|
      invariant 0 <= i <= |body|
      invariant |steps| == |vals| == |Matches(body[..i], MatchPair)|
      invariant forall k :: 0 <= k < |steps| ==> (steps[k], vals[k]) == Matches(body[..i], MatchPair)[k]
    {
      assert body[..i + 1][..i] == body[..i];
      var m := MatchPair(body[i]);
      if m.Some? {
        steps := steps + [m.value.0];
        vals := vals + [m.value.1];
      }
      i := i + 1;
    }
    assert body[..i] == body;
  }

  /** The loop of `plot_ac_file`: frequency, magnitude and phase of every matching line after the header. */
  method ReadTriples(lines: seq<string>) returns (freqs: seq<string>, magns: seq<string>, phases: seq<string>)
    ensures |freqs| == |magns| == |phases| == |Matches(Body(lines), MatchTriple)|
    ensures forall k :: 0 <= k < |freqs| ==> (freqs[k], magns[k], phases[k]) == Matches(Body(lines), MatchTriple)[k]
  {
    freqs, magns, phases := [], [], [];
    var body := Body(lines);
    var i := 0;
    while i < |body|
      invariant 0 <= i <= |body|
      invariant |freqs| == |magns| == |phases| == |Matches(body[..i], MatchTriple)|
      invariant forall k :: 0 <= k < |freqs| ==> (freqs[k], magns[k], phases[k]) == Matches(body[..i], MatchTriple)[k]
    {
      assert body[..i + 1][..i] == body[..i];
      var m := MatchTriple(body[i]);
      if m.Some? {
        freqs := freqs + [m.value.0];
        magns := magns + [m.value.1];
        phases := phases + [m.value.2];
      }
      i := i + 1;
    }
    assert body[..i] == body;
  }

  /** The data the C sweep writes after its header is read back unchanged. */
  lemma SweepRowMatches(step: string, value: string, pad1: string, pad2: string)
    requires IsUnsigned(step) && IsSigned(value)
    requires |pad1| >= 1 && (forall k :: 0 <= k < |pad1| ==> IsSpace(pad1[k]))
    requires forall k :: 0 <= k < |pad2| ==> IsSpace(pad2[k])
    ensures MatchPair(step + pad1 + value + pad2) == Some((step, value))
  {
    WordThen(step, pad1 + value + pad2);
    assert step + pad1 + value + pad2 == step + (pad1 + value + pad2);
    SpacesThen(pad1, value + pad2);
    assert pad1 + value + pad2 == pad1 + (value + pad2);
    WordThen(value, pad2);
    SpacesThen(pad2, []);
    assert pad2 + [] == pad2;
  }

  /** A word followed by text starting with a space is the first word. */
  lemma {:induction false} WordThen(w: string, rest: string)
    requires |w| >= 1 && forall k :: 0 <= k < |w| ==> !IsSpace(w[k])
    requires rest == [] || IsSpace(rest[0])
    ensures Words(w + rest) == [w] + Words(rest)
  {
    RunLenOfWord(w, rest);
    assert (w + rest)[..|w|] == w;
    assert (w + rest)[|w|..] == rest;
  }

  lemma {:induction false} RunLenOfWord(w: string, rest: string)
    requires forall k :: 0 <= k < |w| ==> !IsSpace(w[k])
    requires rest == [] || IsSpace(rest[0])
    ensures RunLen(w + rest) == |w|
    decreases |w|
  {
    if w == [] {
      assert w + rest == rest;
    } else {
      RunLenOfWord(w[1..], rest);
      assert (w + rest)[1..] == w[1..] + rest;
    }
  }

  /** Leading whitespace contributes no word. */
  lemma {:induction false} SpacesThen(sp: string, rest: string)
    requires forall k :: 0 <= k < |sp| ==> IsSpace(sp[k])
    ensures Words(sp + rest) == Words(rest)
    decreases |sp|
  {
    if sp == [] {
      assert sp + rest == rest;
    } else {
      SpacesThen(sp[1..], rest);
      assert (sp + rest)[1..] == sp[1..] + rest;
    }
  }

  // ---------------------------------------------------------------------
  // set_xticks
  // ---------------------------------------------------------------------

  /** numpy's `arange(start, end, step)` on integers: start, start + step, ... short of end. */
  function Arange(start: int, end: int, step: int): (r: seq<int>)
    requires step != 0
    decreases if step > 0 then end - start else start - end
  {
    if (step > 0 && start < end) || (step < 0 && start > end) then [start] + Arange(start + step, end, step)
    else []
  }

  /**
   * For a positive step the values are `start + i * step`, all below end, and
   * the next one would reach it; for a negative step the same from above.
   */
  lemma {:induction false} ArangeValues(start: int, end: int, step: int)
    requires step != 0
    ensures forall i :: 0 <= i < |Arange(start, end, step)| ==> Arange(start, end, step)[i] == start + i * step
    ensures step > 0 ==> forall i :: 0 <= i < |Arange(start, end, step)| ==> Arange(start, end, step)[i] < end
    ensures step < 0 ==> forall i :: 0 <= i < |Arange(start, end, step)| ==> Arange(start, end, step)[i] > end
    ensures step > 0 ==> start + |Arange(start, end, step)| * step >= end
    ensures step < 0 ==> start + |Arange(start, end, step)| * step <= end
    decreases if step > 0 then end - start else start - end
  {
    if (step > 0 && start < end) || (step < 0 && start > end) {
      ArangeValues(start + step, end, step);
      var r := Arange(start, end, step);
      var t := Arange(start + step, end, step);
      assert r == [start] + t;
      forall i | 0 < i < |r|
        ensures r[i] == start + i * step
      {
        assert r[i] == t[i - 1];
        MulSucc(i - 1, step);
      }
      MulSucc(|t|, step);
    }
  }

  lemma MulSucc(n: int, c: int)
    ensures (n + 1) * c == n * c + c
  {
  }

  /** `end` itself is never among the values, so `set_xticks` always appends it. */
  lemma EndNotInArange(start: int, end: int, step: int)
    requires step != 0
    ensures end !in Arange(start, end, step)
  {
    ArangeValues(start, end, step);
  }

  /** What `set_xticks` does to the axes. */
  datatype Ticks =
    | KeepAxis
    | SetTicks(left: int, right: int, ticks: seq<int>)

  /**
   * `set_xticks` on the frequencies already converted to integers: leave the
   * axis when more than two are 0; otherwise limits start..end and ticks
   * `arange(start, end, step)` with end appended when missing. `None` where
   * Python raises: fewer than two values (IndexError) or a zero step
   * (ZeroDivisionError in numpy).
   */
  function XTicks(freqs: seq<int>): (r: Option<Ticks>)
  {
    if multiset(freqs)[0] > 2 then Some(KeepAxis)
    else if |freqs| < 2 then None
    else
      var start := freqs[0];
      var end := freqs[|freqs| - 1];
      var step := freqs[|freqs| - 1] - freqs[|freqs| - 2];
      if step == 0 then None
      else
        var r := Arange(start, end, step);
        Some(SetTicks(start, end, if end in r then r else r + [end]))
  }

  /**
   * When `set_xticks` sets ticks, they are the start, start + step, ...
   * strictly below end (for a rising sweep), followed by end itself: the
   * last tick is always the right limit.
   */
  lemma XTicksShape(freqs: seq<int>)
    requires XTicks(freqs).Some? && XTicks(freqs).value.SetTicks?
    ensures var t := XTicks(freqs).value;
      && |freqs| >= 2
      && t.left == freqs[0] && t.right == freqs[|freqs| - 1]
      && |t.ticks| >= 1 && t.ticks[|t.ticks| - 1] == t.right
      && forall i :: 0 <= i < |t.ticks| - 1 ==>
           t.ticks[i] == t.left + i * (freqs[|freqs| - 1] - freqs[|freqs| - 2])
  {
    var start := freqs[0];
    var end := freqs[|freqs| - 1];
    var step := freqs[|freqs| - 1] - freqs[|freqs| - 2];
    EndNotInArange(start, end, step);
    ArangeValues(start, end, step);
  }

  /** For a rising sweep the ticks rise strictly. */
  lemma XTicksRise(freqs: seq<int>)
    requires |freqs| >= 2 && freqs[|freqs| - 1] > freqs[|freqs| - 2]
    requires multiset(freqs)[0] <= 2
    ensures XTicks(freqs).Some? && XTicks(freqs).value.SetTicks?
    ensures var t := XTicks(freqs).value.ticks;
      forall i, j :: 0 <= i < j < |t| ==> t[i] < t[j]
  {
    var start := freqs[0];
    var end := freqs[|freqs| - 1];
    var step := freqs[|freqs| - 1] - freqs[|freqs| - 2];
    EndNotInArange(start, end, step);
    assert XTicks(freqs) == Some(SetTicks(start, end, Arange(start, end, step) + [end]));
    ArangeThenEndRises(start, end, step);
  }

  lemma ArangeThenEndRises(start: int, end: int, step: int)
    requires step > 0
    ensures var t := Arange(start, end, step) + [end];
      forall i, j :: 0 <= i < j < |t| ==> t[i] < t[j]
  {
    ArangeValues(start, end, step);
    var r := Arange(start, end, step);
    var t := r + [end];
    forall i, j | 0 <= i < j < |t|
      ensures t[i] < t[j]
    {
      if j < |r| {
        MulLess(i, j, step);
      }
    }
  }

  lemma MulLess(i: int, j: int, step: int)
    requires i < j && step > 0
    ensures i * step < j * step
  {
    assert j * step - i * step == (j - i) * step;
  }

  // ---------------------------------------------------------------------
  // One file each
  // ---------------------------------------------------------------------

  /** What one DC or transient file adds to its figure. */
  datatype Series = Series(legend: string, xs: seq<string>, ys: seq<string>)

  /** `plot_dc_or_transient_file`: `None` when the legend lookup raises IndexError. */
  method PlotDcOrTranFile(filename: string, lines: seq<string>) returns (series: Option<Series>)
    ensures series.None? <==> DcOrTranLabel(filename).None?
    ensures series.Some? ==> series.value.legend == DcOrTranLabel(filename).value
    ensures series.Some? ==> |series.value.xs| == |series.value.ys| == |Matches(Body(lines), MatchPair)|
    ensures series.Some? ==> forall k :: 0 <= k < |series.value.xs| ==>
      (series.value.xs[k], series.value.ys[k]) == Matches(Body(lines), MatchPair)[k]
  {
    var legend := DcOrTranLabel(filename);
    if legend.None? {
      return None;
    }
    var steps, vals := ReadPairs(lines);
    series := Some(Series(legend.value, steps, vals));
  }

  /**
   * What one AC file adds to the two subplots: the series drawn on the
   * magnitude subplot (`ax_ac_2`) and on the phase subplot (`ax_ac_1`), and
   * the ticks set when it is the last file of a linear sweep.
   */
  datatype AcPlot = AcPlot(legend: string, freqs: seq<string>, onMagnitudeAxis: seq<string>,
                           onPhaseAxis: seq<string>, ticks: Option<Option<Ticks>>)

  /** `map(int, map(float, xs))`, with the conversion as a parameter. */
  function AsInts(xs: seq<string>, toInt: string -> int): (r: seq<int>)
    ensures |r| == |xs|
  {
    seq(|xs|, k requires 0 <= k < |xs| => toInt(xs[k]))
  }

  /**
   * `plot_ac_file`. `toInt` stands for `int(float(...))`. `ticks` is `None`
   * when `set_xticks` is not called, `Some(None)` when it raises.
   */
  method PlotAcFile(filename: string, lines: seq<string>, sweep: Sweep, last: bool, toInt: string -> int)
    returns (plot: Option<AcPlot>)
    ensures plot.None? <==> AcLabel(filename).None?
    ensures plot.Some? ==> plot.value.legend == AcLabel(filename).value
    ensures plot.Some? ==> |plot.value.freqs| == |Matches(Body(lines), MatchTriple)|
    ensures plot.Some? ==> |plot.value.onMagnitudeAxis| == |plot.value.onPhaseAxis| == |plot.value.freqs|
    ensures plot.Some? && sweep == LIN ==>
      forall k :: 0 <= k < |plot.value.freqs| ==>
        (plot.value.freqs[k], plot.value.onMagnitudeAxis[k], plot.value.onPhaseAxis[k]) == Matches(Body(lines), MatchTriple)[k]
    ensures plot.Some? && sweep == LOG ==>
      forall k :: 0 <= k < |plot.value.freqs| ==>
        (plot.value.freqs[k], plot.value.onPhaseAxis[k], plot.value.onMagnitudeAxis[k]) == Matches(Body(lines), MatchTriple)[k]
    ensures plot.Some? ==> (plot.value.ticks.Some? <==> sweep == LIN && last)
    ensures plot.Some? && plot.value.ticks.Some? ==>
      plot.value.ticks.value == XTicks(AsInts(plot.value.freqs, toInt))
  {
    var legend := AcLabel(filename);
    if legend.None? {
      return None;
    }
    var freqs, magns, phases := ReadTriples(lines);
    if sweep == LIN {
      var ticks := None;
      if last {
        ticks := Some(XTicks(AsInts(freqs, toInt)));
      }
      plot := Some(AcPlot(legend.value, freqs, magns, phases, ticks));
    } else {
      plot := Some(AcPlot(legend.value, freqs, phases, magns, None));
    }
  }
}
