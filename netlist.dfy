/**
 * The directive and element dispatch of src/parser.c: `init_parser` sets the
 * defaults, and `parse_netlist` feeds every line through `tokenizer` and then
 * sets option flags (`.OPTIONS`), fills a DC sweep slot (`.DC`), stores the
 * probed nodes of a slot and moves to the next slot (`.PLOT` / `.PRINT`), or
 * hands an element line to the element list and counts group-2 elements.
 *
 * The parser object is a class whose fields the methods update in place; the
 * datatype `Netlist` and the functions `LineEffect` / `NetlistAfter` state
 * what those updates amount to, line by line.
 *
 * Numbers read with `sscanf("%lf")` (the ITOL value, the `.DC` bounds) are
 * kept as the text handed to `sscanf`, and are stored only when that text
 * starts with a number (`ScansReal`); otherwise `sscanf` converts nothing and
 * the target keeps its value. The numeric value itself is not computed.
 */
module Netlist {
  import opened Text
  import opened Tokenizer

  /** The iterative-solver tolerance: DEFAULT_ITOL, or the text an ITOL option gave. */
  datatype Itol = DefaultItol | ItolText(text: string)

  datatype Options = Options(spd: bool, iter: bool, sparse: bool, itol: Itol)

  /**
   * One `dc_analysis[]` slot: swept source, the texts of start, end and
   * increment, and the probed nodes. None stands for a part never written.
   */
  datatype DcSlot = DcSlot(
    source: Option<string>,
    start: Option<string>,
    stop: Option<string>,
    increment: Option<string>,
    nodes: Option<seq<string>>)

  /**
   * What parsing has built so far: the options, the written DC slots, the
   * local `dc_counter`, the group-2 count and the element lines (fields
   * after the count) handed to `add_to_list`, in order.
   */
  datatype Netlist = Netlist(
    options: Options,
    slots: map<nat, DcSlot>,
    dcCounter: nat,
    numG2Elem: nat,
    elements: seq<seq<string>>)

  /** The state `init_parser` leaves. */
  function DefaultOptions(): (r: Options)
  {
    Options(false, false, false, DefaultItol)
  }

  function Initial(): (r: Netlist)
  {
    Netlist(DefaultOptions(), map[], 0, 0, [])
  }

  // ---------------------------------------------------------------------
  // .OPTIONS
  // ---------------------------------------------------------------------

  /**
   * A token that `strncmp("ITOL", tok, 4)` accepts and whose text after the
   * 5th byte `sscanf("%lf")` converts.
   */
  predicate SetsItol(tok: string)
  {
    StartsWith(tok, "ITOL") && |tok| > 5 && ScansReal(tok[5..])
  }

  /** The three tests made on one `.OPTIONS` argument, in source order. */
  function ApplyOption(o: Options, tok: string): (r: Options)
  {
    var o1 := if tok == "SPD" then o.(spd := true) else o;
    var o2 := if tok == "ITER" then o1.(iter := true) else o1;
    if SetsItol(tok) then o2.(itol := ItolText(tok[5..])) else o2
  }

  /** The options after the arguments `toks` were applied left to right. */
  function OptionsAfter(o: Options, toks: seq<string>): (r: Options)
    decreases |toks|
  {
    if toks == [] then o
    else ApplyOption(OptionsAfter(o, toks[..|toks| - 1]), toks[|toks| - 1])
  }

  /** SPD and ITER are set exactly when some argument is that exact word; SPARSE is untouched. */
  lemma {:induction false} OptionFlags(o: Options, toks: seq<string>)
    ensures OptionsAfter(o, toks).spd <==> o.spd || "SPD" in toks
    ensures OptionsAfter(o, toks).iter <==> o.iter || "ITER" in toks
    ensures OptionsAfter(o, toks).sparse == o.sparse
    decreases |toks|
  {
    if toks != [] {
      var init := toks[..|toks| - 1];
      OptionFlags(o, init);
      assert toks == init + [toks[|toks| - 1]];
    }
  }

  /** Without an ITOL setting the tolerance keeps its value. */
  lemma {:induction false} ItolUnset(o: Options, toks: seq<string>)
    requires forall k :: 0 <= k < |toks| ==> !SetsItol(toks[k])
    ensures OptionsAfter(o, toks).itol == o.itol
    decreases |toks|
  {
    if toks != [] {
      ItolUnset(o, toks[..|toks| - 1]);
    }
  }

  /** The last ITOL setting wins: the tolerance is the text after its 5th byte. */
  lemma {:induction false} ItolLastWins(o: Options, toks: seq<string>, j: nat)
    requires j < |toks| && SetsItol(toks[j])
    requires forall k :: j < k < |toks| ==> !SetsItol(toks[k])
    ensures OptionsAfter(o, toks).itol == ItolText(toks[j][5..])
    decreases |toks|
  {
    if j < |toks| - 1 {
      ItolLastWins(o, toks[..|toks| - 1], j);
    }
  }

  /** An ITOL option whose value does not start with a number leaves the tolerance as it was. */
  lemma ItolWithoutNumber(o: Options)
    ensures OptionsAfter(o, ["ITOL=abc"]).itol == o.itol
  {
    assert "ITOL=abc"[5..] == "abc";
    assert !StartsWithFold("abc", "inf") by { assert Lower("abc"[0]) != "inf"[0]; }
    assert !StartsWithFold("abc", "nan") by { assert Lower("abc"[0]) != "nan"[0]; }
    ItolUnset(o, ["ITOL=abc"]);
  }

  /** An ITOL option whose value starts with a number sets the tolerance to that text. */
  lemma ItolWithNumber(o: Options)
    ensures OptionsAfter(o, ["ITOL=1e-6"]).itol == ItolText("1e-6")
  {
    assert "ITOL=1e-6"[5..] == "1e-6";
    ItolLastWins(o, ["ITOL=1e-6"], 0);
  }

  /** A `.DC` bound that does not start with a number keeps the slot's earlier bound. */
  lemma DcBoundWithoutNumber(slot: DcSlot)
    ensures DcWrite(slot, ["0", ".DC", "V1", "x", "5", "1"]).start == slot.start
    ensures DcWrite(slot, ["0", ".DC", "V1", "x", "5", "1"]).stop == Some("5")
  {
    assert !StartsWithFold("x", "inf");
    assert !StartsWithFold("x", "nan");
  }

  // ---------------------------------------------------------------------
  // .DC and .PLOT / .PRINT
  // ---------------------------------------------------------------------

  /** C `isspace`. */
  predicate IsCSpace(c: char)
  {
    c == ' ' || 9 <= c as int <= 13
  }

  function SkipSpace(s: string): (r: string)
    decreases |s|
  {
    if s != [] && IsCSpace(s[0]) then SkipSpace(s[1..]) else s
  }

  function TakeWord(s: string): (r: string)
    decreases |s|
  {
    if s == [] || IsCSpace(s[0]) then [] else [s[0]] + TakeWord(s[1..])
  }

  /** `sscanf(tok, "%s", dst)`: the first whitespace-delimited word of `tok`. */
  function ScanWord(tok: string): (r: string)
  {
    TakeWord(SkipSpace(tok))
  }

  /** The node name of a `.PLOT` argument: first two bytes and last byte dropped. */
  function StripProbe(tok: string): (r: string)
  {
    if |tok| >= 3 then tok[2..|tok| - 1] else []
  }

  /** `V(x)` gives `x`. */
  lemma StripProbeOfVoltage(x: string)
    ensures StripProbe("V(" + x + ")") == x
  {
    var t := "V(" + x + ")";
    assert t[2..|t| - 1] == x;
  }

  function StripAll(toks: seq<string>): (nodes: seq<string>)
    ensures |nodes| == |toks|
    ensures forall k :: 0 <= k < |toks| ==> nodes[k] == StripProbe(toks[k])
  {
    seq(|toks|, k requires 0 <= k < |toks| => StripProbe(toks[k]))
  }

  /** C `tolower` on ASCII letters. */
  function Lower(c: char): (r: char)
  {
    if 'A' <= c <= 'Z' then (c as int + 32) as char else c
  }

  /** `s` starts with the lower-case word `w`, ignoring case. */
  predicate StartsWithFold(s: string, w: string)
  {
    |w| <= |s| && forall k :: 0 <= k < |w| ==> Lower(s[k]) == w[k]
  }

  /**
   * Whether `sscanf(text, "%lf", &x)` converts something, and so assigns `x`:
   * after leading white space and an optional sign comes a digit, a point
   * followed by a digit, `inf` or `nan` (in any case).
   */
  predicate ScansReal(text: string)
  {
    var t := SkipSpace(text);
    var u := if t != [] && (t[0] == '+' || t[0] == '-') then t[1..] else t;
    || (u != [] && IsDigit(u[0]))
    || (|u| >= 2 && u[0] == '.' && IsDigit(u[1]))
    || StartsWithFold(u, "inf")
    || StartsWithFold(u, "nan")
  }

  /** The target of `sscanf(text, "%lf", ...)`: `text` when it converts, else unchanged. */
  function ScanReal(previous: Option<string>, text: string): (r: Option<string>)
  {
    if ScansReal(text) then Some(text) else previous
  }

  /** What a `.DC` line writes into a slot: `sscanf` of fields 2 to 5 with `%s` and `%lf`. */
  function DcWrite(slot: DcSlot, t: seq<string>): (r: DcSlot)
  {
    slot.(source := Some(ScanWord(Arg(t, 2))),
          start := ScanReal(slot.start, Arg(t, 3)),
          stop := ScanReal(slot.stop, Arg(t, 4)),
          increment := ScanReal(slot.increment, Arg(t, 5)))
  }

  /** The four sweep parts of two slots agree. */
  predicate SameSweep(x: DcSlot, y: DcSlot)
  {
    x.source == y.source && x.start == y.start && x.stop == y.stop && x.increment == y.increment
  }

  /** A token past the end of the line's array stands for the empty string. */
  function Arg(t: seq<string>, k: nat): (r: string)
  {
    if k < |t| then t[k] else []
  }

  function FirstChar(s: string): (r: char)
  {
    if s == [] then '\0' else s[0]
  }

  function SlotAt(slots: map<nat, DcSlot>, k: nat): (r: DcSlot)
  {
    if k in slots then slots[k] else DcSlot(None, None, None, None, None)
  }

  // ---------------------------------------------------------------------
  // One line, all lines
  // ---------------------------------------------------------------------

  /** What `tokenizer` gives for a non-empty line it accepts. */
  predicate TokenLine(t: seq<string>)
  {
    |t| >= 2 && AllDigits(t[0]) && DigitsValue(t[0]) == |t| - 1
  }

  predicate IsG2Element(name: string)
  {
    var c := FirstChar(name);
    c == 'V' || c == 'v' || c == 'L' || c == 'l'
  }

  /** How `parse_netlist` dispatches on a line's first field. */
  datatype LineKind = OptionsLine | DcLine | PlotLine | OtherDirective | ElementLine

  function KindOf(head: string): (k: LineKind)
    ensures k == ElementLine <==> FirstChar(head) != '.'
    ensures k == OptionsLine <==> head == ".OPTIONS"
    ensures k == DcLine <==> head == ".DC"
    ensures k == PlotLine <==> head == ".PLOT" || head == ".PRINT"
  {
    if FirstChar(head) == '.' then
      if head == ".OPTIONS" then OptionsLine
      else if head == ".DC" then DcLine
      else if head == ".PLOT" || head == ".PRINT" then PlotLine
      else OtherDirective
    else ElementLine
  }

  /** The effect of one tokenized line on the parse. */
  function LineEffect(st: Netlist, t: seq<string>): (r: Netlist)
    requires TokenLine(t)
  {
    match KindOf(t[1])
    case OptionsLine =>
      st.(options := OptionsAfter(st.options, t[2..]))
    case DcLine =>
      st.(slots := st.slots[st.dcCounter := DcWrite(SlotAt(st.slots, st.dcCounter), t)])
    case PlotLine =>
      st.(slots := st.slots[st.dcCounter := SlotAt(st.slots, st.dcCounter).(nodes := Some(StripAll(t[2..])))],
          dcCounter := st.dcCounter + 1)
    case OtherDirective =>
      st
    case ElementLine =>
      st.(elements := st.elements + [t[1..]],
          numG2Elem := if IsG2Element(t[1]) then st.numG2Elem + 1 else st.numG2Elem)
  }

  /** `getline` never yields an empty line. */
  predicate NonEmptyLines(lines: seq<string>)
  {
    forall k :: 0 <= k < |lines| ==> |lines[k]| > 0
  }

  lemma TokenizedIsTokenLine(s: string)
    requires |s| > 0 && Tokenized(s).Some?
    ensures TokenLine(Tokenized(s).value)
  {
    TokenizedShape(s);
  }

  /** The parse after one line read: unchanged when `tokenizer` rejects it, else that line's effect. */
  function LineStep(st: Netlist, line: string): (r: Netlist)
    requires |line| > 0
  {
    match Tokenized(line)
    case None => st
    case Some(t) => TokenizedIsTokenLine(line); LineEffect(st, t)
  }

  /** The parse after every line of `lines`, skipping what `tokenizer` rejects. */
  function NetlistAfter(st: Netlist, lines: seq<string>): (r: Netlist)
    requires NonEmptyLines(lines)
    decreases |lines|
  {
    if lines == [] then st
    else LineStep(NetlistAfter(st, lines[..|lines| - 1]), lines[|lines| - 1])
  }

  /** Reading line `k` of a file extends the parse of the lines before it. */
  lemma NetlistAfterNext(st: Netlist, lines: seq<string>, k: nat)
    requires NonEmptyLines(lines) && k < |lines|
    ensures NonEmptyLines(lines[..k]) && NonEmptyLines(lines[..k + 1])
    ensures NetlistAfter(st, lines[..k + 1]) == LineStep(NetlistAfter(st, lines[..k]), lines[k])
  {
    assert lines[..k + 1][..k] == lines[..k];
  }

  /**
   * `.DC` writes the source of the current slot, and each bound whose text
   * converts; a bound that does not convert keeps its value. The slot keeps
   * its nodes and the counter does not move.
   */
  lemma DcFillsCurrentSlot(st: Netlist, t: seq<string>)
    requires TokenLine(t) && KindOf(t[1]) == DcLine
    ensures LineEffect(st, t).dcCounter == st.dcCounter
    ensures LineEffect(st, t).slots.Keys == st.slots.Keys + {st.dcCounter}
    ensures var before := SlotAt(st.slots, st.dcCounter);
      var after := LineEffect(st, t).slots[st.dcCounter];
      && after.source == Some(ScanWord(Arg(t, 2)))
      && (ScansReal(Arg(t, 3)) ==> after.start == Some(Arg(t, 3)))
      && (!ScansReal(Arg(t, 3)) ==> after.start == before.start)
      && (ScansReal(Arg(t, 4)) ==> after.stop == Some(Arg(t, 4)))
      && (!ScansReal(Arg(t, 4)) ==> after.stop == before.stop)
      && (ScansReal(Arg(t, 5)) ==> after.increment == Some(Arg(t, 5)))
      && (!ScansReal(Arg(t, 5)) ==> after.increment == before.increment)
      && after.nodes == before.nodes
    ensures forall k :: k in st.slots && k != st.dcCounter ==> LineEffect(st, t).slots[k] == st.slots[k]
    ensures LineEffect(st, t).options == st.options
    ensures LineEffect(st, t).numG2Elem == st.numG2Elem && LineEffect(st, t).elements == st.elements
  {
  }

  /**
   * `.PLOT` / `.PRINT` with `n` fields stores `n - 1` stripped node names in
   * the current slot, keeps its source and bounds, and advances the counter by one.
   */
  lemma PlotAdvancesSlot(st: Netlist, t: seq<string>)
    requires TokenLine(t) && KindOf(t[1]) == PlotLine
    ensures var r := LineEffect(st, t);
      && r.dcCounter == st.dcCounter + 1
      && r.slots[st.dcCounter].nodes.Some?
      && |r.slots[st.dcCounter].nodes.value| == |t| - 2
      && (forall k :: 0 <= k < |t| - 2 ==> r.slots[st.dcCounter].nodes.value[k] == StripProbe(t[k + 2]))
      && SameSweep(r.slots[st.dcCounter], SlotAt(st.slots, st.dcCounter))
      && (forall k :: k in st.slots && k != st.dcCounter ==> r.slots[k] == st.slots[k])
  {
  }

  /** An element line is handed on whole and counts as group 2 exactly when it names a V or L element. */
  lemma ElementLineCounted(st: Netlist, t: seq<string>)
    requires TokenLine(t) && KindOf(t[1]) == ElementLine
    ensures var r := LineEffect(st, t);
      && r.elements == st.elements + [t[1..]]
      && (r.numG2Elem == st.numG2Elem + 1 <==> IsG2Element(t[1]))
      && (r.numG2Elem == st.numG2Elem <==> !IsG2Element(t[1]))
      && r.options == st.options && r.slots == st.slots && r.dcCounter == st.dcCounter
  {
  }

  /** Whether a line is a `.PLOT` / `.PRINT` directive once tokenized. */
  predicate IsPlotLine(s: string)
  {
    Tokenized(s).Some? && |Tokenized(s).value| >= 2
    && KindOf(Tokenized(s).value[1]) == PlotLine
  }

  /** Whether a line is an element line naming a V or L element once tokenized. */
  predicate IsG2Line(s: string)
  {
    Tokenized(s).Some? && |Tokenized(s).value| >= 2
    && KindOf(Tokenized(s).value[1]) == ElementLine && IsG2Element(Tokenized(s).value[1])
  }

  function CountLines(lines: seq<string>, p: string -> bool): (r: nat)
    decreases |lines|
  {
    if lines == [] then 0
    else CountLines(lines[..|lines| - 1], p) + (if p(lines[|lines| - 1]) then 1 else 0)
  }

  /**
   * Over a whole file, `dc_counter` ends at the number of `.PLOT` / `.PRINT`
   * lines, `num_g2_elem` at the number of V/L element lines, and SPARSE is
   * never set.
   */
  lemma {:induction false} CountersOverFile(st: Netlist, lines: seq<string>)
    requires NonEmptyLines(lines)
    ensures NetlistAfter(st, lines).dcCounter == st.dcCounter + CountLines(lines, IsPlotLine)
    ensures NetlistAfter(st, lines).numG2Elem == st.numG2Elem + CountLines(lines, IsG2Line)
    ensures NetlistAfter(st, lines).options.sparse == st.options.sparse
    decreases |lines|
  {
    if lines != [] {
      var init := lines[..|lines| - 1];
      assert NonEmptyLines(init);
      CountersOverFile(st, init);
      LineCounters(NetlistAfter(st, init), lines[|lines| - 1]);
    }
  }

  /** One line read moves `dc_counter` and `num_g2_elem` by at most one each and leaves SPARSE alone. */
  lemma LineCounters(st: Netlist, line: string)
    requires |line| > 0
    ensures LineStep(st, line).dcCounter == st.dcCounter + (if IsPlotLine(line) then 1 else 0)
    ensures LineStep(st, line).numG2Elem == st.numG2Elem + (if IsG2Line(line) then 1 else 0)
    ensures LineStep(st, line).options.sparse == st.options.sparse
  {
    match Tokenized(line)
    case None =>
    case Some(t) =>
      TokenizedIsTokenLine(line);
      OptionFlags(st.options, t[2..]);
  }

  // ---------------------------------------------------------------------
  // The parser object
  // ---------------------------------------------------------------------

  /** The `.PLOT` / `.PRINT` loop: every argument, in order, with `V(` and `)` dropped. */
  method StripNodes(args: seq<string>) returns (nodes: seq<string>)
    ensures |nodes| == |args|
    ensures forall k :: 0 <= k < |args| ==> nodes[k] == StripProbe(args[k])
  {
    nodes := [];
    var i := 0;
    while i < |args|
      invariant 0 <= i <= |args|
      invariant |nodes| == i
      invariant forall k :: 0 <= k < i ==> nodes[k] == StripProbe(args[k])
    {
      nodes := nodes + [StripProbe(args[i])];
      i := i + 1;
    }
  }

  class Parser {
    // parser->options
    var spd: bool
    var iter: bool
    var sparse: bool
    var itol: Itol
    // parser->dc_analysis
    var slots: map<nat, DcSlot>
    // parser->netlist_elem
    var dcCounter: nat
    var numNodes: int
    var numG2Elem: nat
    /** The element lines handed to `add_to_list`, in order. */
    var elements: seq<seq<string>>

    function Opts(): (r: Options)
      reads this
    {
      Options(spd, iter, sparse, itol)
    }

    /** The parse state, with the caller's local `dc_counter`. */
    function State(dc: nat): (r: Netlist)
      reads this
    {
      Netlist(Opts(), slots, dc, numG2Elem, elements)
    }

    /** `init_parser`. */
    constructor ()
      ensures Opts() == DefaultOptions()
      ensures State(0) == Initial()
      ensures dcCounter == 0 && numNodes == 0
    {
      spd, iter, sparse, itol := false, false, false, DefaultItol;
      slots := map[];
      dcCounter, numNodes, numG2Elem := 0, 0, 0;
      elements := [];
    }

    /** The `.OPTIONS` loop over `tokens[2..num_tokens]`. */
    method ApplyOptions(args: seq<string>)
      modifies this
      ensures Opts() == OptionsAfter(old(Opts()), args)
      ensures slots == old(slots) && numG2Elem == old(numG2Elem) && elements == old(elements)
      ensures dcCounter == old(dcCounter) && numNodes == old(numNodes)
    {
      var i := 0;
      while i < |args|
        invariant 0 <= i <= |args|
        invariant Opts() == OptionsAfter(old(Opts()), args[..i])
        invariant slots == old(slots) && numG2Elem == old(numG2Elem) && elements == old(elements)
        invariant dcCounter == old(dcCounter) && numNodes == old(numNodes)
      {
        var tok := args[i];
        if tok == "SPD" {
          spd := true;
        }
        if tok == "ITER" {
          iter := true;
        }
        if StartsWith(tok, "ITOL") && |tok| > 5 && ScansReal(tok[5..]) {
          itol := ItolText(tok[5..]);
        }
        assert args[..i + 1][..i] == args[..i];
        i := i + 1;
      }
      assert args[..i] == args;
    }

    /** The body of the `parse_netlist` loop: tokenize the line read, then dispatch it if accepted. */
    method ParseLine(line: string, dc: nat) returns (dc': nat)
      requires |line| > 0
      modifies this
      ensures State(dc') == LineStep(old(State(dc)), line)
      ensures dcCounter == old(dcCounter) && numNodes == old(numNodes)
    {
      dc' := dc;
      var buf := new char[|line|](i requires 0 <= i < |line| => line[i]);
      assert buf[..] == line;
      var tokens := Tokenize(buf);
      match tokens {
        case None =>
        case Some(t) =>
          TokenizedIsTokenLine(line);
          dc' := ParseTokens(t, dc);
      }
    }

    /** The body of the `parse_netlist` loop for one accepted line: dispatch on the first field. */
    method ParseTokens(tokens: seq<string>, dc: nat) returns (dc': nat)
      requires TokenLine(tokens)
      modifies this
      ensures State(dc') == LineEffect(old(State(dc)), tokens)
      ensures dcCounter == old(dcCounter) && numNodes == old(numNodes)
    {
      dc' := dc;
      var head := tokens[1];
      if FirstChar(head) == '.' {
        if head == ".OPTIONS" {
          ParseOptionsLine(tokens, dc);
        } else if head == ".DC" {
          ParseDcLine(tokens, dc);
        } else if head == ".PLOT" || head == ".PRINT" {
          dc' := ParsePlotLine(tokens, dc);
        } else {
          assert KindOf(head) == OtherDirective;
        }
      } else {
        ParseElementLine(tokens, dc);
      }
    }

    method ParseOptionsLine(tokens: seq<string>, dc: nat)
      requires TokenLine(tokens) && KindOf(tokens[1]) == OptionsLine
      modifies this
      ensures State(dc) == LineEffect(old(State(dc)), tokens)
      ensures dcCounter == old(dcCounter) && numNodes == old(numNodes)
    {
      var numTokens := DigitsValue(tokens[0]);
      ApplyOptions(tokens[2..numTokens + 1]);
      assert tokens[2..numTokens + 1] == tokens[2..];
    }

    method ParseDcLine(tokens: seq<string>, dc: nat)
      requires TokenLine(tokens) && KindOf(tokens[1]) == DcLine
      modifies this
      ensures State(dc) == LineEffect(old(State(dc)), tokens)
      ensures dcCounter == old(dcCounter) && numNodes == old(numNodes)
    {
      var slot := SlotAt(slots, dc);
      slot := slot.(source := Some(ScanWord(Arg(tokens, 2))));
      if ScansReal(Arg(tokens, 3)) {
        slot := slot.(start := Some(Arg(tokens, 3)));
      }
      if ScansReal(Arg(tokens, 4)) {
        slot := slot.(stop := Some(Arg(tokens, 4)));
      }
      if ScansReal(Arg(tokens, 5)) {
        slot := slot.(increment := Some(Arg(tokens, 5)));
      }
      slots := slots[dc := slot];
    }

    method ParsePlotLine(tokens: seq<string>, dc: nat) returns (dc': nat)
      requires TokenLine(tokens) && KindOf(tokens[1]) == PlotLine
      modifies this
      ensures State(dc') == LineEffect(old(State(dc)), tokens)
      ensures dcCounter == old(dcCounter) && numNodes == old(numNodes)
    {
      var numTokens := DigitsValue(tokens[0]);
      var nodes := StripNodes(tokens[2..numTokens + 1]);
      assert tokens[2..numTokens + 1] == tokens[2..];
      assert nodes == StripAll(tokens[2..]);
      slots := slots[dc := SlotAt(slots, dc).(nodes := Some(nodes))];
      dc' := dc + 1;
    }

    method ParseElementLine(tokens: seq<string>, dc: nat)
      requires TokenLine(tokens) && KindOf(tokens[1]) == ElementLine
      modifies this
      ensures State(dc) == LineEffect(old(State(dc)), tokens)
      ensures dcCounter == old(dcCounter) && numNodes == old(numNodes)
    {
      elements := elements + [tokens[1..]];
      var c := FirstChar(tokens[1]);
      if c == 'V' || c == 'v' || c == 'L' || c == 'l' {
        numG2Elem := numG2Elem + 1;
      }
    }
  }

  /**
   * `parse_netlist` over the lines of a file. `hashSeq` is the node counter
   * the element list's hash table ends with (`hash_table->seq`).
   */
  method ParseNetlist(lines: seq<string>, hashSeq: int) returns (parser: Parser)
    requires NonEmptyLines(lines)
    ensures fresh(parser)
    ensures parser.State(parser.dcCounter) == NetlistAfter(Initial(), lines)
    ensures parser.numNodes == hashSeq - 1
  {
    parser := new Parser();
    var dcCounter: nat := 0;
    var k := 0;
    while k < |lines|
      invariant 0 <= k <= |lines|
      invariant NonEmptyLines(lines[..k])
      invariant parser.State(dcCounter) == NetlistAfter(Initial(), lines[..k])
      modifies parser
    {
      NetlistAfterNext(Initial(), lines, k);
      dcCounter := parser.ParseLine(lines[k], dcCounter);
      k := k + 1;
    }
    assert lines[..k] == lines;
    parser.dcCounter := dcCounter;
    parser.numNodes := hashSeq - 1;
  }
}
