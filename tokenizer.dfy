/**
 * The netlist line scanner of src/parser.c: `get_num_tokens`, which counts the
 * fields of a line with a one-flag state machine and rewrites a leading tab in
 * place, and `tokenizer`, which drops comment and empty lines and splits the
 * rest into a counted field array.
 *
 * A line is an `array<char>` whose cells are the bytes before the C string's
 * terminator. The comparison `line[i] > 32` is on a signed `char`, so only the
 * codes 33..127 count as printable; every other byte that is neither a space
 * nor a tab (`'\r'`, `'\n'`, the codes 128..255, ...) leaves the flag alone.
 */
module Tokenizer {
  import opened Text

  /** The delimiters of `strtok` and of the counter. */
  predicate IsBlank(c: char)
  {
    c == ' ' || c == '\t'
  }

  /** `line[i] > 32` on a signed char. */
  predicate IsVisible(c: char)
  {
    ' ' < c && c as int <= 127
  }

  /** A line whose bytes are only blanks and printable characters. */
  predicate Clean(s: string)
  {
    forall k :: 0 <= k < |s| ==> IsBlank(s[k]) || IsVisible(s[k])
  }

  // ---------------------------------------------------------------------
  // get_num_tokens
  // ---------------------------------------------------------------------

  /**
   * Tokens counted over `s` when the flag `found_char` starts as `found`:
   * a blank clears the flag, a printable byte with the flag clear counts one
   * and sets it, any other byte changes nothing.
   */
  function TokensIn(s: string, found: bool): (r: nat)
    decreases |s|
  {
    if s == [] then 0
    else if IsBlank(s[0]) then TokensIn(s[1..], false)
    else if IsVisible(s[0]) then (if found then 0 else 1) + TokensIn(s[1..], true)
    else TokensIn(s[1..], found)
  }

  /**
   * What `get_num_tokens` returns. Position 0 is special: any non-blank byte
   * there opens a token. On the empty string the C code inspects the
   * terminator, which is not a space, and so answers 1.
   */
  function NumTokens(s: string): (r: nat)
  {
    if s == [] then 1
    else if IsBlank(s[0]) then TokensIn(s[1..], false)
    else 1 + TokensIn(s[1..], true)
  }

  /** The line after `get_num_tokens` turned a leading tab into a space. */
  function LeadingTabToSpace(s: string): (r: string)
    ensures |r| == |s|
    ensures forall k :: 1 <= k < |s| ==> r[k] == s[k]
    ensures |s| > 0 && s[0] == '\t' ==> r[0] == ' '
    ensures |s| > 0 && s[0] != '\t' ==> r[0] == s[0]
  {
    if |s| > 0 && s[0] == '\t' then [' '] + s[1..] else s
  }

  method GetNumTokens(line: array<char>) returns (tokens: nat)
    modifies line
    ensures line[..] == LeadingTabToSpace(old(line[..]))
    ensures tokens == NumTokens(old(line[..]))
  {
    ghost var s := line[..];
    var len := line.Length;
    if len > 0 && line[0] == '\t' {
      line[0] := ' ';
    }
    var found := len == 0 || line[0] != ' ';
    tokens := if found then 1 else 0;
    var i := 1;
    assert len > 0 ==> line[1..] == s[1..] && (found <==> !IsBlank(s[0]));
    while i < len
      invariant line[..] == LeadingTabToSpace(s)
      invariant len == 0 ==> tokens == 1
      invariant len > 0 ==> 1 <= i <= len
      invariant len > 0 ==> tokens + TokensIn(line[i..], found) == NumTokens(s)
    {
      assert line[i..] == [line[i]] + line[i + 1..];
      if line[i] == ' ' || line[i] == '\t' {
        found := false;
      } else if IsVisible(line[i]) {
        if !found {
          tokens := tokens + 1;
          found := true;
        }
      }
      i := i + 1;
    }
    assert len > 0 ==> line[i..] == [];
  }

  /** A line of spaces and tabs only counts no token. */
  lemma {:induction false} BlankLineHasNoTokens(s: string)
    requires |s| > 0
    requires forall k :: 0 <= k < |s| ==> IsBlank(s[k])
    ensures NumTokens(s) == 0
  {
    BlankRunHasNoTokens(s[1..]);
  }

  lemma {:induction false} BlankRunHasNoTokens(s: string)
    requires forall k :: 0 <= k < |s| ==> IsBlank(s[k])
    ensures TokensIn(s, false) == 0
    decreases |s|
  {
    if s != [] {
      BlankRunHasNoTokens(s[1..]);
    }
  }

  /**
   * A byte that is neither blank nor printable (`'\r'`, `'\n'`, ...) never
   * opens a token after position 0: inserting one anywhere after the first
   * byte leaves the count unchanged.
   */
  lemma {:induction false} ControlByteIgnored(a: string, c: char, b: string)
    requires |a| >= 1
    requires !IsBlank(c) && !IsVisible(c)
    ensures NumTokens(a + [c] + b) == NumTokens(a + b)
  {
    assert (a + [c] + b)[0] == a[0] && (a + b)[0] == a[0];
    assert (a + [c] + b)[1..] == a[1..] + [c] + b;
    assert (a + b)[1..] == a[1..] + b;
    ControlByteIgnoredIn(a[1..], c, b, true);
    ControlByteIgnoredIn(a[1..], c, b, false);
  }

  lemma {:induction false} ControlByteIgnoredIn(x: string, c: char, b: string, found: bool)
    requires !IsBlank(c) && !IsVisible(c)
    ensures TokensIn(x + [c] + b, found) == TokensIn(x + b, found)
    decreases |x|
  {
    if x == [] {
      assert x + [c] + b == [c] + b;
      assert ([c] + b)[1..] == b;
      assert x + b == b;
    } else {
      assert (x + [c] + b)[1..] == x[1..] + [c] + b;
      assert (x + b)[1..] == x[1..] + b;
      ControlByteIgnoredIn(x[1..], c, b, true);
      ControlByteIgnoredIn(x[1..], c, b, false);
    }
  }

  // ---------------------------------------------------------------------
  // strtok's fields
  // ---------------------------------------------------------------------

  /** Length of the run of non-blank bytes at the start of `s`. */
  function WordLen(s: string): (w: nat)
    ensures w <= |s|
    ensures s != [] && !IsBlank(s[0]) ==> w >= 1
    decreases |s|
  {
    if s == [] || IsBlank(s[0]) then 0 else 1 + WordLen(s[1..])
  }

  /**
   * The successive results of `strtok(line, " \t")`: the maximal runs of
   * non-blank bytes, left to right.
   */
  function Fields(s: string): (r: seq<string>)
    decreases |s|
  {
    if s == [] then []
    else if IsBlank(s[0]) then Fields(s[1..])
    else
      var w := WordLen(s);
      [s[..w]] + Fields(s[w..])
  }

  predicate IsWord(w: string)
  {
    |w| > 0 && forall k :: 0 <= k < |w| ==> !IsBlank(w[k])
  }

  lemma {:induction false} WordLenIsRun(s: string)
    ensures forall k :: 0 <= k < WordLen(s) ==> !IsBlank(s[k])
    ensures WordLen(s) < |s| ==> IsBlank(s[WordLen(s)])
    decreases |s|
  {
    if s != [] && !IsBlank(s[0]) {
      WordLenIsRun(s[1..]);
    }
  }

  /** Every field is non-empty and holds no blank. */
  lemma {:induction false} FieldsAreWords(s: string)
    ensures forall i :: 0 <= i < |Fields(s)| ==> IsWord(Fields(s)[i])
    decreases |s|
  {
    if s != [] {
      if IsBlank(s[0]) {
        FieldsAreWords(s[1..]);
      } else {
        WordLenIsRun(s);
        FieldsAreWords(s[WordLen(s)..]);
      }
    }
  }

  /** A word followed by nothing or by a blank is the first field. */
  lemma {:induction false} FieldsOfWordThen(w: string, t: string)
    requires IsWord(w)
    requires t == [] || IsBlank(t[0])
    ensures Fields(w + t) == [w] + Fields(t)
  {
    WordLenOfWordThen(w, t);
    assert (w + t)[..|w|] == w;
    assert (w + t)[|w|..] == t;
  }

  lemma {:induction false} WordLenOfWordThen(w: string, t: string)
    requires forall k :: 0 <= k < |w| ==> !IsBlank(w[k])
    requires t == [] || IsBlank(t[0])
    ensures WordLen(w + t) == |w|
    decreases |w|
  {
    if w == [] {
      assert w + t == t;
    } else {
      assert (w + t)[1..] == w[1..] + t;
      WordLenOfWordThen(w[1..], t);
    }
  }

  /** Splitting words joined by single spaces gives the words back. */
  lemma {:induction false} FieldsOfSpaced(ws: seq<string>)
    requires |ws| >= 1
    requires forall i :: 0 <= i < |ws| ==> IsWord(ws[i])
    ensures Fields(Join(ws, ' ')) == ws
    decreases |ws|
  {
    if |ws| == 1 {
      FieldsOfWordThen(ws[0], []);
      assert ws[0] + [] == ws[0];
    } else {
      var rest := Join(ws[1..], ' ');
      FieldsOfSpaced(ws[1..]);
      assert ([' '] + rest)[1..] == rest;
      assert Fields([' '] + rest) == Fields(rest);
      FieldsOfWordThen(ws[0], [' '] + rest);
      assert Join(ws, ' ') == ws[0] + ([' '] + rest);
      assert [ws[0]] + ws[1..] == ws;
    }
  }

  /** Rewriting a leading tab to a space does not move any field boundary. */
  lemma FieldsIgnoreLeadingTab(s: string)
    ensures Fields(LeadingTabToSpace(s)) == Fields(s)
  {
    if |s| > 0 && s[0] == '\t' {
      assert LeadingTabToSpace(s)[1..] == s[1..];
    }
  }

  /** 1 when `s` starts inside a field. */
  function Lead(s: string): (r: nat)
  {
    if s != [] && !IsBlank(s[0]) then 1 else 0
  }

  /** Dropping the first byte of a field loses that field only if it was its last byte. */
  lemma FieldsTail(s: string)
    requires s != [] && !IsBlank(s[0])
    ensures |Fields(s)| == |Fields(s[1..])| + 1 - Lead(s[1..])
  {
    var w := WordLen(s);
    if w > 1 {
      var t := s[1..];
      assert WordLen(t) == w - 1;
      assert t[w - 1..] == s[w..];
    }
  }

  /** The flag machine never counts more tokens than there are fields; on clean text it counts exactly the fields. */
  lemma {:induction false} TokensInBound(s: string)
    ensures TokensIn(s, false) <= |Fields(s)|
    ensures TokensIn(s, true) + Lead(s) <= |Fields(s)|
    ensures Clean(s) ==> TokensIn(s, false) == |Fields(s)|
    ensures Clean(s) ==> TokensIn(s, true) + Lead(s) == |Fields(s)|
    decreases |s|
  {
    if s != [] {
      TokensInBound(s[1..]);
      assert Clean(s) ==> Clean(s[1..]);
      if !IsBlank(s[0]) {
        FieldsTail(s);
      }
    }
  }

  /** `get_num_tokens` never exceeds the number of fields of a non-empty line. */
  lemma NumTokensAtMostFields(s: string)
    requires |s| > 0
    ensures NumTokens(s) <= |Fields(s)|
  {
    TokensInBound(s[1..]);
    if !IsBlank(s[0]) {
      FieldsTail(s);
    }
  }

  /**
   * On a line whose bytes after the first are spaces, tabs or printable, the
   * count is the number of maximal runs of non-blank bytes.
   */
  lemma CountIsFieldCount(s: string)
    requires |s| > 0
    requires Clean(s[1..])
    ensures NumTokens(s) == |Fields(s)|
  {
    TokensInBound(s[1..]);
    if !IsBlank(s[0]) {
      FieldsTail(s);
    }
  }

  // ---------------------------------------------------------------------
  // tokenizer
  // ---------------------------------------------------------------------

  /** Lines `tokenizer` rejects before counting: comments, empty lines. */
  predicate Skipped(s: string)
  {
    (|s| > 0 && (s[0] == '*' || s[0] == '\n')) || s == "\r\n"
  }

  /** A field with one trailing newline removed. */
  function TrimNewline(w: string): (r: string)
    ensures EndsWith(w, "\n") ==> r + "\n" == w
    ensures !EndsWith(w, "\n") ==> r == w
  {
    if EndsWith(w, "\n") then w[..|w| - 1] else w
  }

  /** The fields with a trailing newline removed from the last one only. */
  function TrimLast(ws: seq<string>): (r: seq<string>)
    ensures |r| == |ws|
    ensures forall i :: 0 <= i < |ws| - 1 ==> r[i] == ws[i]
    ensures |ws| > 0 ==> r[|ws| - 1] == TrimNewline(ws[|ws| - 1])
  {
    if ws == [] then [] else ws[..|ws| - 1] + [TrimNewline(ws[|ws| - 1])]
  }

  function Min(a: nat, b: nat): (r: nat)
  {
    if a <= b then a else b
  }

  /**
   * The array `tokenizer` returns, or None for NULL: the decimal count first,
   * then the first `count` fields (fewer only if the line runs out of them),
   * the last with its trailing newline removed.
   */
  function Tokenized(s: string): (r: Option<seq<string>>)
  {
    if Skipped(s) then None
    else
      var n := NumTokens(s);
      if n == 0 then None
      else Some([Decimal(n)] + TrimLast(Fields(s)[..Min(n, |Fields(s)|)]))
  }

  /**
   * `tokenizer`: reject skipped lines and lines that count no token, then
   * collect up to `count` `strtok` fields and trim the last one's newline.
   * The fields are taken from the specification function `Fields` rather
   * than found by walking the line as `strtok` does; how a line splits into
   * fields rests on `Fields` and its lemmas, and the loop here only copies them.
   */
  method Tokenize(line: array<char>) returns (tokens: Option<seq<string>>)
    modifies line
    ensures line[..] == LeadingTabToSpace(old(line[..]))
    ensures tokens == Tokenized(old(line[..]))
  {
    if (line.Length > 0 && (line[0] == '*' || line[0] == '\n')) || line[..] == "\r\n" {
      return None;
    }
    ghost var s := line[..];
    var n := GetNumTokens(line);
    if n == 0 {
      return None;
    }
    FieldsIgnoreLeadingTab(s);
    var fields := Fields(line[..]);
    var collected: seq<string> := [];
    var i := 1;
    while i - 1 < |fields| && i <= n
      invariant 1 <= i <= n + 1 && i - 1 <= |fields|
      invariant collected == fields[..i - 1]
    {
      collected := collected + [fields[i - 1]];
      i := i + 1;
    }
    assert i - 1 == Min(n, |fields|);
    ghost var taken := collected;
    if |collected| > 0 && EndsWith(collected[|collected| - 1], "\n") {
      var last := collected[|collected| - 1];
      collected := collected[..|collected| - 1] + [last[..|last| - 1]];
    }
    assert collected == TrimLast(taken);
    tokens := Some([Decimal(n)] + collected);
  }

  /** Comment lines, lines starting with a newline, CRLF and blank lines give no tokens. */
  lemma TokenizedRejects(s: string)
    requires Skipped(s) || (|s| > 0 && forall k :: 0 <= k < |s| ==> IsBlank(s[k]))
    ensures Tokenized(s) == None
  {
    if !Skipped(s) {
      BlankLineHasNoTokens(s);
    }
  }

  /**
   * Shape of an accepted non-empty line: the count, readable back as the
   * number `n` of fields that follow, and the line's first `n` fields in
   * order, the last one without its trailing newline.
   */
  lemma TokenizedShape(s: string)
    requires |s| > 0 && Tokenized(s).Some?
    ensures var t := Tokenized(s).value; var n := NumTokens(s);
      && n >= 1 && |t| == n + 1
      && AllDigits(t[0]) && DigitsValue(t[0]) == n
      && (forall k :: 1 <= k < n ==> t[k] == Fields(s)[k - 1])
      && t[n] == TrimNewline(Fields(s)[n - 1])
  {
    var n := NumTokens(s);
    var f := Fields(s);
    NumTokensAtMostFields(s);
    assert Min(n, |f|) == n;
    var taken := f[..n];
    assert Tokenized(s).value == [Decimal(n)] + TrimLast(taken);
    CountThenTrimmed(Decimal(n), taken);
    DecimalRoundTrip(n);
  }

  lemma CountThenTrimmed(count: string, ws: seq<string>)
    requires |ws| >= 1
    ensures var t := [count] + TrimLast(ws);
      && |t| == |ws| + 1 && t[0] == count
      && (forall k :: 1 <= k < |ws| ==> t[k] == ws[k - 1])
      && t[|ws|] == TrimNewline(ws[|ws| - 1])
  {
  }

  /** On a clean line every field is returned. */
  lemma TokenizedCleanLine(s: string)
    requires |s| > 0 && Clean(s[1..]) && !Skipped(s) && !IsBlank(s[0])
    ensures Tokenized(s) == Some([Decimal(|Fields(s)|)] + TrimLast(Fields(s)))
  {
    CountIsFieldCount(s);
    assert Fields(s)[..|Fields(s)|] == Fields(s);
  }

  /**
   * A clean line as `getline` delivers it, ending in its newline: every
   * field comes back, and the newline glued to the last byte is trimmed
   * away, whether that byte ends a field or is a blank.
   */
  lemma TokenizedLineWithNewline(s: string)
    requires |s| > 0 && Clean(s[1..]) && !IsBlank(s[0])
    requires s[0] != '*' && s[0] != '\n' && s != "\r"
    ensures Tokenized(s + "\n") == Some([Decimal(|Fields(s)|)] + Fields(s))
  {
    assert !Skipped(s + "\n") by {
      assert (s + "\n")[0] == s[0];
      assert (s + "\n")[..|s|] == s;
    }
    NewlineKeepsCount(s);
    NewlineTrimmedFromFields(s);
  }

  lemma NewlineKeepsCount(s: string)
    requires |s| > 0 && Clean(s[1..])
    ensures NumTokens(s + "\n") == |Fields(s)|
  {
    ControlByteIgnored(s, '\n', []);
    assert s + ['\n'] + [] == s + "\n" && s + [] == s;
    CountIsFieldCount(s);
  }

  /** The first `|Fields(s)|` fields of the line with its newline, last one trimmed, are the fields of the line. */
  lemma NewlineTrimmedFromFields(s: string)
    requires |s| > 0 && Clean(s[1..]) && !IsBlank(s[0]) && s[0] != '\n'
    ensures var f := Fields(s); var g := Fields(s + "\n");
      |f| >= 1 && TrimLast(g[..Min(|f|, |g|)]) == f
  {
    FieldsTail(s);
    if !IsBlank(s[|s| - 1]) {
      NewlineAfterWord(s);
    } else {
      NewlineAfterBlank(s);
    }
  }

  lemma NewlineAfterWord(s: string)
    requires s != [] && !IsBlank(s[|s| - 1])
    ensures var f := Fields(s); var g := Fields(s + "\n");
      |f| >= 1 && TrimLast(g[..Min(|f|, |g|)]) == f
  {
    var f := Fields(s);
    var g := Fields(s + "\n");
    FieldsSnocAfterWord(s, '\n');
    assert g[..Min(|f|, |g|)] == g;
    TrimLastOfNewlined(f);
  }

  lemma NewlineAfterBlank(s: string)
    requires |s| > 0 && Clean(s[1..]) && !IsBlank(s[0]) && s[0] != '\n'
    requires IsBlank(s[|s| - 1])
    ensures var f := Fields(s); var g := Fields(s + "\n");
      |f| >= 1 && TrimLast(g[..Min(|f|, |g|)]) == f
  {
    var f := Fields(s);
    var g := Fields(s + "\n");
    FieldsTail(s);
    FieldsSnocAfterBlank(s, '\n');
    assert g[..Min(|f|, |g|)] == f;
    NoNewlineInFields(s);
    TrimLastUnchanged(f);
  }

  lemma TrimLastUnchanged(ws: seq<string>)
    requires |ws| > 0 && !EndsWith(ws[|ws| - 1], "\n")
    ensures TrimLast(ws) == ws
  {
  }

  lemma TrimLastOfNewlined(ws: seq<string>)
    requires |ws| > 0
    ensures TrimLast(ws[..|ws| - 1] + [ws[|ws| - 1] + "\n"]) == ws
  {
    var r := TrimNewline(ws[|ws| - 1] + "\n");
    assert r == (r + "\n")[..|r|];
  }

  /** Appending a non-blank byte after a blank, or to nothing, opens a new field. */
  lemma {:induction false} FieldsSnocAfterBlank(s: string, c: char)
    requires !IsBlank(c)
    requires s == [] || IsBlank(s[|s| - 1])
    ensures Fields(s + [c]) == Fields(s) + [[c]]
    decreases |s|
  {
    if s == [] {
      FieldsOfWordThen([c], []);
      assert s + [c] == [c] + [];
    } else if IsBlank(s[0]) {
      assert (s + [c])[1..] == s[1..] + [c];
      FieldsSnocAfterBlank(s[1..], c);
    } else {
      var w := WordLen(s);
      WordLenIsRun(s);
      var t := s[w..];
      assert s[..w] + t == s;
      assert s[..w] + (t + [c]) == s + [c];
      assert t[|t| - 1] == s[|s| - 1];
      FieldsSnocAfterBlank(t, c);
      FieldsOfWordThen(s[..w], t);
      FieldsOfWordThen(s[..w], t + [c]);
    }
  }

  /** Appending a non-blank byte right after a field extends that field. */
  lemma {:induction false} FieldsSnocAfterWord(s: string, c: char)
    requires !IsBlank(c)
    requires s != [] && !IsBlank(s[|s| - 1])
    ensures |Fields(s)| > 0
    ensures Fields(s + [c]) == Fields(s)[..|Fields(s)| - 1] + [Fields(s)[|Fields(s)| - 1] + [c]]
    decreases |s|
  {
    if IsBlank(s[0]) {
      assert (s + [c])[1..] == s[1..] + [c];
      FieldsSnocAfterWord(s[1..], c);
    } else {
      var w := WordLen(s);
      WordLenIsRun(s);
      if w == |s| {
        WordExtended(s, c);
      } else {
        var t := s[w..];
        assert s[..w] + t == s;
        assert s[..w] + (t + [c]) == s + [c];
        assert t[|t| - 1] == s[|s| - 1];
        FieldsSnocAfterWord(t, c);
        FieldsOfWordThen(s[..w], t);
        FieldsOfWordThen(s[..w], t + [c]);
        LastExtendedUnderCons(s[..w], Fields(t), Fields(t + [c]), c);
      }
    }
  }

  lemma WordExtended(w: string, c: char)
    requires IsWord(w) && !IsBlank(c)
    ensures Fields(w) == [w] && Fields(w + [c]) == [w + [c]]
  {
    FieldsOfWordThen(w, []);
    FieldsOfWordThen(w + [c], []);
    assert w + [] == w && w + [c] + [] == w + [c];
  }

  lemma LastExtendedUnderCons(u: string, a: seq<string>, b: seq<string>, c: char)
    requires |a| > 0 && b == a[..|a| - 1] + [a[|a| - 1] + [c]]
    ensures [u] + b == ([u] + a)[..|a|] + [([u] + a)[|a|] + [c]]
  {
    assert ([u] + a)[..|a|] == [u] + a[..|a| - 1];
  }

  /** A line without a newline byte has no field holding one. */
  lemma {:induction false} NoNewlineInFields(s: string)
    requires |s| > 0 && Clean(s[1..]) && s[0] != '\n'
    ensures forall i :: 0 <= i < |Fields(s)| ==> !EndsWith(Fields(s)[i], "\n")
  {
    assert forall k :: 0 <= k < |s| ==> s[k] != '\n' by {
      forall k | 0 <= k < |s|
        ensures s[k] != '\n'
      {
        if k > 0 {
          assert s[k] == s[1..][k - 1];
        }
      }
    }
    FieldsAvoid(s, '\n');
  }

  lemma {:induction false} FieldsAvoid(s: string, c: char)
    requires forall k :: 0 <= k < |s| ==> s[k] != c
    ensures forall i :: 0 <= i < |Fields(s)| ==> !EndsWith(Fields(s)[i], [c])
    decreases |s|
  {
    if s != [] {
      if IsBlank(s[0]) {
        FieldsAvoid(s[1..], c);
      } else {
        var w := WordLen(s);
        FieldsAvoid(s[w..], c);
        assert s[..w][w - 1] == s[w - 1];
      }
    }
  }
}
