/**
 * String helpers shared by the netlist parser (C) and the plotting script
 * (Python): an option type, substring search (Python's `in`), splitting on
 * one separator character (Python's `str.split`), and decimal rendering and
 * reading of natural numbers (`sprintf("%d")` / `sscanf("%d")`, `str(n)`).
 * A `char` stands for one byte of the files these programs read.
 */
module Text {

  datatype Option<+T> = None | Some(value: T)

  predicate StartsWith(s: string, prefix: string)
  {
    |prefix| <= |s| && s[..|prefix|] == prefix
  }

  predicate EndsWith(s: string, suffix: string)
  {
    |suffix| <= |s| && s[|s| - |suffix|..] == suffix
  }

  /** Python's `p in s` for strings: `p` occurs somewhere in `s`. */
  predicate Contains(s: string, p: string)
    decreases |s|
  {
    StartsWith(s, p) || (|s| > 0 && Contains(s[1..], p))
  }

  /** `p` sits in `s` at offset `i`. */
  predicate OccursAt(s: string, p: string, i: int)
  {
    0 <= i && i + |p| <= |s| && s[i..i + |p|] == p
  }

  /** `Contains` holds exactly when `p` sits at some offset of `s`. */
  lemma {:induction false} ContainsAt(s: string, p: string)
    ensures Contains(s, p) <==> exists i :: OccursAt(s, p, i)
    decreases |s|
  {
    if StartsWith(s, p) {
      assert OccursAt(s, p, 0);
    } else if |s| == 0 {
    } else {
      ContainsAt(s[1..], p);
      if exists i :: OccursAt(s, p, i) {
        var i :| OccursAt(s, p, i);
        assert i != 0;
        assert s[1..][i - 1..i - 1 + |p|] == s[i..i + |p|];
        assert OccursAt(s[1..], p, i - 1);
      }
      if Contains(s[1..], p) {
        var j :| OccursAt(s[1..], p, j);
        assert s[j + 1..j + 1 + |p|] == s[1..][j..j + |p|];
        assert OccursAt(s, p, j + 1);
      }
    }
  }

  /** A string that contains `p` still contains it after something is put in front. */
  lemma ContainsAfter(a: string, b: string, p: string)
    requires Contains(b, p)
    ensures Contains(a + b, p)
  {
    ContainsAt(b, p);
    var i :| OccursAt(b, p, i);
    assert (a + b)[|a| + i..|a| + i + |p|] == b[i..i + |p|];
    assert OccursAt(a + b, p, |a| + i);
    ContainsAt(a + b, p);
  }

  // ---------------------------------------------------------------------
  // Splitting on a separator (Python's str.split(sep))
  // ---------------------------------------------------------------------

  /** The pieces of `s` between occurrences of `sep`; never empty. */
  function Split(s: string, sep: char): (parts: seq<string>)
    ensures |parts| >= 1
    decreases |s|
  {
    if s == [] then [[]]
    else
      var rest := Split(s[1..], sep);
      if s[0] == sep then [[]] + rest
      else [[s[0]] + rest[0]] + rest[1..]
  }

  /** The pieces glued back together with `sep` between them. */
  function Join(parts: seq<string>, sep: char): (r: string)
    requires |parts| >= 1
    decreases |parts|
  {
    if |parts| == 1 then parts[0] else parts[0] + [sep] + Join(parts[1..], sep)
  }

  predicate Free(s: string, sep: char)
  {
    forall k :: 0 <= k < |s| ==> s[k] != sep
  }

  /** No piece of a split contains the separator. */
  lemma {:induction false} SplitPiecesFree(s: string, sep: char)
    ensures forall i :: 0 <= i < |Split(s, sep)| ==> Free(Split(s, sep)[i], sep)
    decreases |s|
  {
    if s != [] {
      SplitPiecesFree(s[1..], sep);
    }
  }

  /** Joining the pieces of a split gives back the string. */
  lemma {:induction false} JoinSplit(s: string, sep: char)
    ensures Join(Split(s, sep), sep) == s
    decreases |s|
  {
    if s != [] {
      var rest := Split(s[1..], sep);
      JoinSplit(s[1..], sep);
      if s[0] == sep {
        JoinEmptyFirst(rest, sep);
      } else {
        JoinExtendFirst(s[0], rest, sep);
      }
      assert s == [s[0]] + s[1..];
    }
  }

  /** An empty first piece puts a separator in front of the rest. */
  lemma JoinEmptyFirst(rest: seq<string>, sep: char)
    requires |rest| >= 1
    ensures Join([[]] + rest, sep) == [sep] + Join(rest, sep)
  {
    assert ([[]] + rest)[1..] == rest;
  }

  /** Putting a character in front of the first piece puts it in front of the join. */
  lemma JoinExtendFirst(c: char, rest: seq<string>, sep: char)
    requires |rest| >= 1
    ensures Join([[c] + rest[0]] + rest[1..], sep) == [c] + Join(rest, sep)
  {
    var parts := [[c] + rest[0]] + rest[1..];
    if |rest| > 1 {
      assert parts[1..] == rest[1..];
    }
  }

  /** Splitting `a + b` where `a` holds no separator extends the first piece of `b`. */
  lemma {:induction false} SplitFreePrefix(a: string, b: string, sep: char)
    requires Free(a, sep)
    ensures Split(a + b, sep) == [a + Split(b, sep)[0]] + Split(b, sep)[1..]
    decreases |a|
  {
    if a != [] {
      SplitFreePrefix(a[1..], b, sep);
      assert (a + b)[1..] == a[1..] + b;
      assert [a[0]] + (a[1..] + Split(b, sep)[0]) == a + Split(b, sep)[0];
    } else {
      assert a + b == b;
      assert a + Split(b, sep)[0] == Split(b, sep)[0];
      assert [Split(b, sep)[0]] + Split(b, sep)[1..] == Split(b, sep);
    }
  }

  lemma FreeAppend(a: string, b: string, sep: char)
    requires Free(a, sep) && Free(b, sep)
    ensures Free(a + b, sep)
  {
    forall k | 0 <= k < |a + b|
      ensures (a + b)[k] != sep
    {
      if k < |a| {
        assert (a + b)[k] == a[k];
      } else {
        assert (a + b)[k] == b[k - |a|];
      }
    }
  }

  /** Splitting a join of separator-free pieces gives back the pieces. */
  lemma {:induction false} SplitJoin(parts: seq<string>, sep: char)
    requires |parts| >= 1
    requires forall i :: 0 <= i < |parts| ==> Free(parts[i], sep)
    ensures Split(Join(parts, sep), sep) == parts
    decreases |parts|
  {
    if |parts| == 1 {
      SplitFreePrefix(parts[0], [], sep);
      assert parts[0] + [] == parts[0];
    } else {
      var j := Join(parts[1..], sep);
      SplitJoin(parts[1..], sep);
      assert ([sep] + j)[1..] == j;
      assert Split([sep] + j, sep) == [[]] + parts[1..];
      SplitFreePrefix(parts[0], [sep] + j, sep);
      assert parts[0] + [sep] + j == parts[0] + ([sep] + j);
      assert parts[0] + [] == parts[0];
    }
  }

  // ---------------------------------------------------------------------
  // Decimal numbers
  // ---------------------------------------------------------------------

  predicate IsDigit(c: char)
  {
    '0' <= c <= '9'
  }

  predicate AllDigits(s: string)
  {
    forall k :: 0 <= k < |s| ==> IsDigit(s[k])
  }

  /** `sprintf("%d", n)` / Python's `str(n)` for a natural number. */
  function Decimal(n: nat): (s: string)
    ensures |s| >= 1 && AllDigits(s)
    ensures n < 10 <==> |s| == 1
  {
    if n < 10 then ['0' + n as char]
    else Decimal(n / 10) + ['0' + (n % 10) as char]
  }

  /** The value of a string of decimal digits (`sscanf("%d")` on such a string). */
  function DigitsValue(s: string): (r: nat)
    requires AllDigits(s)
    decreases |s|
  {
    if s == [] then 0
    else DigitsValue(s[..|s| - 1]) * 10 + (s[|s| - 1] - '0') as nat
  }

  /** Reading back what `Decimal` wrote gives the number. */
  lemma {:induction false} DecimalRoundTrip(n: nat)
    ensures DigitsValue(Decimal(n)) == n
  {
    if n >= 10 {
      var s := Decimal(n);
      assert s[..|s| - 1] == Decimal(n / 10);
      DecimalRoundTrip(n / 10);
    }
  }
}
