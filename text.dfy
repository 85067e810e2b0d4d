/** The string operations the scripts rely on, with Python's semantics:
    `sep.join`, `str.split(sep)`, `str.strip`, the `in` substring test,
    f-string padding and `str(int)`. */
module Text {

  // ---------------------------------------------------------------- join / split

  /** `sep.join(parts)` for a one-character separator. */
  function Join(sep: char, parts: seq<string>): string
  {
    if |parts| == 0 then ""
    else if |parts| == 1 then parts[0]
    else parts[0] + [sep] + Join(sep, parts[1..])
  }

  /** `s.split(sep)`: the maximal `sep`-free pieces between separators; never empty. */
  function Split(s: string, sep: char): (parts: seq<string>)
    ensures |parts| >= 1
    decreases |s|
  {
    if |s| == 0 then [""]
    else
      var rest := Split(s[1..], sep);
      if s[0] == sep then [""] + rest
      else [[s[0]] + rest[0]] + rest[1..]
  }

  /** The pieces hold no separator, and there is more than one piece
      exactly when the string holds a separator. */
  lemma {:induction false} SplitPieces(s: string, sep: char)
    ensures forall i :: 0 <= i < |Split(s, sep)| ==> sep !in Split(s, sep)[i]
    ensures |Split(s, sep)| == 1 <==> sep !in s
    ensures |Split(s, sep)| == 1 ==> Split(s, sep)[0] == s
    decreases |s|
  {
    if |s| > 0 {
      SplitPieces(s[1..], sep);
      var rest := Split(s[1..], sep);
      var parts := Split(s, sep);
      if s[0] == sep {
        assert parts == [""] + rest;
        assert sep in s;
      } else {
        assert parts == [[s[0]] + rest[0]] + rest[1..];
        assert s == [s[0]] + s[1..];
        forall i | 1 <= i < |parts| ensures sep !in parts[i] {
          assert parts[i] == rest[i];
        }
      }
    }
  }

  lemma {:induction false} SplitAfterPiece(x: string, y: string, sep: char)
    requires sep !in x
    ensures Split(x + [sep] + y, sep) == [x] + Split(y, sep)
    decreases |x|
  {
    var s := x + [sep] + y;
    if |x| == 0 {
      assert s[0] == sep && s[1..] == y;
    } else {
      assert s[0] == x[0] && s[1..] == x[1..] + [sep] + y;
      SplitAfterPiece(x[1..], y, sep);
      assert [x[0]] + x[1..] == x;
    }
  }

  /** Splitting a join of `sep`-free pieces gives the pieces back. */
  lemma {:induction false} SplitJoin(parts: seq<string>, sep: char)
    requires |parts| >= 1
    requires forall i :: 0 <= i < |parts| ==> sep !in parts[i]
    ensures Split(Join(sep, parts), sep) == parts
    decreases |parts|
  {
    if |parts| == 1 {
      SplitPieces(parts[0], sep);
    } else {
      SplitJoin(parts[1..], sep);
      SplitAfterPiece(parts[0], Join(sep, parts[1..]), sep);
      assert [parts[0]] + parts[1..] == parts;
    }
  }

  /** A separator-free tail after the last separator is the last piece. */
  lemma {:induction false} SplitBeforeLast(x: string, y: string, sep: char)
    requires sep !in y
    ensures Split(x + [sep] + y, sep) == Split(x, sep) + [y]
    decreases |x|
  {
    var s := x + [sep] + y;
    if |x| == 0 {
      assert s[1..] == y;
      SplitPieces(y, sep);
    } else {
      assert s[0] == x[0] && s[1..] == x[1..] + [sep] + y;
      SplitBeforeLast(x[1..], y, sep);
    }
  }

  /** Five separator-free fields joined by the separator split back apart
      (the last field given as two pieces). */
  lemma SplitJoinFive(a: string, b: string, c: string, d: string, e1: string, e2: string, sep: char)
    requires sep !in a && sep !in b && sep !in c && sep !in d && sep !in e1 && sep !in e2
    ensures Split(a + [sep] + b + [sep] + c + [sep] + d + [sep] + e1 + e2, sep) == [a, b, c, d, e1 + e2]
  {
    var x1 := a + [sep] + b;
    var x2 := x1 + [sep] + c;
    var x3 := x2 + [sep] + d;
    assert x3 + [sep] + e1 + e2 == x3 + [sep] + (e1 + e2);
    assert sep !in e1 + e2;
    SplitPieces(a, sep);
    SplitBeforeLast(a, b, sep);
    SplitBeforeLast(x1, c, sep);
    SplitBeforeLast(x2, d, sep);
    SplitBeforeLast(x3, e1 + e2, sep);
    assert Split(x3, sep) == [a, b, c, d];
  }

  /** Joining the pieces of a split gives the string back. */
  lemma {:induction false} JoinSplit(s: string, sep: char)
    ensures Join(sep, Split(s, sep)) == s
    decreases |s|
  {
    if |s| > 0 {
      JoinSplit(s[1..], sep);
      var rest := Split(s[1..], sep);
      if s[0] == sep {
        assert Split(s, sep) == [""] + rest;
        assert ([""] + rest)[1..] == rest;
        assert s == [sep] + s[1..];
      } else if |rest| == 1 {
        assert s == [s[0]] + s[1..];
      } else {
        var parts := Split(s, sep);
        assert parts[1..] == rest[1..];
        assert Join(sep, rest) == rest[0] + [sep] + Join(sep, rest[1..]);
        assert s == [s[0]] + s[1..];
      }
    }
  }

  /** A join of two or more pieces ends with the separator and the last piece. */
  lemma {:induction false} JoinLast(sep: char, parts: seq<string>)
    requires |parts| >= 2
    ensures Join(sep, parts) == Join(sep, parts[..|parts| - 1]) + [sep] + parts[|parts| - 1]
    decreases |parts|
  {
    var n := |parts|;
    if n > 2 {
      JoinLast(sep, parts[1..]);
      assert parts[1..][..n - 2] == parts[..n - 1][1..];
      var m := Join(sep, parts[1..][..n - 2]);
      assert Join(sep, parts) == parts[0] + [sep] + (m + [sep] + parts[n - 1]);
      assert Join(sep, parts[..n - 1]) == parts[0] + [sep] + m;
    }
  }

  /** The piece after the last separator is a suffix right behind that separator. */
  lemma SuffixBehind(x: string, sep: char, r: string)
    ensures var s := x + [sep] + r; |r| < |s| && r == s[|s| - |r|..] && s[|s| - |r| - 1] == sep
  {
  }

  lemma LastPieceIsSuffix(s: string, sep: char)
    ensures var p := Split(s, sep); var r := p[|p| - 1];
      |r| <= |s| && r == s[|s| - |r|..] && (|r| < |s| ==> s[|s| - |r| - 1] == sep)
  {
    var p := Split(s, sep);
    JoinSplit(s, sep);
    if |p| >= 2 {
      JoinLast(sep, p);
      SuffixBehind(Join(sep, p[..|p| - 1]), sep, p[|p| - 1]);
    }
  }

  /** `s.split(sep)[-1]`: the text after the last `sep`, or all of `s` when
      there is none. */
  function LastSegment(s: string, sep: char): (r: string)
    ensures sep !in r
    ensures |r| <= |s| && r == s[|s| - |r|..]
    ensures |r| < |s| ==> s[|s| - |r| - 1] == sep
    ensures sep !in s ==> r == s
  {
    var p := Split(s, sep);
    LastPieceIsSuffix(s, sep);
    SplitPieces(s, sep);
    p[|p| - 1]
  }

  // ---------------------------------------------------------------- padding

  /** `c * n`. */
  function Repeat(c: char, n: nat): (r: string)
    ensures |r| == n && forall i :: 0 <= i < n ==> r[i] == c
  {
    seq(n, _ => c)
  }

  /** `f"{s:<w}"`: left-aligned in a field of width `w`, never truncated. */
  function PadRight(s: string, w: nat): (r: string)
    ensures |r| == if |s| < w then w else |s|
    ensures r[..|s|] == s
    ensures forall i :: |s| <= i < |r| ==> r[i] == ' '
  {
    if |s| < w then s + Repeat(' ', w - |s|) else s
  }

  /** `f"{s:>w}"`: right-aligned in a field of width `w`, never truncated. */
  function PadLeft(s: string, w: nat): (r: string)
    ensures |r| == if |s| < w then w else |s|
    ensures r[|r| - |s|..] == s
    ensures forall i :: 0 <= i < |r| - |s| ==> r[i] == ' '
  {
    if |s| < w then Repeat(' ', w - |s|) + s else s
  }

  // ---------------------------------------------------------------- strip

  /** The ASCII and Latin-1 characters Python's `str.isspace` accepts. */
  predicate IsSpace(c: char)
  {
    c == ' ' || 9 <= c as int <= 13 || 28 <= c as int <= 31 || c as int == 0x85 || c as int == 0xA0
  }

  /** `s.rstrip()`. */
  function RStrip(s: string): string
  {
    if |s| > 0 && IsSpace(s[|s| - 1]) then RStrip(s[..|s| - 1]) else s
  }

  /** `rstrip` keeps a prefix, drops only whitespace, and leaves none at the end. */
  lemma {:induction false} RStripFacts(s: string)
    ensures var r := RStrip(s);
      && |r| <= |s| && r == s[..|r|]
      && (|r| > 0 ==> !IsSpace(r[|r| - 1]))
      && (forall i :: |r| <= i < |s| ==> IsSpace(s[i]))
  {
    if |s| > 0 && IsSpace(s[|s| - 1]) {
      RStripFacts(s[..|s| - 1]);
    }
  }

  /** `s.lstrip()`. */
  function LStrip(s: string): string
  {
    if |s| > 0 && IsSpace(s[0]) then LStrip(s[1..]) else s
  }

  /** `lstrip` keeps a suffix, drops only whitespace, and leaves none in front. */
  lemma {:induction false} LStripFacts(s: string)
    ensures var r := LStrip(s);
      && |r| <= |s| && r == s[|s| - |r|..]
      && (|r| > 0 ==> !IsSpace(r[0]))
      && (forall i :: 0 <= i < |s| - |r| ==> IsSpace(s[i]))
  {
    if |s| > 0 && IsSpace(s[0]) {
      LStripFacts(s[1..]);
    }
  }

  /** `s.strip()`. */
  function Strip(s: string): string
  {
    LStrip(RStrip(s))
  }

  /** Trailing whitespace after a non-blank text only comes from the tail. */
  lemma {:induction false} RStripAppend(x: string, y: string)
    requires |x| > 0 && !IsSpace(x[|x| - 1])
    ensures RStrip(x + y) == x + RStrip(y)
    decreases |y|
  {
    if |y| == 0 {
      assert x + y == x;
    } else if IsSpace(y[|y| - 1]) {
      assert (x + y)[..|x + y| - 1] == x + y[..|y| - 1];
      RStripAppend(x, y[..|y| - 1]);
    }
  }

  /** Leading blanks are all that `LStrip` removes. */
  lemma {:induction false} LStripBlanks(n: nat, z: string)
    requires |z| > 0 && !IsSpace(z[0])
    ensures LStrip(Repeat(' ', n) + z) == z
    decreases n
  {
    if n > 0 {
      assert (Repeat(' ', n) + z)[1..] == Repeat(' ', n - 1) + z;
      LStripBlanks(n - 1, z);
    }
  }

  // ---------------------------------------------------------------- substring

  /** Python's `sub in s`. */
  predicate Contains(s: string, sub: string)
    decreases |s|
  {
    |sub| <= |s| && (s[..|sub|] == sub || Contains(s[1..], sub))
  }

  predicate OccursAt(s: string, sub: string, i: int)
  {
    0 <= i && i + |sub| <= |s| && s[i..i + |sub|] == sub
  }

  /** `Contains` holds exactly when `sub` occurs at some position of `s`. */
  lemma {:induction false} ContainsIffOccurs(s: string, sub: string)
    ensures Contains(s, sub) <==> exists i :: OccursAt(s, sub, i)
    decreases |s|
  {
    if |sub| <= |s| {
      if s[..|sub|] == sub {
        assert OccursAt(s, sub, 0);
        return;
      }
      ContainsIffOccurs(s[1..], sub);
      if Contains(s[1..], sub) {
        var i :| OccursAt(s[1..], sub, i);
        assert s[1..][i..i + |sub|] == s[i + 1..i + 1 + |sub|];
        assert OccursAt(s, sub, i + 1);
      } else {
        forall i | 0 < i && OccursAt(s, sub, i) ensures OccursAt(s[1..], sub, i - 1) {
          assert s[1..][i - 1..i - 1 + |sub|] == s[i..i + |sub|];
        }
      }
    }
  }

  // ---------------------------------------------------------------- decimal

  function Digit(d: nat): (c: char)
    requires d < 10
    ensures '0' <= c <= '9'
  {
    "0123456789"[d]
  }

  function DigitValue(c: char): nat
  {
    if '0' <= c <= '9' then c as int - '0' as int else 0
  }

  /** `str(n)` for a non-negative integer: decimal digits, no leading zero. */
  function NatToString(n: nat): (r: string)
    ensures |r| >= 1
    ensures forall i :: 0 <= i < |r| ==> '0' <= r[i] <= '9'
    ensures r[0] == '0' ==> n == 0
    ensures n < 10 <==> |r| == 1
  {
    if n < 10 then [Digit(n)] else NatToString(n / 10) + [Digit(n % 10)]
  }

  /** `str(i)` for any integer. */
  function IntToString(i: int): string
  {
    if i < 0 then "-" + NatToString(-i) else NatToString(i)
  }

  /** `str(n)` of `10 * n + d` appends the digit `d` to `str(n)`. */
  lemma AppendDigit(n: nat, d: nat)
    requires n >= 1 && d < 10
    ensures NatToString(10 * n + d) == NatToString(n) + [Digit(d)]
  {
    assert (10 * n + d) / 10 == n && (10 * n + d) % 10 == d;
  }

  /** The number a string of decimal digits denotes. */
  function DecimalValue(s: string): nat
  {
    if |s| == 0 then 0 else 10 * DecimalValue(s[..|s| - 1]) + DigitValue(s[|s| - 1])
  }

  lemma DigitValueOf(d: nat)
    requires d < 10
    ensures DigitValue(Digit(d)) == d
  {
    assert "0123456789"[d] as int == '0' as int + d;
  }

  /** Reading back the digits `str(n)` writes gives `n`. */
  lemma {:induction false} DecimalRoundTrip(n: nat)
    ensures DecimalValue(NatToString(n)) == n
  {
    if n < 10 {
      DigitValueOf(n);
      assert DecimalValue([Digit(n)]) == 10 * DecimalValue([]) + DigitValue(Digit(n));
    } else {
      DecimalRoundTrip(n / 10);
      DigitValueOf(n % 10);
      var s := NatToString(n);
      assert s == NatToString(n / 10) + [Digit(n % 10)];
      assert s[..|s| - 1] == NatToString(n / 10) && s[|s| - 1] == Digit(n % 10);
    }
  }
}
