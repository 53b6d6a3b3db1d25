/**
 * The few string operations of the JavaScript runtime that the application
 * relies on: `Array.prototype.join`, `String.prototype.split` with a
 * one-character separator, `Array.prototype.pop` on a non-empty array, and
 * `String.prototype.toLowerCase` restricted to ASCII letters.
 */
module Strings {

  /** `parts.join(sep)`: the parts with `sep` between consecutive ones; `[].join(sep)` is "". */
  function Join(parts: seq<string>, sep: string): string
  {
    if |parts| == 0 then ""
    else if |parts| == 1 then parts[0]
    else parts[0] + sep + Join(parts[1..], sep)
  }

  /** The summed length of all parts. */
  function TotalLength(parts: seq<string>): nat
  {
    if |parts| == 0 then 0 else |parts[0]| + TotalLength(parts[1..])
  }

  /** Joining n parts inserts exactly n - 1 separators. */
  lemma {:induction false} JoinLength(parts: seq<string>, sep: string)
    requires |parts| > 0
    ensures |Join(parts, sep)| == TotalLength(parts) + (|parts| - 1) * |sep|
  {
    if |parts| > 1 {
      JoinLength(parts[1..], sep);
    }
  }

  /** Joining a concatenation is joining each half and putting one separator between them. */
  lemma {:induction false} JoinAppend(a: seq<string>, b: seq<string>, sep: string)
    requires |a| > 0 && |b| > 0
    ensures Join(a + b, sep) == Join(a, sep) + sep + Join(b, sep)
  {
    if |a| == 1 {
      assert (a + b)[1..] == b;
    } else {
      assert (a + b)[1..] == a[1..] + b;
      JoinAppend(a[1..], b, sep);
    }
  }

  /** `s.split(c)` for a one-character separator: the maximal pieces between occurrences of `c`. */
  function Split(s: string, c: char): (pieces: seq<string>)
    ensures |pieces| > 0
  {
    if |s| == 0 then [""]
    else
      var rest := Split(s[1..], c);
      if s[0] == c then [""] + rest
      else [[s[0]] + rest[0]] + rest[1..]
  }

  /** Splitting and joining back with the same separator gives the original string. */
  lemma {:induction false} SplitJoin(s: string, c: char)
    ensures Join(Split(s, c), [c]) == s
  {
    if |s| > 0 {
      var rest := Split(s[1..], c);
      SplitJoin(s[1..], c);
      if s[0] == c {
        assert Split(s, c)[1..] == rest;
      } else if |rest| > 1 {
        assert Split(s, c)[1..] == rest[1..];
      }
    }
  }

  /** No piece of a split contains the separator. */
  lemma {:induction false} SplitPiecesAvoidSeparator(s: string, c: char)
    ensures forall i :: 0 <= i < |Split(s, c)| ==> c !in Split(s, c)[i]
  {
    if |s| > 0 {
      SplitPiecesAvoidSeparator(s[1..], c);
    }
  }

  /** `xs.pop()` on a non-empty array: its last element. */
  function Last<T>(xs: seq<T>): T
    requires |xs| > 0
  {
    xs[|xs| - 1]
  }

  /** A string splits into a single piece exactly when it does not contain the separator. */
  lemma {:induction false} SplitSingle(s: string, c: char)
    ensures |Split(s, c)| == 1 <==> c !in s
  {
    if |s| > 0 {
      SplitSingle(s[1..], c);
      assert s == [s[0]] + s[1..];
    }
  }

  /** The last piece of a split is the suffix of `s` after its last `c`, or all of `s` when `c` does not occur. */
  lemma {:induction false} LastPieceIsSuffix(s: string, c: char)
    ensures var last := Last(Split(s, c));
      && |last| <= |s|
      && last == s[|s| - |last|..]
      && c !in last
      && (|last| < |s| ==> s[|s| - |last| - 1] == c)
      && (|last| == |s| <==> c !in s)
  {
    SplitPiecesAvoidSeparator(s, c);
    if |s| > 0 {
      LastPieceIsSuffix(s[1..], c);
      SplitSingle(s[1..], c);
      var rest := Split(s[1..], c);
      assert s == [s[0]] + s[1..];
      if s[0] == c || |rest| > 1 {
        assert Last(Split(s, c)) == Last(rest);
      } else {
        assert Last(Split(s, c)) == [s[0]] + rest[0];
      }
    }
  }

  /** `c.toLowerCase()` for ASCII: upper-case letters become lower-case, everything else is kept. */
  function LowerChar(c: char): char
  {
    if 'A' <= c <= 'Z' then (c as int - 'A' as int + 'a' as int) as char else c
  }

  /** `s.toLowerCase()` restricted to ASCII letters. */
  function ToLowerCase(s: string): (r: string)
    ensures |r| == |s|
    ensures forall i :: 0 <= i < |s| ==> r[i] == LowerChar(s[i])
  {
    if |s| == 0 then "" else [LowerChar(s[0])] + ToLowerCase(s[1..])
  }

  /** Decimal text of a natural number, as JavaScript prints an integer. */
  function NatToDecimal(n: nat): (r: string)
    ensures |r| > 0
    ensures forall i :: 0 <= i < |r| ==> '0' <= r[i] <= '9'
  {
    if n < 10 then [('0' as int + n) as char]
    else NatToDecimal(n / 10) + [('0' as int + n % 10) as char]
  }

  /** `part` occurs in `s` starting at index `i`. */
  ghost predicate OccursAt(s: string, part: string, i: int)
  {
    0 <= i <= |s| - |part| && s[i..i + |part|] == part
  }

  /** `part` occurs in `s` as a contiguous piece. */
  ghost predicate Contains(s: string, part: string)
  {
    exists i :: OccursAt(s, part, i)
  }

  /** A piece of a concatenation is a piece of the whole. */
  lemma ContainsInConcat(pre: string, mid: string, post: string, part: string)
    requires Contains(mid, part)
    ensures Contains(pre + mid + post, part)
  {
    var i :| OccursAt(mid, part, i);
    var s := pre + mid + post;
    assert s[|pre| + i..|pre| + i + |part|] == mid[i..i + |part|];
    assert OccursAt(s, part, |pre| + i);
  }

  /** A piece of the right operand is a piece of the concatenation. */
  lemma ContainsInRight(a: string, b: string, part: string)
    requires Contains(b, part)
    ensures Contains(a + b, part)
  {
    ContainsInConcat(a, b, "", part);
    assert a + b + "" == a + b;
  }

  /** A piece of the left operand is a piece of the concatenation. */
  lemma ContainsInLeft(a: string, b: string, part: string)
    requires Contains(a, part)
    ensures Contains(a + b, part)
  {
    ContainsInConcat("", a, b, part);
    assert "" + a + b == a + b;
  }

  /** A piece of a piece of a string is a piece of the string. */
  lemma ContainsTransitive(s: string, mid: string, part: string)
    requires Contains(s, mid) && Contains(mid, part)
    ensures Contains(s, part)
  {
    var i :| OccursAt(s, mid, i);
    var j :| OccursAt(mid, part, j);
    var window := s[i + j..i + j + |part|];
    forall t | 0 <= t < |part|
      ensures window[t] == part[t]
    {
      assert window[t] == s[i..i + |mid|][j + t];
      assert part[t] == mid[j..j + |part|][t];
    }
    assert window == part;
    assert OccursAt(s, part, i + j);
  }

  /** Every string is a piece of itself. */
  lemma ContainsSelf(s: string)
    ensures Contains(s, s)
  {
    assert OccursAt(s, s, 0);
  }
}
