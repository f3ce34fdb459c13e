/** The string operations the testers rely on: decimal rendering of a
    counter (f"{n}"), str.strip() and str.split(sep). */
module Text {

  function Digit(d: nat): char
    requires d < 10
  {
    ('0' as int + d) as char
  }

  predicate IsDigit(c: char) { '0' <= c <= '9' }

  predicate AllDigits(s: string) { forall i :: 0 <= i < |s| ==> IsDigit(s[i]) }

  /** The number a string of decimal digits spells, most significant first. */
  function DigitsValue(s: string): nat
    requires AllDigits(s)
    decreases |s|
  {
    if s == [] then 0
    else
      assert IsDigit(s[|s| - 1]);
      10 * DigitsValue(s[..|s| - 1]) + (s[|s| - 1] as int - '0' as int)
  }

  /** f"{n}" for a non-negative integer: the digits of n, most significant
      first, with no leading zero. */
  function Decimal(n: nat): (r: string)
    ensures |r| >= 1 && AllDigits(r)
    ensures DigitsValue(r) == n
    ensures r[0] == '0' <==> n == 0
    ensures n == 0 ==> r == "0"
    decreases n
  {
    if n < 10 then [Digit(n)]
    else
      var r := Decimal(n / 10) + [Digit(n % 10)];
      assert r[..|r| - 1] == Decimal(n / 10);
      r
  }

  /** Distinct numbers render as distinct strings. */
  lemma DecimalInjective(a: nat, b: nat)
    requires Decimal(a) == Decimal(b)
    ensures a == b
  {
    assert DigitsValue(Decimal(a)) == DigitsValue(Decimal(b));
  }

  /** Where the pieces of "<pre><x><sep><y>" sit. */
  lemma PiecesAroundSep(pre: string, x: string, y: string, sep: char)
    requires |x| >= 1 && |y| >= 1
    ensures var t, p, n := pre + x + [sep] + y, |pre|, |pre| + |x|;
            p < n < |t| - 1 && t[..p] == pre && t[p..n] == x && t[n] == sep && t[n + 1..] == y
  {
    var t, p, n := pre + x + [sep] + y, |pre|, |pre| + |x|;
    assert t[..p] == pre && t[p..n] == x && t[n + 1..] == y;
  }

  /** In "<digits><sep><digits>" starting at p, sep occurs only at n. */
  lemma SepUnique(t: string, p: int, n: int, m: int, sep: char)
    requires !IsDigit(sep)
    requires 0 <= p <= n < |t| && p <= m < |t| && t[m] == sep
    requires AllDigits(t[p..n]) && AllDigits(t[n + 1..])
    ensures n == m
  {
  }

  /** "<pre><digits><sep><digits>" determines both digit runs. */
  lemma PrefixedDigitsSplit(pre: string, a1: string, b1: string, a2: string, b2: string, sep: char)
    requires !IsDigit(sep)
    requires |a1| >= 1 && |b1| >= 1 && |a2| >= 1 && |b2| >= 1
    requires AllDigits(a1) && AllDigits(b1) && AllDigits(a2) && AllDigits(b2)
    requires pre + a1 + [sep] + b1 == pre + a2 + [sep] + b2
    ensures a1 == a2 && b1 == b2
  {
    var t := pre + a1 + [sep] + b1;
    var p, n, m := |pre|, |pre| + |a1|, |pre| + |a2|;
    assert t[p..n] == a1 && t[n] == sep && t[n + 1..] == b1 by {
      PiecesAroundSep(pre, a1, b1, sep);
    }
    assert t[p..m] == a2 && t[m] == sep && t[m + 1..] == b2 by {
      PiecesAroundSep(pre, a2, b2, sep);
    }
    assert n == m by {
      SepUnique(t, p, n, m, sep);
    }
  }

  /** "<pre><decimal><sep><decimal>" determines both numbers. */
  lemma PrefixedPairInjective(pre: string, x1: nat, y1: nat, x2: nat, y2: nat, sep: char)
    requires !IsDigit(sep)
    requires pre + Decimal(x1) + [sep] + Decimal(y1) == pre + Decimal(x2) + [sep] + Decimal(y2)
    ensures x1 == x2 && y1 == y2
  {
    PrefixedDigitsSplit(pre, Decimal(x1), Decimal(y1), Decimal(x2), Decimal(y2), sep);
    DecimalInjective(x1, x2);
    DecimalInjective(y1, y2);
  }

  /** The characters str.isspace() accepts, and so the ones str.strip()
      removes: \t, \n, \v, \f, \r, the separators U+001C..U+001F, the
      space, U+0085, U+00A0, and the Unicode spaces and line and paragraph
      separators. */
  predicate IsSpace(c: char)
  {
    '\t' <= c <= '\r' || '\U{1C}' <= c <= ' ' || c == '\U{85}' || c == '\U{A0}'
    || c == '\U{1680}' || '\U{2000}' <= c <= '\U{200A}' || c == '\U{2028}' || c == '\U{2029}'
    || c == '\U{202F}' || c == '\U{205F}' || c == '\U{3000}'
  }

  /** str.lstrip(): s without its leading whitespace. */
  function StripStart(s: string): (r: string)
    ensures |r| <= |s| && r == s[|s| - |r|..]
    ensures forall i :: 0 <= i < |s| - |r| ==> IsSpace(s[i])
    ensures r == [] || !IsSpace(r[0])
    decreases |s|
  {
    if s != [] && IsSpace(s[0]) then StripStart(s[1..]) else s
  }

  /** str.rstrip(): s without its trailing whitespace. */
  function StripEnd(s: string): (r: string)
    ensures |r| <= |s| && r == s[..|r|]
    ensures forall i :: |r| <= i < |s| ==> IsSpace(s[i])
    ensures r == [] || !IsSpace(r[|r| - 1])
    decreases |s|
  {
    if s != [] && IsSpace(s[|s| - 1]) then StripEnd(s[..|s| - 1]) else s
  }

  /** str.strip() */
  function Strip(s: string): string
  {
    StripEnd(StripStart(s))
  }

  /** Strip removes only whitespace, and only at the ends: what remains is
      the slice s[i..j] with whitespace before i and from j on. */
  lemma StripIsTrim(s: string)
    ensures exists i, j :: 0 <= i <= j <= |s| && Strip(s) == s[i..j]
              && (forall k :: 0 <= k < i ==> IsSpace(s[k]))
              && (forall k :: j <= k < |s| ==> IsSpace(s[k]))
  {
    var t := StripStart(s);
    var i := |s| - |t|;
    var j := i + |Strip(s)|;
    assert Strip(s) == s[i..j] && forall k :: j <= k < |s| ==> IsSpace(s[k]) by {
      assert t == s[i..];
    }
  }

  /** What Strip leaves neither starts nor ends with whitespace. */
  lemma StripEnds(s: string)
    ensures Strip(s) == [] || (!IsSpace(Strip(s)[0]) && !IsSpace(Strip(s)[|Strip(s)| - 1]))
  {
    var t := StripStart(s);
    var r := StripEnd(t);
    if r != [] {
      assert r[0] == t[0];
    }
  }

  /** Strip gives "" exactly when s is all whitespace. */
  lemma StripEmptyIff(s: string)
    ensures Strip(s) == [] <==> forall k :: 0 <= k < |s| ==> IsSpace(s[k])
  {
    var t := StripStart(s);
    if Strip(s) == [] {
      assert t == [];
    } else if t != [] {
      assert t[0] == s[|s| - |t|];
    }
  }

  /** str.split(sep): the pieces between separators; "" splits into [""]. */
  function Split(s: string, sep: char): (r: seq<string>)
    ensures |r| >= 1
    decreases |s|
  {
    if s == [] then [[]]
    else if s[0] == sep then [[]] + Split(s[1..], sep)
    else
      var rest := Split(s[1..], sep);
      [[s[0]] + rest[0]] + rest[1..]
  }

  /** A string that ends with the separator splits into a last piece that
      is empty. */
  lemma {:induction false} SplitEndsEmpty(s: string, sep: char)
    requires s != [] && s[|s| - 1] == sep
    ensures Split(s, sep)[|Split(s, sep)| - 1] == []
    decreases |s|
  {
    if |s| == 1 {
      assert Split(s[1..], sep) == [[]];
    } else {
      SplitEndsEmpty(s[1..], sep);
    }
  }

  /** sep.join(parts) */
  function Join(parts: seq<string>, sep: char): string
    requires |parts| >= 1
    decreases |parts|
  {
    if |parts| == 1 then parts[0] else parts[0] + [sep] + Join(parts[1..], sep)
  }

  /** No piece contains the separator. */
  lemma {:induction false} SplitPiecesFree(s: string, sep: char)
    ensures forall k :: 0 <= k < |Split(s, sep)| ==> sep !in Split(s, sep)[k]
    decreases |s|
  {
    if s != [] {
      SplitPiecesFree(s[1..], sep);
    }
  }

  /** Joining the pieces with the separator gives back the string. */
  lemma {:induction false} JoinSplit(s: string, sep: char)
    ensures Join(Split(s, sep), sep) == s
    decreases |s|
  {
    if s != [] {
      JoinSplit(s[1..], sep);
      var rest := Split(s[1..], sep);
      if s[0] == sep {
        assert Split(s, sep)[1..] == rest;
      } else {
        var parts := Split(s, sep);
        assert parts[1..] == rest[1..];
        if |rest| == 1 {
          assert Join(parts, sep) == [s[0]] + rest[0];
        } else {
          assert Join(parts, sep) == [s[0]] + rest[0] + [sep] + Join(rest[1..], sep);
        }
      }
    }
  }
}
