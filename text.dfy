/**
 * The string primitives the export code relies on: Python's `str.strip()`,
 * `str.split(sep)` for a one-character separator, and `int(str)`.
 */
module Text {
  import opened Wrappers

  /** Python's whitespace set, used by `str.strip()` and by the regex class `\s`. */
  predicate IsSpace(c: char) {
    var n := c as int;
    (9 <= n <= 13) || (28 <= n <= 32) || n == 0x85 || n == 0xA0 || n == 0x1680
    || (0x2000 <= n <= 0x200A) || n == 0x2028 || n == 0x2029 || n == 0x202F
    || n == 0x205F || n == 0x3000
  }

  predicate AllSpace(s: string) {
    forall i :: 0 <= i < |s| ==> IsSpace(s[i])
  }

  /** `s` has no whitespace at either end. */
  predicate Trimmed(s: string) {
    s == [] || (!IsSpace(s[0]) && !IsSpace(s[|s| - 1]))
  }

  /** `str.lstrip()`: drops the leading whitespace and keeps the rest. */
  function TrimStart(s: string): string
    decreases |s|
  {
    if s != [] && IsSpace(s[0]) then TrimStart(s[1..]) else s
  }

  /** `lstrip` keeps a suffix, removes only whitespace, and stops at a non-space. */
  lemma {:induction false} TrimStartShape(s: string)
    ensures var r := TrimStart(s);
            && |r| <= |s| && r == s[|s| - |r|..]
            && AllSpace(s[..|s| - |r|])
            && (r != [] ==> !IsSpace(r[0]))
    decreases |s|
  {
    if s != [] && IsSpace(s[0]) {
      TrimStartShape(s[1..]);
      var r := TrimStart(s[1..]);
      assert s[..|s| - |r|] == [s[0]] + s[1..][..|s| - 1 - |r|];
    }
  }

  /** `str.rstrip()`: drops the trailing whitespace and keeps the rest. */
  function TrimEnd(s: string): string
    decreases |s|
  {
    if s != [] && IsSpace(s[|s| - 1]) then TrimEnd(s[..|s| - 1]) else s
  }

  /** `rstrip` keeps a prefix, removes only whitespace, and stops at a non-space. */
  lemma {:induction false} TrimEndShape(s: string)
    ensures var r := TrimEnd(s);
            && |r| <= |s| && r == s[..|r|]
            && AllSpace(s[|r|..])
            && (r != [] ==> !IsSpace(r[|r| - 1]))
    decreases |s|
  {
    if s != [] && IsSpace(s[|s| - 1]) {
      TrimEndShape(s[..|s| - 1]);
      var r := TrimEnd(s[..|s| - 1]);
      assert s[|r|..] == s[..|s| - 1][|r|..] + [s[|s| - 1]];
    }
  }

  /** `str.strip()`: the result is the middle of `s` between two runs of whitespace. */
  function Strip(s: string): (r: string)
    ensures |r| <= |s| && Trimmed(r)
    ensures r == [] <==> AllSpace(s)
  {
    var t := TrimStart(s);
    var r := TrimEnd(t);
    TrimBoth(s, t, r);
    r
  }

  /** The facts `Strip` promises, about its two trimming steps. */
  lemma TrimBoth(s: string, t: string, r: string)
    requires t == TrimStart(s) && r == TrimEnd(t)
    ensures |r| <= |s| && Trimmed(r)
    ensures r == [] <==> AllSpace(s)
  {
    TrimStartShape(s);
    TrimEndShape(t);
    var k := |s| - |t|;
    if r != [] {
      assert r[0] == t[0];
    }
    if r == [] {
      assert t[|r|..] == t;
      assert t == [];
      assert s[..k] == s;
    } else {
      assert t != [] && t[0] == s[k];
    }
  }

  /** Every string is whitespace, then its stripped middle, then whitespace. */
  lemma StripDecompose(s: string) returns (a: string, c: string)
    ensures s == a + Strip(s) + c
    ensures AllSpace(a) && AllSpace(c)
  {
    var t := TrimStart(s);
    var r := TrimEnd(t);
    TrimStartShape(s);
    TrimEndShape(t);
    a := s[..|s| - |t|];
    c := t[|r|..];
    ThreeSlices(s, t, r);
  }

  /** A string is its prefix, then a prefix of its suffix, then the rest of that suffix. */
  lemma ThreeSlices(s: string, t: string, r: string)
    requires |t| <= |s| && t == s[|s| - |t|..]
    requires |r| <= |t| && r == t[..|r|]
    ensures s == s[..|s| - |t|] + r + t[|r|..]
  {
    ConcatSlices(s, |s| - |t|);
    ConcatSlices(t, |r|);
  }

  lemma ConcatSlices(s: string, k: nat)
    requires k <= |s|
    ensures s == s[..k] + s[k..]
  {
  }

  lemma StripTrimmed(s: string)
    requires Trimmed(s)
    ensures Strip(s) == s
  {
  }

  /** Stripping is idempotent. */
  lemma StripIdempotent(s: string)
    ensures Strip(Strip(s)) == Strip(s)
  {
    StripTrimmed(Strip(s));
  }

  lemma {:induction false} TrimStartAllSpace(c: string)
    requires AllSpace(c)
    ensures TrimStart(c) == []
  {
    if c != [] {
      assert IsSpace(c[0]);
      TrimStartAllSpace(c[1..]);
    }
  }

  lemma {:induction false} TrimStartSpaces(a: string, b: string)
    requires AllSpace(a)
    ensures TrimStart(a + b) == TrimStart(b)
    decreases |a|
  {
    if a != [] {
      assert (a + b)[1..] == a[1..] + b;
      TrimStartSpaces(a[1..], b);
    } else {
      assert a + b == b;
    }
  }

  lemma {:induction false} TrimStartAppend(b: string, c: string)
    requires AllSpace(c)
    ensures TrimStart(b + c) == if TrimStart(b) == [] then [] else TrimStart(b) + c
    decreases |b|
  {
    if b == [] {
      assert b + c == c;
      TrimStartAllSpace(c);
    } else if IsSpace(b[0]) {
      assert (b + c)[1..] == b[1..] + c;
      TrimStartAppend(b[1..], c);
    }
  }

  lemma {:induction false} TrimEndSpaces(x: string, c: string)
    requires AllSpace(c)
    ensures TrimEnd(x + c) == TrimEnd(x)
    decreases |c|
  {
    if c == [] {
      assert x + c == x;
    } else {
      var xc := x + c;
      assert xc[..|xc| - 1] == x + c[..|c| - 1];
      TrimEndSpaces(x, c[..|c| - 1]);
    }
  }

  /** Whitespace padding on either side does not change the stripped result. */
  lemma StripPadded(a: string, b: string, c: string)
    requires AllSpace(a) && AllSpace(c)
    ensures Strip(a + b + c) == Strip(b)
  {
    var tb := TrimStart(b);
    assert TrimStart(a + b + c) == if tb == [] then [] else tb + c by {
      TrimStartPadded(a, b, c);
    }
    if tb != [] {
      assert TrimEnd(tb + c) == TrimEnd(tb) by {
        TrimEndSpaces(tb, c);
      }
    }
  }

  lemma TrimStartPadded(a: string, b: string, c: string)
    requires AllSpace(a) && AllSpace(c)
    ensures TrimStart(a + b + c) == if TrimStart(b) == [] then [] else TrimStart(b) + c
  {
    var bc := b + c;
    assert a + b + c == a + bc;
    assert TrimStart(a + bc) == TrimStart(bc) by {
      TrimStartSpaces(a, bc);
    }
    TrimStartAppend(b, c);
  }

  /** Number of occurrences of `d` in `s`. */
  function Count(s: string, d: char): nat
    decreases |s|
  {
    if s == [] then 0 else (if s[0] == d then 1 else 0) + Count(s[1..], d)
  }

  /** `s.split(d)`: the pieces between occurrences of `d`; never empty. */
  function Split(s: string, d: char): (parts: seq<string>)
    ensures |parts| == Count(s, d) + 1
    decreases |s|
  {
    if s == [] then [""]
    else
      var rest := Split(s[1..], d);
      if s[0] == d then [""] + rest
      else [[s[0]] + rest[0]] + rest[1..]
  }

  /** `d.join(parts)`. */
  function Join(parts: seq<string>, d: char): string
    decreases |parts|
  {
    if parts == [] then ""
    else if |parts| == 1 then parts[0]
    else parts[0] + [d] + Join(parts[1..], d)
  }

  /** Joining the pieces of a split gives back the original string. */
  lemma {:induction false} SplitJoin(s: string, d: char)
    ensures Join(Split(s, d), d) == s
    decreases |s|
  {
    if s != [] {
      var rest := Split(s[1..], d);
      SplitJoin(s[1..], d);
      if s[0] == d {
        assert Split(s, d)[1..] == rest;
      } else if |rest| == 1 {
        assert Join(Split(s, d), d) == [s[0]] + rest[0];
      } else {
        assert Split(s, d)[1..] == rest[1..];
        assert Join(rest, d) == rest[0] + [d] + Join(rest[1..], d);
      }
    }
  }

  /** No piece of a split contains the separator. */
  lemma {:induction false} SplitPiecesFree(s: string, d: char)
    ensures forall i :: 0 <= i < |Split(s, d)| ==> d !in Split(s, d)[i]
    decreases |s|
  {
    if s != [] {
      SplitPiecesFree(s[1..], d);
      var rest := Split(s[1..], d);
      if s[0] != d {
        assert d !in rest[0];
        assert d !in [s[0]] + rest[0];
        forall i | 1 <= i < |Split(s, d)| ensures d !in Split(s, d)[i] {
          assert Split(s, d)[i] == rest[i];
        }
      } else {
        forall i | 1 <= i < |Split(s, d)| ensures d !in Split(s, d)[i] {
          assert Split(s, d)[i] == rest[i - 1];
        }
      }
    }
  }

  lemma {:induction false} SplitAfterPiece(p: string, d: char, s: string)
    requires d !in p
    ensures Split(p + [d] + s, d) == [p] + Split(s, d)
    decreases |p|
  {
    if p == [] {
      assert p + [d] + s == [d] + s;
      assert ([d] + s)[1..] == s;
    } else {
      assert (p + [d] + s)[1..] == p[1..] + [d] + s;
      assert d !in p[1..] by {
        forall i | 0 <= i < |p| - 1 ensures p[1..][i] != d { assert p[1..][i] == p[i + 1]; }
      }
      SplitAfterPiece(p[1..], d, s);
      assert [p[0]] + p[1..] == p;
    }
  }

  /** Splitting pieces joined by a separator they do not contain gives the pieces back. */
  lemma {:induction false} JoinSplit(parts: seq<string>, d: char)
    requires |parts| >= 1
    requires forall i :: 0 <= i < |parts| ==> d !in parts[i]
    ensures Split(Join(parts, d), d) == parts
    decreases |parts|
  {
    if |parts| == 1 {
      SplitWithout(parts[0], d);
    } else {
      JoinSplit(parts[1..], d);
      SplitAfterPiece(parts[0], d, Join(parts[1..], d));
    }
  }

  /** Without the separator, a split has the whole string as its one piece. */
  lemma {:induction false} SplitWithout(s: string, d: char)
    requires d !in s
    ensures Split(s, d) == [s]
    decreases |s|
  {
    if s != [] {
      assert d !in s[1..] by {
        forall i | 0 <= i < |s| - 1 ensures s[1..][i] != d { assert s[1..][i] == s[i + 1]; }
      }
      SplitWithout(s[1..], d);
      assert [s[0]] + s[1..] == s;
    }
  }

  predicate IsDigit(c: char) {
    '0' <= c <= '9'
  }

  predicate AllDigits(s: string) {
    forall i :: 0 <= i < |s| ==> IsDigit(s[i])
  }

  /** The value of a run of decimal digits, most significant first. */
  function DigitsValue(ds: string): nat
    requires AllDigits(ds)
    decreases |ds|
  {
    if ds == [] then 0
    else DigitsValue(ds[..|ds| - 1]) * 10 + (ds[|ds| - 1] as int - '0' as int)
  }

  /** The text `int()` accepts once stripped: digits, optionally after one sign. */
  predicate IntLiteral(t: string) {
    || (t != [] && AllDigits(t))
    || (|t| >= 2 && (t[0] == '+' || t[0] == '-') && AllDigits(t[1..]))
  }

  /**
   * Python's `int(s)` for a string: surrounding whitespace is ignored,
   * then an optional sign and at least one decimal digit; anything else
   * raises `ValueError`, modelled as `None`.
   */
  function ParseInt(s: string): (r: Option<int>)
    ensures r.Some? <==> IntLiteral(Strip(s))
    ensures r.Some? && Strip(s)[0] != '-' ==> r.value >= 0
  {
    var t := Strip(s);
    if t != [] && (t[0] == '+' || t[0] == '-') then
      var ds := t[1..];
      if ds != [] && AllDigits(ds) then
        Some(if t[0] == '-' then -(DigitsValue(ds) as int) else DigitsValue(ds))
      else None
    else if t != [] && AllDigits(t) then Some(DigitsValue(t))
    else None
  }

  /** Decimal digits of a natural number (reference for `ParseInt`). */
  function Decimal(n: nat): (ds: string)
    ensures ds != [] && AllDigits(ds)
    decreases n
  {
    var last := ['0' + ((n % 10) as char)];
    if n < 10 then last else Decimal(n / 10) + last
  }

  /** Python's `str(i)` for an integer. */
  function IntToString(i: int): string {
    if i < 0 then "-" + Decimal(-i) else Decimal(i)
  }

  lemma {:induction false} DecimalValue(n: nat)
    ensures DigitsValue(Decimal(n)) == n
    decreases n
  {
    var ds := Decimal(n);
    if n >= 10 {
      DecimalValue(n / 10);
      assert ds[..|ds| - 1] == Decimal(n / 10);
    }
  }

  /** `int(str(i)) == i`. */
  lemma ParseIntRoundTrip(i: int)
    ensures ParseInt(IntToString(i)) == Some(i)
  {
    var s := IntToString(i);
    if i < 0 {
      var ds := Decimal(-i);
      DecimalValue(-i);
      assert IsDigit(ds[|ds| - 1]);
      assert s[0] == '-' && s[|s| - 1] == ds[|ds| - 1];
      StripTrimmed(s);
      assert s[1..] == ds;
    } else {
      var ds := Decimal(i);
      DecimalValue(i);
      assert IsDigit(ds[0]) && IsDigit(ds[|ds| - 1]);
      StripTrimmed(s);
    }
  }

  /** `int()` ignores whitespace around the literal: `int(" 12 ") == 12`. */
  lemma ParseIntPadded(a: string, i: int, c: string)
    requires AllSpace(a) && AllSpace(c)
    ensures ParseInt(a + IntToString(i) + c) == Some(i)
  {
    StripPadded(a, IntToString(i), c);
    ParseIntRoundTrip(i);
  }

  /** A leading `+` is accepted: `int("+12") == 12`. */
  lemma ParseIntPlus(n: nat)
    ensures ParseInt("+" + Decimal(n)) == Some(n)
  {
    var ds := Decimal(n);
    var s := "+" + ds;
    DecimalValue(n);
    assert IsDigit(ds[|ds| - 1]) && s[|s| - 1] == ds[|ds| - 1];
    StripTrimmed(s);
    assert s[1..] == ds;
  }

  /** A leading zero does not change the value of a run of digits. */
  lemma {:induction false} DigitsValueLeadingZero(ds: string)
    requires AllDigits(ds)
    ensures AllDigits("0" + ds) && DigitsValue("0" + ds) == DigitsValue(ds)
    decreases |ds|
  {
    var zs := "0" + ds;
    assert AllDigits(zs) by {
      forall i | 0 <= i < |zs| ensures IsDigit(zs[i]) {
        if i > 0 {
          assert zs[i] == ds[i - 1];
        }
      }
    }
    if ds != [] {
      var init := ds[..|ds| - 1];
      assert AllDigits(init) by {
        forall i | 0 <= i < |init| ensures IsDigit(init[i]) {
          assert init[i] == ds[i];
        }
      }
      DigitsValueLeadingZero(init);
      assert zs[..|zs| - 1] == "0" + init;
      assert zs[|zs| - 1] == ds[|ds| - 1];
    }
  }

  /** Leading zeros are accepted: `int("012") == 12`. */
  lemma ParseIntLeadingZero(n: nat)
    ensures ParseInt("0" + Decimal(n)) == Some(n)
  {
    var ds := Decimal(n);
    var s := "0" + ds;
    DecimalValue(n);
    DigitsValueLeadingZero(ds);
    assert IsDigit(ds[|ds| - 1]) && s[|s| - 1] == ds[|ds| - 1];
    StripTrimmed(s);
  }
}
