/** Text helpers shared by the dashboard clock and the backend message:
    decimal rendering of naturals (`Number.prototype.toString`), left
    padding (`String.prototype.padStart`), joining with a separator
    (template literals, `Array.prototype.join`) and splitting on one
    character, together with the round trips that connect them.
 */
module Text {

  predicate IsDigit(c: char)
  {
    '0' <= c <= '9'
  }

  predicate AllDigits(s: string)
  {
    forall i :: 0 <= i < |s| ==> IsDigit(s[i])
  }

  function DigitChar(d: nat): (c: char)
    requires d < 10
    ensures IsDigit(c)
  {
    ['0', '1', '2', '3', '4', '5', '6', '7', '8', '9'][d]
  }

  function DigitValue(c: char): (d: nat)
    requires IsDigit(c)
    ensures d < 10
  {
    (c as int - '0' as int) as nat
  }

  lemma DigitRoundTrip(d: nat)
    requires d < 10
    ensures DigitValue(DigitChar(d)) == d
  {
  }

  /** Decimal rendering of a natural number, most significant digit first,
      without leading zeros. */
  function NatToString(n: nat): (s: string)
    ensures 1 <= |s|
    ensures AllDigits(s)
    ensures s[0] == '0' ==> n == 0
    ensures |s| == 1 <==> n < 10
    ensures |s| <= 2 <==> n < 100
    decreases n
  {
    if n < 10 then [DigitChar(n)]
    else NatToString(n / 10) + [DigitChar(n % 10)]
  }

  /** The value of a string of decimal digits (the empty string reads as 0). */
  function ParseDecimal(s: string): nat
    requires AllDigits(s)
    decreases |s|
  {
    if |s| == 0 then 0
    else ParseDecimal(s[..|s| - 1]) * 10 + DigitValue(s[|s| - 1])
  }

  /** Reading back a rendered natural gives the natural. */
  lemma {:induction false} ParseNatToString(n: nat)
    ensures ParseDecimal(NatToString(n)) == n
    decreases n
  {
    var s := NatToString(n);
    if n < 10 {
      DigitRoundTrip(n);
    } else {
      ParseNatToString(n / 10);
      assert s[..|s| - 1] == NatToString(n / 10);
      DigitRoundTrip(n % 10);
    }
  }

  /** A leading zero does not change the value of a digit string. */
  lemma {:induction false} ParseLeadingZero(s: string)
    requires AllDigits(s)
    ensures AllDigits(['0'] + s)
    ensures ParseDecimal(['0'] + s) == ParseDecimal(s)
    decreases |s|
  {
    var z := ['0'] + s;
    if |s| > 0 {
      assert z[..|z| - 1] == ['0'] + s[..|s| - 1];
      ParseLeadingZero(s[..|s| - 1]);
    }
  }

  /** `s.padStart(width, fill)`: prefix `fill` until `s` has `width` characters. */
  function PadStart(s: string, width: nat, fill: char): (r: string)
    ensures |s| >= width ==> r == s
    ensures |s| < width ==> |r| == width
    ensures exists k: nat :: k <= |r| && r[k..] == s && forall i :: 0 <= i < k ==> r[i] == fill
    decreases width - |s|
  {
    if |s| >= width then
      assert s[0..] == s;
      s
    else
      var r := PadStart([fill] + s, width, fill);
      var k: nat :| k <= |r| && r[k..] == [fill] + s && forall i :: 0 <= i < k ==> r[i] == fill;
      assert r[k + 1..] == s;
      r
  }

  /** Zero-padding a digit string keeps it a digit string of the same value. */
  lemma {:induction false} PadZeroValue(s: string, width: nat)
    requires AllDigits(s)
    ensures AllDigits(PadStart(s, width, '0'))
    ensures ParseDecimal(PadStart(s, width, '0')) == ParseDecimal(s)
    decreases width - |s|
  {
    if |s| < width {
      ParseLeadingZero(s);
      PadZeroValue(['0'] + s, width);
    }
  }

  /** `parts.join(sep)`. */
  /** The number of characters in all the pieces together. */
  function TotalLength(parts: seq<string>): nat
    decreases |parts|
  {
    if |parts| == 0 then 0 else |parts[0]| + TotalLength(parts[1..])
  }

  /** `parts.join(sep)`: the pieces with one separator between neighbours. */
  function Join(parts: seq<string>, sep: string): (r: string)
    ensures |parts| == 0 ==> r == ""
    ensures |parts| >= 1 ==> |r| == TotalLength(parts) + (|parts| - 1) * |sep|
    ensures |parts| >= 1 ==> parts[0] <= r
    decreases |parts|
  {
    if |parts| == 0 then ""
    else if |parts| == 1 then parts[0]
    else parts[0] + sep + Join(parts[1..], sep)
  }

  /** `s.split(c)` for a one-character separator: the maximal pieces between
      occurrences of `c`, always at least one. */
  function Split(s: string, c: char): (parts: seq<string>)
    ensures |parts| >= 1
    decreases |s|
  {
    if |s| == 0 then [""]
    else
      var rest := Split(s[1..], c);
      if s[0] == c then [""] + rest
      else [[s[0]] + rest[0]] + rest[1..]
  }

  /** A string free of the separator splits into itself. */
  lemma {:induction false} SplitNoSeparator(a: string, c: char)
    requires c !in a
    ensures Split(a, c) == [a]
    decreases |a|
  {
    if |a| > 0 {
      SplitNoSeparator(a[1..], c);
      assert [a[0]] + a[1..] == a;
    }
  }

  /** A separator-free prefix is glued onto the first piece. */
  lemma {:induction false} SplitPrefix(a: string, x: string, c: char)
    requires c !in a
    ensures Split(a + x, c) == [a + Split(x, c)[0]] + Split(x, c)[1..]
    decreases |a|
  {
    if |a| > 0 {
      assert (a + x)[1..] == a[1..] + x;
      assert c !in a[1..] by {
        forall i | 0 <= i < |a[1..]| ensures a[1..][i] != c {
          assert a[1..][i] == a[i + 1];
        }
      }
      SplitPrefix(a[1..], x, c);
      assert [a[0]] + (a[1..] + Split(x, c)[0]) == a + Split(x, c)[0];
    } else {
      assert a + x == x;
      assert a + Split(x, c)[0] == Split(x, c)[0];
      assert Split(x, c) == [Split(x, c)[0]] + Split(x, c)[1..];
    }
  }

  /** Splitting `a` followed by a separator and `x`. */
  lemma SplitAfterSeparator(a: string, x: string, c: char)
    requires c !in a
    ensures Split(a + [c] + x, c) == [a] + Split(x, c)
  {
    var cx := [c] + x;
    assert cx[0] == c && cx[1..] == x;
    assert Split(cx, c) == [""] + Split(x, c);
    SplitPrefix(a, cx, c);
    assert a + [c] + x == a + cx;
    assert a + "" == a;
  }

  /** Joining separator-free pieces with a separator that starts with `c`
      (followed by `c`-free text `t`) and splitting again on `c` gives back the
      pieces, every piece after the first carrying the prefix `t`. */
  lemma {:induction false} SplitJoin(ps: seq<string>, c: char, t: string)
    requires |ps| >= 1
    requires c !in t
    requires forall i :: 0 <= i < |ps| ==> c !in ps[i]
    ensures |Split(Join(ps, [c] + t), c)| == |ps|
    ensures Split(Join(ps, [c] + t), c)[0] == ps[0]
    ensures forall i :: 1 <= i < |ps| ==> Split(Join(ps, [c] + t), c)[i] == t + ps[i]
    decreases |ps|
  {
    if |ps| == 1 {
      SplitNoSeparator(ps[0], c);
    } else {
      var tail := ps[1..];
      var rest := Join(tail, [c] + t);
      assert Join(ps, [c] + t) == ps[0] + [c] + (t + rest);
      SplitAfterSeparator(ps[0], t + rest, c);
      SplitJoin(tail, c, t);
      SplitPrefix(t, rest, c);
      var got := [ps[0]] + Split(t + rest, c);
      forall i | 1 <= i < |ps|
        ensures got[i] == t + ps[i]
      {
        if i >= 2 {
          assert got[i] == Split(rest, c)[i - 1];
          assert tail[i - 1] == ps[i];
        }
      }
    }
  }

  /** The simplest case of `SplitJoin`: a one-character separator. */
  lemma SplitJoinChar(ps: seq<string>, c: char)
    requires |ps| >= 1
    requires forall i :: 0 <= i < |ps| ==> c !in ps[i]
    ensures Split(Join(ps, [c]), c) == ps
  {
    assert [c] + "" == [c];
    SplitJoin(ps, c, "");
    var r := Split(Join(ps, [c]), c);
    forall i | 1 <= i < |ps| ensures r[i] == ps[i] {
      assert "" + ps[i] == ps[i];
    }
  }
}
