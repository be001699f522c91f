/**
 * The few pieces of Go's strings and fmt packages that the downloader relies on:
 * strings.Contains, strings.Split(s, "\n") and the decimal formatting that "%v"
 * gives an int.
 */
module Text {
  import opened Wrappers

  /** strings.Contains: `sub` occurs somewhere in `s`. */
  predicate Contains(s: string, sub: string) {
    exists i | 0 <= i <= |s| - |sub| :: OccursAt(s, sub, i)
  }

  predicate OccursAt(s: string, sub: string, i: int) {
    0 <= i <= |s| - |sub| && s[i..i + |sub|] == sub
  }

  /** strings.Split(s, "\n"): the pieces between newlines; "" splits into [""]. */
  function Split(s: string): (r: seq<string>)
    ensures |r| >= 1
    ensures forall k :: 0 <= k < |r| ==> '\n' !in r[k]
    decreases |s|
  {
    if |s| == 0 then [""]
    else if s[0] == '\n' then [""] + Split(s[1..])
    else
      var t := Split(s[1..]);
      [[s[0]] + t[0]] + t[1..]
  }

  /** strings.Join(ps, "\n"), the inverse of Split. */
  function Join(ps: seq<string>): string
    requires |ps| >= 1
  {
    if |ps| == 1 then ps[0] else ps[0] + "\n" + Join(ps[1..])
  }

  /** Prefixing a character to the first piece prefixes it to the join. */
  lemma JoinConsFirst(c: char, x: string, rest: seq<string>)
    ensures Join([[c] + x] + rest) == [c] + Join([x] + rest)
  {
    if |rest| > 0 {
      var j := Join(rest);
      assert ([[c] + x] + rest)[1..] == rest;
      assert ([x] + rest)[1..] == rest;
      assert ([c] + x) + "\n" + j == [c] + (x + "\n" + j);
    }
  }

  /** Prefixing an empty piece prefixes a newline to the join. */
  lemma JoinConsEmpty(t: seq<string>)
    requires |t| >= 1
    ensures Join([""] + t) == "\n" + Join(t)
  {
    var j := Join(t);
    assert ([""] + t)[1..] == t;
    assert "" + "\n" + j == "\n" + j;
  }

  /** Splitting loses nothing: joining the pieces back gives the input. */
  lemma {:induction false} JoinSplit(s: string)
    ensures Join(Split(s)) == s
    decreases |s|
  {
    if |s| > 0 {
      var t := Split(s[1..]);
      JoinSplit(s[1..]);
      if s[0] == '\n' {
        JoinConsEmpty(t);
      } else {
        JoinConsFirst(s[0], t[0], t[1..]);
        assert [t[0]] + t[1..] == t;
      }
      assert [s[0]] + s[1..] == s;
    }
  }

  /** A line without a newline, followed by a newline, is the first piece. */
  lemma {:induction false} SplitAfterLine(x: string, rest: string)
    requires '\n' !in x
    ensures Split(x + "\n" + rest) == [x] + Split(rest)
    decreases |x|
  {
    if |x| == 0 {
      assert x + "\n" + rest == "\n" + rest;
      assert ("\n" + rest)[1..] == rest;
    } else {
      var s := x + "\n" + rest;
      assert s[0] == x[0] && s[1..] == x[1..] + "\n" + rest;
      SplitAfterLine(x[1..], rest);
      assert [x[0]] + x[1..] == x;
    }
  }

  /** A line without a newline splits into itself. */
  lemma {:induction false} SplitLine(x: string)
    requires '\n' !in x
    ensures Split(x) == [x]
    decreases |x|
  {
    if |x| > 0 {
      SplitLine(x[1..]);
      assert [x[0]] + x[1..] == x;
    }
  }

  /** Splitting the join of newline-free pieces gives the pieces back. */
  lemma {:induction false} SplitJoin(ps: seq<string>)
    requires |ps| >= 1
    requires forall k :: 0 <= k < |ps| ==> '\n' !in ps[k]
    ensures Split(Join(ps)) == ps
  {
    if |ps| == 1 {
      SplitLine(ps[0]);
    } else {
      SplitJoin(ps[1..]);
      SplitAfterLine(ps[0], Join(ps[1..]));
      assert [ps[0]] + ps[1..] == ps;
    }
  }

  predicate IsDigit(c: char) {
    '0' <= c <= '9'
  }

  predicate AllDigits(s: string) {
    forall k :: 0 <= k < |s| ==> IsDigit(s[k])
  }

  function DigitChar(d: nat): (c: char)
    requires d < 10
    ensures IsDigit(c)
  {
    "0123456789"[d]
  }

  function DigitValue(c: char): (d: nat)
    requires IsDigit(c)
    ensures d < 10
  {
    (c as int - '0' as int) as nat
  }

  /** The decimal digits of a natural number, most significant first, no leading zeros. */
  function NatToDecimal(n: nat): (r: string)
    ensures |r| >= 1 && AllDigits(r)
    decreases n
  {
    if n < 10 then [DigitChar(n)] else NatToDecimal(n / 10) + [DigitChar(n % 10)]
  }

  /** What "%v" prints for a Go int: an optional minus sign, then the digits. */
  function IntToDecimal(n: int): string {
    if n < 0 then "-" + NatToDecimal(-n) else NatToDecimal(n)
  }

  /** The value of a string of decimal digits. */
  function DecimalValue(s: string): nat
    requires AllDigits(s)
  {
    if |s| == 0 then 0 else DecimalValue(s[..|s| - 1]) * 10 + DigitValue(s[|s| - 1])
  }

  /** Reads back an optional minus sign and at least one digit; anything else is rejected. */
  function ParseInt(s: string): Option<int> {
    if |s| > 0 && s[0] == '-' then
      (if |s| > 1 && AllDigits(s[1..]) then Some(0 - DecimalValue(s[1..]) as int) else None)
    else if |s| > 0 && AllDigits(s) then Some(DecimalValue(s))
    else None
  }

  lemma {:induction false} NatDecimalRoundTrip(n: nat)
    ensures DecimalValue(NatToDecimal(n)) == n
    decreases n
  {
    var r := NatToDecimal(n);
    if n < 10 {
      assert r[..0] == [];
      assert DigitValue(DigitChar(n)) == n by {
        assert "0123456789"[n] as int == '0' as int + n;
      }
    } else {
      NatDecimalRoundTrip(n / 10);
      assert r[..|r| - 1] == NatToDecimal(n / 10);
      var d := n % 10;
      assert DigitValue(DigitChar(d)) == d by {
        assert "0123456789"[d] as int == '0' as int + d;
      }
    }
  }

  /** A digit string parses as its value. */
  lemma ParseDigits(t: string, v: nat)
    requires |t| >= 1 && AllDigits(t) && DecimalValue(t) == v
    ensures ParseInt(t) == Some(v)
  {
    assert IsDigit(t[0]) && t[0] != '-';
  }

  /** A minus sign followed by a digit string parses as the negated value. */
  lemma ParseNegatedDigits(t: string, v: nat)
    requires |t| >= 1 && AllDigits(t) && DecimalValue(t) == v
    ensures ParseInt("-" + t) == Some(0 - v)
  {
    assert ("-" + t)[1..] == t;
  }

  /** The limit printed into a query string reads back as the same integer. */
  lemma DecimalRoundTrip(n: int)
    ensures ParseInt(IntToDecimal(n)) == Some(n)
  {
    if n < 0 {
      NatDecimalRoundTrip(-n);
      ParseNegatedDigits(NatToDecimal(-n), -n);
    } else {
      NatDecimalRoundTrip(n);
      ParseDigits(NatToDecimal(n), n);
    }
  }
}
