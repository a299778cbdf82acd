/** The few java.lang.String and Integer operations the bridge relies on. */
module Text {
  import opened Wrappers

  /** `s.startsWith(prefix)` */
  predicate StartsWith(s: string, prefix: string) {
    |prefix| <= |s| && s[..|prefix|] == prefix
  }

  /** `s.contains(t)`: t occurs somewhere in s. */
  predicate Contains(s: string, t: string)
    decreases |s|
  {
    StartsWith(s, t) || (|s| > 0 && Contains(s[1..], t))
  }

  /** `Character.toUpperCase`, restricted to ASCII letters. */
  function UpperChar(c: char): char {
    if 'a' <= c <= 'z' then (c as int - 32) as char else c
  }

  /** `s.toUpperCase()`, restricted to ASCII letters. */
  function ToUpper(s: string): string {
    seq(|s|, i requires 0 <= i < |s| => UpperChar(s[i]))
  }

  // ---------------------------------------------------------------------------
  // Integer.toString and Integer.parseInt

  function Digit(d: nat): char
    requires d < 10
  {
    ('0' as int + d) as char
  }

  predicate IsDigit(c: char) {
    '0' <= c <= '9'
  }

  predicate AllDigits(s: string) {
    forall i :: 0 <= i < |s| ==> IsDigit(s[i])
  }

  /** `Integer.toString(n)` for a non-negative n: its decimal digits, most significant first. */
  function Decimal(n: nat): (r: string)
    ensures |r| >= 1
    decreases n
  {
    if n < 10 then [Digit(n)] else Decimal(n / 10) + [Digit(n % 10)]
  }

  /** Value of a run of decimal digits. */
  function DigitsValue(s: string): nat
    requires AllDigits(s)
  {
    if s == [] then 0
    else
      assert IsDigit(s[|s| - 1]);
      DigitsValue(s[..|s| - 1]) * 10 + (s[|s| - 1] as int - '0' as int)
  }

  const IntMin: int := -0x8000_0000
  const IntMax: int := 0x7FFF_FFFF

  /** `Integer.parseInt(s)`: an optional sign, then at least one digit, within 32-bit range;
      None where Java throws NumberFormatException. */
  function ParseInt(s: string): (r: Option<int>)
    ensures r.Some? ==> IntMin <= r.value <= IntMax
    ensures s == "" || s == "-" || s == "+" ==> r.None?
    ensures |s| > 0 && s[0] != '-' && s[0] != '+' && !IsDigit(s[0]) ==> r.None?
    ensures s != "" && AllDigits(s) && DigitsValue(s) <= IntMax ==> r == Some(DigitsValue(s) as int)
    ensures s != "" && AllDigits(s) && DigitsValue(s) > IntMax ==> r.None?
    ensures r.Some? ==> |s| > 0 && AllDigits(if s[0] == '-' || s[0] == '+' then s[1..] else s)
    ensures |s| > 1 && s[0] == '-' && AllDigits(s[1..]) ==>
      r == (if DigitsValue(s[1..]) <= IntMax + 1 then Some(-(DigitsValue(s[1..]) as int)) else None)
    ensures |s| > 1 && s[0] == '+' && AllDigits(s[1..]) ==>
      r == (if DigitsValue(s[1..]) <= IntMax then Some(DigitsValue(s[1..]) as int) else None)
  {
    if |s| == 0 then None
    else
      var digits := if s[0] == '-' || s[0] == '+' then s[1..] else s;
      if |digits| == 0 || !AllDigits(digits) then None
      else
        var v: int := if s[0] == '-' then 0 - (DigitsValue(digits) as int) else DigitsValue(digits) as int;
        if IntMin <= v <= IntMax then Some(v) else None
  }

  /** Different numbers print differently, so `name + i` keys never collide for different i. */
  lemma {:induction false} DecimalInjective(a: nat, b: nat)
    requires Decimal(a) == Decimal(b)
    ensures a == b
    decreases a
  {
    if a >= 10 && b >= 10 {
      var s := Decimal(a);
      assert s == Decimal(a / 10) + [Digit(a % 10)];
      assert s == Decimal(b / 10) + [Digit(b % 10)];
      assert s[|s| - 1] == Digit(a % 10) == Digit(b % 10);
      assert s[..|s| - 1] == Decimal(a / 10) == Decimal(b / 10);
      DecimalInjective(a / 10, b / 10);
    }
  }

  lemma {:induction false} DecimalDigits(n: nat)
    ensures AllDigits(Decimal(n)) && DigitsValue(Decimal(n)) == n
    decreases n
  {
    if n >= 10 {
      DecimalDigits(n / 10);
      var s := Decimal(n);
      assert s[..|s| - 1] == Decimal(n / 10);
    }
  }

  /** A printed number holds no character other than digits. */
  lemma DecimalFree(n: nat, c: char)
    requires !IsDigit(c)
    ensures c !in Decimal(n)
  {
    DecimalDigits(n);
  }

  /** Integer.parseInt reads back what Integer.toString printed. */
  lemma ParseIntDecimal(n: nat)
    requires n <= IntMax
    ensures ParseInt(Decimal(n)) == Some(n)
  {
    DecimalDigits(n);
    assert IsDigit(Decimal(n)[0]);
  }

  /** `parseInt` reads a minus sign and the decimal form of n back as -n, down to Integer.MIN_VALUE. */
  lemma ParseIntNegativeDecimal(n: nat)
    requires n <= IntMax + 1
    ensures ParseInt("-" + Decimal(n)) == Some(-(n as int))
  {
    DecimalDigits(n);
    var s := "-" + Decimal(n);
    assert s[1..] == Decimal(n);
  }

  // ---------------------------------------------------------------------------
  // String.split on a single ordinary character

  /** Every piece between occurrences of c, empty pieces included. */
  function RawSplit(s: string, c: char): (r: seq<string>)
    ensures |r| >= 1
  {
    if |s| == 0 then [""]
    else
      var rest := RawSplit(s[1..], c);
      if s[0] == c then [""] + rest else [[s[0]] + rest[0]] + rest[1..]
  }

  /** The pieces glued back together with c between them. */
  function Join(ps: seq<string>, c: char): string
    requires |ps| >= 1
  {
    if |ps| == 1 then ps[0] else ps[0] + [c] + Join(ps[1..], c)
  }

  function DropTrailingEmpty(ps: seq<string>): seq<string> {
    if |ps| == 0 then []
    else if ps[|ps| - 1] == "" then DropTrailingEmpty(ps[..|ps| - 1])
    else ps
  }

  /** `s.split(c)` with Java's rules: no match gives [s]; otherwise trailing empty pieces are removed. */
  function Split(s: string, c: char): seq<string> {
    if c !in s then [s] else DropTrailingEmpty(RawSplit(s, c))
  }

  /** Splitting loses nothing: joining the pieces gives the string back. */
  lemma {:induction false} JoinRawSplit(s: string, c: char)
    ensures Join(RawSplit(s, c), c) == s
  {
    if |s| > 0 {
      var rest := RawSplit(s[1..], c);
      JoinRawSplit(s[1..], c);
      if s[0] == c {
        assert RawSplit(s, c)[1..] == rest;
      } else if |rest| == 1 {
      } else {
        var r := RawSplit(s, c);
        assert r[1..] == rest[1..];
        assert Join(rest, c) == rest[0] + [c] + Join(rest[1..], c);
        assert Join(r, c) == ([s[0]] + rest[0]) + [c] + Join(rest[1..], c);
      }
    }
  }

  /** No piece contains the separator. */
  lemma {:induction false} RawSplitPiecesFree(s: string, c: char)
    ensures forall i :: 0 <= i < |RawSplit(s, c)| ==> c !in RawSplit(s, c)[i]
  {
    if |s| > 0 {
      RawSplitPiecesFree(s[1..], c);
    }
  }

  lemma {:induction false} DropTrailingEmptyPrefix(ps: seq<string>)
    ensures |DropTrailingEmpty(ps)| <= |ps|
    ensures DropTrailingEmpty(ps) == ps[..|DropTrailingEmpty(ps)|]
    ensures forall j :: |DropTrailingEmpty(ps)| <= j < |ps| ==> ps[j] == ""
    ensures |DropTrailingEmpty(ps)| > 0 ==> ps[|DropTrailingEmpty(ps)| - 1] != ""
  {
    if |ps| > 0 && ps[|ps| - 1] == "" {
      DropTrailingEmptyPrefix(ps[..|ps| - 1]);
    }
  }

  /** Java's split keeps a prefix of the raw pieces and drops only empty ones from the end. */
  lemma SplitKeepsPrefix(s: string, c: char)
    ensures |Split(s, c)| <= |RawSplit(s, c)|
    ensures Split(s, c) == RawSplit(s, c)[..|Split(s, c)|]
    ensures forall j :: |Split(s, c)| <= j < |RawSplit(s, c)| ==> RawSplit(s, c)[j] == ""
  {
    if c in s {
      DropTrailingEmptyPrefix(RawSplit(s, c));
    } else {
      RawSplitNoSeparator(s, c);
    }
  }

  /** No piece of `s.split(c)` holds c, and when c occurs the last piece is not empty. */
  lemma SplitPieces(s: string, c: char)
    ensures forall i :: 0 <= i < |Split(s, c)| ==> c !in Split(s, c)[i]
    ensures c in s && |Split(s, c)| > 0 ==> Split(s, c)[|Split(s, c)| - 1] != ""
  {
    if c in s {
      RawSplitPiecesFree(s, c);
      DropTrailingEmptyPrefix(RawSplit(s, c));
    }
  }

  lemma {:induction false} RawSplitNoSeparator(s: string, c: char)
    requires c !in s
    ensures RawSplit(s, c) == [s]
  {
    if |s| > 0 {
      assert c !in s[1..];
      RawSplitNoSeparator(s[1..], c);
      assert s == [s[0]] + s[1..];
    }
  }

  /** Cutting at the first separator: the part before it is the first piece. */
  lemma {:induction false} RawSplitAt(a: string, b: string, c: char)
    requires c !in a
    ensures RawSplit(a + [c] + b, c) == [a] + RawSplit(b, c)
    decreases |a|
  {
    if |a| > 0 {
      assert (a + [c] + b)[1..] == a[1..] + [c] + b;
      assert c !in a[1..];
      RawSplitAt(a[1..], b, c);
      assert a == [a[0]] + a[1..];
    } else {
      assert a + [c] + b == [c] + b;
    }
  }

  /** `(a + c + b).split(c)` is [a, b] for non-empty, separator-free a and b. */
  lemma SplitOnce(a: string, b: string, c: char)
    requires c !in a && c !in b && b != ""
    ensures Split(a + [c] + b, c) == [a, b]
  {
    RawSplitAt(a, b, c);
    RawSplitNoSeparator(b, c);
    assert (a + [c] + b)[|a|] == c;
  }

  /** Splitting separator-free pieces glued with c gives the pieces back. */
  lemma {:induction false} RawSplitJoin(ps: seq<string>, c: char)
    requires |ps| >= 1 && forall i :: 0 <= i < |ps| ==> c !in ps[i]
    ensures RawSplit(Join(ps, c), c) == ps
    decreases |ps|
  {
    if |ps| == 1 {
      RawSplitNoSeparator(ps[0], c);
    } else {
      assert c !in ps[0];
      forall i | 0 <= i < |ps[1..]| ensures c !in ps[1..][i] { assert ps[1..][i] == ps[i + 1]; }
      RawSplitJoin(ps[1..], c);
      RawSplitAt(ps[0], Join(ps[1..], c), c);
      assert ps == [ps[0]] + ps[1..];
    }
  }

  /** `String.split` undoes the join of two or more separator-free pieces when the last is not empty. */
  lemma SplitJoin(ps: seq<string>, c: char)
    requires |ps| >= 2 && ps[|ps| - 1] != "" && forall i :: 0 <= i < |ps| ==> c !in ps[i]
    ensures Split(Join(ps, c), c) == ps
  {
    RawSplitJoin(ps, c);
    assert Join(ps, c)[|ps[0]|] == c;
  }
}
