/** Strings as the source's code handles them: decimal numbers, split and join, and unique decoding
    around a separator. */
module Text {

  lemma Associate<T>(x: seq<T>, y: seq<T>, z: seq<T>)
    ensures (x + y) + z == x + (y + z)
  {
  }

  // ---------- Decimal numbers ----------

  predicate IsDigit(c: char) { '0' <= c <= '9' }

  function DigitChar(d: nat): (c: char)
    requires d < 10
    ensures IsDigit(c)
  {
    '0' + d as char
  }

  function DigitValue(c: char): (d: nat)
    requires IsDigit(c)
    ensures d < 10
  {
    (c - '0') as nat
  }

  predicate AllDigits(s: string) {
    forall i :: 0 <= i < |s| ==> IsDigit(s[i])
  }

  function Decimal(n: nat): (s: string)
    ensures s != [] && AllDigits(s)
  {
    if n < 10 then [DigitChar(n)] else Decimal(n / 10) + [DigitChar(n % 10)]
  }

  /** The number that a string of digits denotes, leading zeros included. */
  function Value(s: string): nat
    requires AllDigits(s)
  {
    if s == [] then 0 else 10 * Value(s[..|s| - 1]) + DigitValue(s[|s| - 1])
  }

  lemma {:induction false} ValueOfDecimal(n: nat)
    ensures Value(Decimal(n)) == n
  {
    if n >= 10 {
      ValueOfDecimal(n / 10);
      assert Decimal(n)[..|Decimal(n)| - 1] == Decimal(n / 10);
    }
  }

  lemma DecimalInjective(m: nat, n: nat)
    requires Decimal(m) == Decimal(n)
    ensures m == n
  {
    ValueOfDecimal(m);
    ValueOfDecimal(n);
  }

  lemma {:induction false} ValueBounds(s: string)
    requires AllDigits(s) && |s| > 1 && s[0] != '0'
    ensures Value(s) >= 10
  {
    if |s| > 2 { ValueBounds(s[..|s| - 1]); }
  }

  lemma {:induction false} NoLeadingZero(n: nat)
    ensures |Decimal(n)| > 1 ==> Decimal(n)[0] != '0'
    ensures |Decimal(n)| == 1 ==> Decimal(n) == "0123456789"[n..n + 1]
  {
    if n >= 10 {
      NoLeadingZero(n / 10);
      if n < 100 { assert Decimal(n / 10) == [DigitChar(n / 10)]; }
    }
  }

  lemma {:induction false} OneDecimal(s: string)
    requires AllDigits(s) && s != "" && (|s| > 1 ==> s[0] != '0')
    ensures Decimal(Value(s)) == s
  {
    var n := |s| - 1;
    if n > 0 {
      ValueBounds(s);
      OneDecimal(s[..n]);
      assert s == s[..n] + [s[n]];
    } else {
      assert s[..n] == "" && s == [s[0]];
    }
  }

  /** The decimal form of a number is the string of digits with that value and no zero in front. */
  lemma DecimalExact(n: nat, s: string)
    ensures s == Decimal(n) <==> s != "" && AllDigits(s) && Value(s) == n && (|s| > 1 ==> s[0] != '0')
    ensures n < 10 ==> Decimal(n) == "0123456789"[n..n + 1]
  {
    ValueOfDecimal(n);
    NoLeadingZero(n);
    if s != "" && AllDigits(s) && Value(s) == n && (|s| > 1 ==> s[0] != '0') { OneDecimal(s); }
  }

  lemma DigitsLack(s: string, c: char)
    requires AllDigits(s) && !IsDigit(c)
    ensures c !in s
  {
  }

  // ---------- Split and join ----------

  function Split(s: string, c: char): (parts: seq<string>)
    ensures parts != []
  {
    if s == [] then [""]
    else
      var rest := Split(s[1..], c);
      if s[0] == c then [""] + rest else [[s[0]] + rest[0]] + rest[1..]
  }

  function Join(parts: seq<string>, c: char): string {
    if parts == [] then ""
    else if |parts| == 1 then parts[0]
    else parts[0] + [c] + Join(parts[1..], c)
  }

  lemma {:induction false} SplitOfNone(s: string, c: char)
    requires c !in s
    ensures Split(s, c) == [s]
  {
    if s != [] {
      SplitOfNone(s[1..], c);
      assert s[0] in s && s == [s[0]] + s[1..];
    }
  }

  lemma {:induction false} SplitAtFirst(a: string, c: char, b: string)
    requires c !in a
    ensures Split(a + [c] + b, c) == [a] + Split(b, c)
  {
    var s := a + [c] + b;
    if a == [] {
      assert s[1..] == b;
    } else {
      assert s[1..] == a[1..] + [c] + b;
      SplitAtFirst(a[1..], c, b);
      assert s[0] == a[0] && a[0] in a && a == [a[0]] + a[1..];
    }
  }

  lemma {:induction false} SplitOfJoin(parts: seq<string>, c: char)
    requires parts != [] && forall i :: 0 <= i < |parts| ==> c !in parts[i]
    ensures Split(Join(parts, c), c) == parts
  {
    if |parts| == 1 {
      SplitOfNone(parts[0], c);
    } else {
      SplitOfJoin(parts[1..], c);
      SplitAtFirst(parts[0], c, Join(parts[1..], c));
    }
  }

  lemma {:induction false} SplitPartsLack(s: string, c: char)
    ensures forall i :: 0 <= i < |Split(s, c)| ==> c !in Split(s, c)[i]
  {
    if s != [] {
      SplitPartsLack(s[1..], c);
    }
  }

  lemma {:induction false} JoinOfSplit(s: string, c: char)
    ensures Join(Split(s, c), c) == s
  {
    if s != [] {
      JoinOfSplit(s[1..], c);
    }
  }

  // ---------- Unique decoding ----------

  /** The text before and after the last separator. */
  lemma LastSeparator(a: string, b: string, x: string, y: string, c: char)
    requires a + [c] + b == x + [c] + y && c !in b && c !in y
    ensures a == x && b == y
  {
    var s := a + [c] + b;
    assert s[|a|] == c && s[|x|] == c;
    assert forall i :: |a| < i < |s| ==> s[i] == b[i - |a| - 1];
    assert forall i :: |x| < i < |s| ==> s[i] == y[i - |x| - 1];
    SameSplit(a, b, x, y, c);
  }

  /** The text before and after the first separator. */
  lemma FirstSeparator(a: string, b: string, x: string, y: string, c: char)
    requires a + [c] + b == x + [c] + y && c !in a && c !in x
    ensures a == x && b == y
  {
    var s := a + [c] + b;
    assert s[|a|] == c && s[|x|] == c;
    assert forall i :: 0 <= i < |a| ==> s[i] == a[i];
    assert forall i :: 0 <= i < |x| ==> s[i] == x[i];
    SameSplit(a, b, x, y, c);
  }

  lemma SameSplit(a: string, b: string, x: string, y: string, c: char)
    requires a + [c] + b == x + [c] + y && |a| == |x|
    ensures a == x && b == y
  {
    var s := a + [c] + b;
    assert a == s[..|a|] && x == s[..|a|];
    assert b == s[|a| + 1..] && y == s[|a| + 1..];
  }

  // ---------- White space ----------

  /** The characters that trim removes and that \s matches. */
  predicate IsSpace(c: char) {
    || c == ' ' || '\t' <= c <= '\r' || c == '\U{00A0}' || c == '\U{1680}' || '\U{2000}' <= c <= '\U{200A}'
    || c == '\U{2028}' || c == '\U{2029}' || c == '\U{202F}' || c == '\U{205F}' || c == '\U{3000}' || c == '\U{FEFF}'
  }

  function TrimStart(s: string): string {
    if s != [] && IsSpace(s[0]) then TrimStart(s[1..]) else s
  }

  function TrimEnd(s: string): string {
    if s != [] && IsSpace(s[|s| - 1]) then TrimEnd(s[..|s| - 1]) else s
  }

  function Trim(s: string): string { TrimEnd(TrimStart(s)) }

  predicate AllSpace(s: string) {
    forall i :: 0 <= i < |s| ==> IsSpace(s[i])
  }

  /** No white space at the ends. */
  predicate IsBare(s: string) {
    s != "" ==> !IsSpace(s[0]) && !IsSpace(s[|s| - 1])
  }

  lemma {:induction false} TrimStartOf(a: string, s: string)
    requires AllSpace(a) && (s != "" ==> !IsSpace(s[0]))
    ensures TrimStart(a + s) == s
  {
    if a != "" {
      TrimStartOf(a[1..], s);
      assert (a + s)[1..] == a[1..] + s;
    } else {
      assert a + s == s;
    }
  }

  lemma {:induction false} TrimEndOf(s: string, b: string)
    requires AllSpace(b) && (s != "" ==> !IsSpace(s[|s| - 1]))
    ensures TrimEnd(s + b) == s
  {
    if b != "" {
      TrimEndOf(s, b[..|b| - 1]);
      assert (s + b)[..|s + b| - 1] == s + b[..|b| - 1];
    } else {
      assert s + b == s;
    }
  }

  lemma {:induction false} TrimStartCuts(s: string) returns (a: string)
    ensures AllSpace(a) && s == a + TrimStart(s) && (TrimStart(s) != "" ==> !IsSpace(TrimStart(s)[0]))
  {
    if s != "" && IsSpace(s[0]) {
      var rest := TrimStartCuts(s[1..]);
      a := [s[0]] + rest;
    } else {
      a := "";
    }
  }

  lemma {:induction false} TrimEndCuts(s: string) returns (b: string)
    ensures AllSpace(b) && s == TrimEnd(s) + b && TrimEnd(s) <= s
    ensures TrimEnd(s) != "" ==> !IsSpace(TrimEnd(s)[|TrimEnd(s)| - 1])
  {
    if s != "" && IsSpace(s[|s| - 1]) {
      var rest := TrimEndCuts(s[..|s| - 1]);
      b := rest + [s[|s| - 1]];
    } else {
      b := "";
    }
  }

  /** The trimmed text is the one without white space at its ends that leaves white space on both sides. */
  lemma TrimExact(s: string, t: string)
    ensures t == Trim(s) <==>
            IsBare(t) && exists a: string, b: string :: AllSpace(a) && AllSpace(b) && s == a + (t + b)
  {
    var a := TrimStartCuts(s);
    var b := TrimEndCuts(TrimStart(s));
    assert s == a + (Trim(s) + b);
    if a: string, b: string :| AllSpace(a) && AllSpace(b) && s == a + (t + b) && IsBare(t) {
      if t == "" {
        assert AllSpace(s) && s + "" == s;
        TrimStartOf(s, "");
      } else {
        TrimStartOf(a, t + b);
        TrimEndOf(t, b);
      }
    }
  }
}
