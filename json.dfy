/** The JSON trees the vsomeip configuration builders produce, compared as
    trees (objects are maps, so key order does not matter), together with
    the two textual renderings they use: `u16::to_string` (decimal) and the
    display form of an IPv4 address. */
module Json {
  import opened SomeIpTypes

  datatype Json =
    | JNull
    | JBool(b: bool)
    | JNum(n: int)
    | JStr(s: string)
    | JArr(items: seq<Json>)
    | JObj(fields: map<string, Json>)

  /** An IPv4 address, octet by octet. */
  datatype IpAddr = V4(a: u8, b: u8, c: u8, d: u8)

  predicate IsDigit(ch: char) {
    '0' <= ch <= '9'
  }

  function DigitChar(d: nat): (ch: char)
    requires d < 10
    ensures IsDigit(ch)
  {
    ('0' as int + d) as char
  }

  /** The decimal rendering of a natural number, without leading zeros. */
  function Decimal(n: nat): (s: string)
    ensures |s| > 0
    ensures forall i :: 0 <= i < |s| ==> IsDigit(s[i])
    ensures s[0] == '0' ==> s == "0"
  {
    if n < 10 then [DigitChar(n)] else Decimal(n / 10) + [DigitChar(n % 10)]
  }

  /** Reading a string of digits back as a number. */
  function ParseDecimal(s: string): nat
    requires forall i :: 0 <= i < |s| ==> IsDigit(s[i])
  {
    if |s| == 0 then 0
    else ParseDecimal(s[..|s| - 1]) * 10 + DigitValue(s[|s| - 1])
  }

  function DigitValue(ch: char): (d: nat)
    requires IsDigit(ch)
    ensures d < 10 && DigitChar(d) == ch
  {
    ch as int - '0' as int
  }

  /** Rendering a number in decimal loses nothing. */
  lemma {:induction false} DecimalRoundTrip(n: nat)
    ensures ParseDecimal(Decimal(n)) == n
  {
    var s := Decimal(n);
    if n >= 10 {
      DecimalRoundTrip(n / 10);
      assert s[..|s| - 1] == Decimal(n / 10);
    }
  }

  /** Different numbers have different decimal renderings. */
  lemma DecimalInjective(m: nat, n: nat)
    requires Decimal(m) == Decimal(n)
    ensures m == n
  {
    DecimalRoundTrip(m);
    DecimalRoundTrip(n);
  }

  /** The display form of an address: four decimal octets joined by dots. */
  function IpString(ip: IpAddr): (s: string)
    ensures |s| >= 7
  {
    Decimal(ip.a as nat) + "." + Decimal(ip.b as nat) + "." + Decimal(ip.c as nat) + "." + Decimal(ip.d as nat)
  }

  predicate DigitsOnly(s: string) {
    forall i :: 0 <= i < |s| ==> IsDigit(s[i])
  }

  /** Inside its leading run of digits, a dotted string has no dot. */
  lemma NoDotWithin(p: string, r: string, i: nat)
    requires DigitsOnly(p) && i < |p|
    ensures (p + "." + r)[i] != '.'
  {
    assert (p + "." + r)[i] == p[i];
  }

  /** Splitting at the first dot: a run of digits, a dot and a rest are
      determined by the string they form. */
  lemma SplitAtDot(p1: string, r1: string, p2: string, r2: string)
    requires DigitsOnly(p1) && DigitsOnly(p2)
    requires p1 + "." + r1 == p2 + "." + r2
    ensures p1 == p2 && r1 == r2
  {
    var s := p1 + "." + r1;
    if |p1| < |p2| {
      NoDotWithin(p2, r2, |p1|);
      assert false;
    } else if |p2| < |p1| {
      NoDotWithin(p1, r1, |p2|);
      assert false;
    }
    assert p1 == s[..|p1|] == p2;
    assert r1 == s[|p1| + 1..] == r2;
  }

  /** Four runs of digits joined by dots are determined by the joined string. */
  lemma SplitDotted(a1: string, b1: string, c1: string, d1: string,
                    a2: string, b2: string, c2: string, d2: string)
    requires DigitsOnly(a1) && DigitsOnly(b1) && DigitsOnly(c1)
    requires DigitsOnly(a2) && DigitsOnly(b2) && DigitsOnly(c2)
    requires a1 + "." + b1 + "." + c1 + "." + d1 == a2 + "." + b2 + "." + c2 + "." + d2
    ensures a1 == a2 && b1 == b2 && c1 == c2 && d1 == d2
  {
    assert a1 + "." + b1 + "." + c1 + "." + d1 == a1 + "." + (b1 + "." + (c1 + "." + d1));
    assert a2 + "." + b2 + "." + c2 + "." + d2 == a2 + "." + (b2 + "." + (c2 + "." + d2));
    SplitAtDot(a1, b1 + "." + (c1 + "." + d1), a2, b2 + "." + (c2 + "." + d2));
    SplitAtDot(b1, c1 + "." + d1, b2, c2 + "." + d2);
    SplitAtDot(c1, d1, c2, d2);
  }

  /** Different addresses are displayed differently. */
  lemma IpStringInjective(x: IpAddr, y: IpAddr)
    requires IpString(x) == IpString(y)
    ensures x == y
  {
    SplitDotted(Decimal(x.a as nat), Decimal(x.b as nat), Decimal(x.c as nat), Decimal(x.d as nat),
                Decimal(y.a as nat), Decimal(y.b as nat), Decimal(y.c as nat), Decimal(y.d as nat));
    DecimalInjective(x.a as nat, y.a as nat);
    DecimalInjective(x.b as nat, y.b as nat);
    DecimalInjective(x.c as nat, y.c as nat);
    DecimalInjective(x.d as nat, y.d as nat);
  }
}
