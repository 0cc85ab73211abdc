/** Options, decimal renderings and UTF-8 lengths shared by the other modules. */
module Text {

  datatype Option<+T> = None | Some(value: T)

  predicate IsDigit(c: char) { '0' <= c <= '9' }

  function Digit(d: nat): (c: char)
    requires d < 10
    ensures IsDigit(c)
  {
    '0' + d as char
  }

  /** The decimal rendering an f-string gives a nonnegative integer. */
  function Decimal(n: nat): (s: string)
    ensures s != []
    ensures forall c :: c in s ==> IsDigit(c)
    ensures Value(s) == n
    decreases n
  {
    if n < 10 then [Digit(n)]
    else
      var s := Decimal(n / 10) + [Digit(n % 10)];
      assert s[..|s| - 1] == Decimal(n / 10);
      s
  }

  /** Reads a decimal rendering back; the left inverse of `Decimal`. */
  function Value(s: string): (n: int)
    decreases |s|
  {
    if s == [] then 0 else 10 * Value(s[..|s| - 1]) + (s[|s| - 1] as int - '0' as int)
  }

  /** Two digit strings followed by the same non-digit separator can only agree
      when the digit strings are equal. */
  lemma DigitsBeforeSeparator(a: string, b: string, sep: char, u: string, v: string)
    requires forall c :: c in a ==> IsDigit(c)
    requires forall c :: c in b ==> IsDigit(c)
    requires !IsDigit(sep)
    requires a + [sep] + u == b + [sep] + v
    ensures a == b && u == v
  {
    var x, y := a + [sep] + u, b + [sep] + v;
    assert x[|a|] == sep && y[|b|] == sep;
    assert forall k :: 0 <= k < |b| ==> y[k] == b[k] && b[k] in b;
    assert forall k :: 0 <= k < |a| ==> x[k] == a[k] && a[k] in a;
    assert |a| == |b|;
    assert x[..|a|] == a && y[..|b|] == b;
    assert x[|a| + 1..] == u && y[|b| + 1..] == v;
  }

  function CharBytes(c: char): (n: nat)
    ensures 1 <= n <= 4
  {
    if c as int < 0x80 then 1 else if c as int < 0x800 then 2
    else if c as int < 0x10000 then 3 else 4
  }

  /** Length of a text in UTF-8 bytes. */
  function Bytes(s: string): (n: nat)
    ensures n >= |s|
  {
    if s == [] then 0 else CharBytes(s[0]) + Bytes(s[1..])
  }

  lemma {:induction false} BytesConcat(a: string, b: string)
    ensures Bytes(a + b) == Bytes(a) + Bytes(b)
  {
    if a == [] {
      assert a + b == b;
    } else {
      assert (a + b)[1..] == a[1..] + b;
      BytesConcat(a[1..], b);
    }
  }
}
