/** Character classes and substring search as the C sources use them, on strings
    without an embedded terminator. */
module CStrings {

  /** isspace in the C locale. */
  predicate IsSpace(c: char) {
    c == ' ' || c == '\t' || c == '\n' || c == '\r' || c == '\U{0B}' || c == '\U{0C}'
  }

  predicate IsDigit(c: char) {
    '0' <= c <= '9'
  }

  predicate AllDigits(s: string) {
    forall i :: 0 <= i < |s| ==> IsDigit(s[i])
  }

  /** The value of a run of decimal digits; the empty text is 0, as in atoi. */
  function Number(s: string): nat
    requires AllDigits(s)
  {
    if s == "" then 0 else 10 * Number(s[..|s| - 1]) + (s[|s| - 1] - '0') as nat
  }

  /** A number as printf prints it with `%lu`, and with `%d`. */
  function Decimal(n: nat): (r: string)
    ensures r != "" && AllDigits(r)
  {
    if n < 10 then [('0' as int + n) as char] else Decimal(n / 10) + [('0' as int + n % 10) as char]
  }

  function Signed(n: int): string {
    if n < 0 then "-" + Decimal(-n) else Decimal(n)
  }

  lemma {:induction false} NumberDecimal(n: nat)
    ensures Number(Decimal(n)) == n
  {
    var d := Decimal(n);
    if n < 10 {
      assert d[..0] == "";
    } else {
      NumberDecimal(n / 10);
      assert d[..|d| - 1] == Decimal(n / 10);
    }
  }

  predicate AllSpace(s: string) {
    forall i :: 0 <= i < |s| ==> IsSpace(s[i])
  }

  predicate NoSpace(s: string) {
    forall i :: 0 <= i < |s| ==> !IsSpace(s[i])
  }

  /** The text d stands at index i of t. */
  predicate Occurs(t: string, i: nat, d: string) {
    i + |d| <= |t| && t[i..i + |d|] == d
  }

  /** The first occurrence of d at or after p, or |t| when there is none. */
  function Find(t: string, p: nat, d: string): (b: nat)
    requires p <= |t| && d != ""
    ensures p <= b <= |t|
    ensures b < |t| ==> Occurs(t, b, d)
    ensures forall i :: p <= i < b ==> !Occurs(t, i, d)
    decreases |t| - p
  {
    if p == |t| || Occurs(t, p, d) then p else Find(t, p + 1, d)
  }

  /** Find is determined by what it promises. */
  lemma FindIs(t: string, p: nat, d: string, b: nat)
    requires p <= b <= |t| && d != ""
    requires b < |t| ==> Occurs(t, b, d)
    requires forall i :: p <= i < b ==> !Occurs(t, i, d)
    ensures Find(t, p, d) == b
  {
  }

  function TrimLeft(s: string): (r: string)
    ensures |r| <= |s| && r == s[|s| - |r|..]
    ensures AllSpace(s[..|s| - |r|])
    ensures r != "" ==> !IsSpace(r[0])
  {
    if s != "" && IsSpace(s[0]) then TrimLeft(s[1..]) else s
  }

  function TrimRight(s: string): (r: string)
    ensures |r| <= |s| && r == s[..|r|]
    ensures AllSpace(s[|r|..])
    ensures r != "" ==> !IsSpace(r[|r| - 1])
  {
    if s != "" && IsSpace(s[|s| - 1]) then TrimRight(s[..|s| - 1]) else s
  }

  function Trim(s: string): string {
    TrimRight(TrimLeft(s))
  }

  /** How many characters come before the first white space. */
  function WordLength(s: string): (n: nat)
    ensures n <= |s| && NoSpace(s[..n])
    ensures n < |s| ==> IsSpace(s[n])
  {
    if s == "" || IsSpace(s[0]) then 0 else 1 + WordLength(s[1..])
  }
}
