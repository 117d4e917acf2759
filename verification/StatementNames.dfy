/** The names under which statements are prepared (db.c): the process of the connection and a
    counter, cut off where they outgrow the buffer. */
module StatementNames {
  import opened CStrings

  /** What PQbackendPID returns: a C int. */
  type Pid = x: int | -0x8000_0000 <= x < 0x8000_0000

  const NAME_SIZE: nat := 32

  /** The name of a statement: snprintf keeps what fits the buffer with its terminator. */
  function StatementName(pid: Pid, counter: nat): string {
    var name := "stmt_" + Signed(pid) + "_" + Decimal(counter);
    if |name| < NAME_SIZE then name else name[..NAME_SIZE - 1]
  }

  function Ten(k: nat): (n: nat)
    ensures n > 0
  {
    if k == 0 then 1 else 10 * Ten(k - 1)
  }

  lemma {:induction false} DecimalLength(n: nat, k: nat)
    requires k > 0 && n < Ten(k)
    ensures |Decimal(n)| <= k
  {
    if n >= 10 {
      assert Ten(1) == 10 * Ten(0);
      DecimalLength(n / 10, k - 1);
    }
  }

  /** Behind the last underscore stands the counter. */
  lemma LastUnderscore(a: string, b: string, i: nat, j: nat)
    requires a + "_" + Decimal(i) == b + "_" + Decimal(j)
    ensures i == j
  {
    hide Decimal, Number;
    var d, e := Decimal(i), Decimal(j);
    var s := a + "_" + d;
    assert s[|a|] == '_' && s[|b|] == '_';
    forall k | |a| < k < |s| ensures s[k] != '_' {
      assert s[k] == d[k - |a| - 1];
    }
    forall k | |b| < k < |s| ensures s[k] != '_' {
      assert s[k] == e[k - |b| - 1];
    }
    assert d == s[|a| + 1..] && e == s[|b| + 1..];
    NumberDecimal(i);
    NumberDecimal(j);
  }

  /** The first counter value that may be cut off. */
  const NAME_LIMIT: nat := 100_000_000_000_000

  lemma NameFits(p: Pid, i: nat)
    requires i < NAME_LIMIT
    ensures StatementName(p, i) == "stmt_" + Signed(p) + "_" + Decimal(i)
  {
    hide Decimal;
    Limits();
    DecimalLength(i, 14);
    var pid: int := p;
    var size: nat := if pid < 0 then -pid else pid;
    DecimalLength(size, 10);
  }

  lemma Limits()
    ensures Ten(14) == NAME_LIMIT && Ten(10) == 10_000_000_000
  {
    assert Ten(4) == 10_000;
    assert Ten(8) == 10 * (10 * (10 * (10 * Ten(4))));
    assert Ten(10) == 10 * (10 * Ten(8));
    assert Ten(14) == 10 * (10 * (10 * (10 * Ten(10))));
  }

  /** Names differ as long as the counter is small enough for them not to be cut off. */
  lemma NamesDifferBelow(p: Pid, q: Pid, i: nat, j: nat)
    requires i < NAME_LIMIT && j < NAME_LIMIT && i != j
    ensures StatementName(p, i) != StatementName(q, j)
  {
    hide Decimal, Signed, StatementName;
    NameFits(p, i);
    NameFits(q, j);
    if StatementName(p, i) == StatementName(q, j) {
      LastUnderscore("stmt_" + Signed(p), "stmt_" + Signed(q), i, j);
    }
  }

  lemma {:induction false} DecimalAtLeast(n: nat, k: nat)
    requires Ten(k) <= n
    ensures |Decimal(n)| > k
  {
    if k > 0 {
      DecimalAtLeast(n / 10, k - 1);
    }
  }

  /** From there on, two counters may make one name. */
  lemma NamesCollide()
    ensures StatementName(-0x8000_0000, NAME_LIMIT) == StatementName(-0x8000_0000, NAME_LIMIT + 1)
  {
    hide Decimal;
    Limits();
    assert Ten(10) == 10 * Ten(9);
    assert Ten(14) == 10 * Ten(13);
    DecimalAtLeast(0x8000_0000, 9);
    DecimalAtLeast(NAME_LIMIT / 10, 13);
    LastDigit(NAME_LIMIT);
    LastDigit(NAME_LIMIT + 1);
    CutOff("stmt_" + Signed(-0x8000_0000) + "_",
      Decimal(NAME_LIMIT / 10), Decimal(NAME_LIMIT), Decimal(NAME_LIMIT + 1));
  }

  lemma LastDigit(n: nat)
    requires n >= 10
    ensures |Decimal(n)| == |Decimal(n / 10)| + 1 && Decimal(n / 10) <= Decimal(n)
  {
  }

  lemma CutOff(start: string, d: string, a: string, b: string)
    requires d <= a && d <= b && |start| + |d| >= NAME_SIZE - 1
    ensures (start + a)[..NAME_SIZE - 1] == (start + b)[..NAME_SIZE - 1]
  {
    var n := NAME_SIZE - 1;
    assert start + d <= start + a && start + d <= start + b;
    assert (start + a)[..n] == (start + d)[..n] && (start + b)[..n] == (start + d)[..n];
  }
}
