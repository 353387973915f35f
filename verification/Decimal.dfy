/** Decimal numerals: strconv.Itoa on what is not negative, and strconv.ParseUint(s, 10, 64). */
module Decimal {
  import opened Options

  predicate IsDigit(c: char) {
    '0' <= c <= '9'
  }

  predicate AllDigits(s: string) {
    forall k :: 0 <= k < |s| ==> IsDigit(s[k])
  }

  function Itoa(n: nat): string {
    if n < 10 then [(48 + n) as char] else Itoa(n / 10) + [(48 + n % 10) as char]
  }

  function Signed(n: int): string {
    if n < 0 then "-" + Itoa(-n) else Itoa(n)
  }

  /** The number that a string of digits denotes. */
  function Value(s: string): nat
    requires AllDigits(s)
  {
    if s == "" then 0 else Value(s[..|s| - 1]) * 10 + (s[|s| - 1] as int - 48)
  }

  const MAX_UINT64 := 0xFFFF_FFFF_FFFF_FFFF

  function ParseUint64(s: string): Option<nat> {
    if s == "" || !AllDigits(s) || Value(s) > MAX_UINT64 then None else Some(Value(s))
  }

  function Pow10(k: nat): nat {
    if k == 0 then 1 else 10 * Pow10(k - 1)
  }

  lemma {:induction false} ItoaValue(n: nat)
    ensures Itoa(n) != "" && AllDigits(Itoa(n)) && Value(Itoa(n)) == n
  {
    if n >= 10 {
      ItoaValue(n / 10);
      assert Itoa(n)[..|Itoa(n)| - 1] == Itoa(n / 10);
    } else {
      assert Itoa(n)[..0] == "";
    }
  }

  lemma {:induction false} ItoaInjective(m: nat, n: nat)
    requires Itoa(m) == Itoa(n)
    ensures m == n
  {
    ItoaValue(m);
    ItoaValue(n);
  }

  lemma {:induction false} ItoaLength(n: nat, k: nat)
    requires k >= 1 && n < Pow10(k)
    ensures |Itoa(n)| <= k
  {
    if n >= 10 {
      ItoaLength(n / 10, k - 1);
    }
  }

  /** What was printed is read again, if it fits 64 bits; nothing is no number. */
  lemma {:induction false} ParsePrinted(n: nat)
    ensures ParseUint64(Itoa(n)) == if n <= 18446744073709551615 then Some(n) else None
    ensures ParseUint64("").None?
  {
    ItoaValue(n);
  }
}
