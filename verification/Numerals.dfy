/** Decimal numerals and the identifier formats built on them. */
module Numerals {

  function Digit(d: nat): char
    requires d < 10
  {
    ('0' as int + d) as char
  }

  /** The numeral Rust's formatter prints for an unsigned integer. */
  function Decimal(n: nat): string {
    if n < 10 then [Digit(n)] else Decimal(n / 10) + [Digit(n % 10)]
  }

  /** Reads a numeral back; leading zeros do not matter. */
  ghost function ValueOf(s: string): int {
    if s == [] then 0 else 10 * ValueOf(s[..|s| - 1]) + (s[|s| - 1] as int - '0' as int)
  }

  lemma {:induction false} DecimalRoundTrip(n: nat)
    ensures ValueOf(Decimal(n)) == n
    ensures Decimal(n) != [] && forall c :: c in Decimal(n) ==> '0' <= c <= '9'
  {
    if n < 10 {
      assert Decimal(n)[..0] == [];
    } else {
      DecimalRoundTrip(n / 10);
      assert Decimal(n)[..|Decimal(n)| - 1] == Decimal(n / 10);
    }
  }

  /** Zero padding to a minimum width, as in a `{:08}` format. */
  function Padded(s: string, width: nat): string
    decreases width - |s|
  {
    if |s| >= width then s else Padded("0" + s, width)
  }

  lemma {:induction false} LeadingZero(s: string)
    ensures ValueOf("0" + s) == ValueOf(s)
  {
    if s == [] {
      assert ("0" + s)[..0] == [];
      assert ValueOf("0" + s) == 10 * ValueOf(("0" + s)[..0]) + 0;
    } else {
      LeadingZero(s[..|s| - 1]);
      assert ("0" + s)[..|s|] == "0" + s[..|s| - 1];
    }
  }

  lemma {:induction false} PaddingKeepsValue(s: string, width: nat)
    ensures ValueOf(Padded(s, width)) == ValueOf(s)
    decreases width - |s|
  {
    if |s| < width {
      LeadingZero(s);
      PaddingKeepsValue("0" + s, width);
    }
  }

  /** `"{prefix}-{n}"`: the shape of simulator order ids. */
  function Numbered(prefix: string, n: nat): string {
    prefix + "-" + Decimal(n)
  }

  /** Numbered identifiers with one prefix are distinct exactly when their numbers are. */
  lemma {:induction false} NumberedInjective(prefix: string, m: nat, n: nat)
    ensures Numbered(prefix, m) == Numbered(prefix, n) <==> m == n
  {
    if Numbered(prefix, m) == Numbered(prefix, n) {
      assert Numbered(prefix, m)[|prefix| + 1..] == Decimal(m);
      assert Numbered(prefix, n)[|prefix| + 1..] == Decimal(n);
      DecimalRoundTrip(m);
      DecimalRoundTrip(n);
    }
  }
}
