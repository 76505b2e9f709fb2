/**
  Cluster ids on the wire are the strings "c1", "c2", ... built by
  `"c" + idx++`. The model keeps the number; this module shows that the
  string form is a faithful encoding: it can be read back, so two labels are
  equal exactly when their numbers are.
*/
module Labels {
  import opened Optional

  function DigitChar(d: nat): (c: char)
    requires d < 10
    ensures '0' <= c <= '9'
  {
    "0123456789"[d]
  }

  function DigitValue(c: char): nat
  {
    if '0' <= c <= '9' then (c - '0') as nat else 0
  }

  /** Java's decimal rendering of a non-negative int: no sign, no leading zeros. */
  function Decimal(n: nat): (s: string)
    ensures |s| >= 1
    decreases n
  {
    if n < 10 then [DigitChar(n)] else Decimal(n / 10) + [DigitChar(n % 10)]
  }

  /** The value of a string of decimal digits. */
  function DecimalValue(s: string): nat
    decreases |s|
  {
    if s == [] then 0 else DecimalValue(s[..|s| - 1]) * 10 + DigitValue(s[|s| - 1])
  }

  /** The cluster id a pass gives to cluster number n. */
  function Label(n: nat): string
  {
    "c" + Decimal(n)
  }

  /** Reads a cluster id back; None for strings that are not labels. */
  function ParseLabel(s: string): Option<nat>
  {
    if |s| >= 2 && s[0] == 'c' && forall i :: 1 <= i < |s| ==> '0' <= s[i] <= '9'
    then Some(DecimalValue(s[1..]))
    else None
  }

  lemma {:induction false} DigitRoundTrip(d: nat)
    requires d < 10
    ensures DigitValue(DigitChar(d)) == d
  {
    assert "0123456789"[d] as int - '0' as int == d by {
      if d == 0 {} else if d == 1 {} else if d == 2 {} else if d == 3 {} else if d == 4 {}
      else if d == 5 {} else if d == 6 {} else if d == 7 {} else if d == 8 {} else {}
    }
  }

  lemma {:induction false} DecimalRoundTrip(n: nat)
    ensures DecimalValue(Decimal(n)) == n
    ensures forall i :: 0 <= i < |Decimal(n)| ==> '0' <= Decimal(n)[i] <= '9'
    decreases n
  {
    if n < 10 {
      DigitRoundTrip(n);
      assert Decimal(n)[..0] == [];
    } else {
      DecimalRoundTrip(n / 10);
      DigitRoundTrip(n % 10);
      var s := Decimal(n);
      assert s[..|s| - 1] == Decimal(n / 10);
    }
  }

  /** Every label reads back as the number it was made from. */
  lemma LabelRoundTrip(n: nat)
    ensures ParseLabel(Label(n)) == Some(n)
  {
    DecimalRoundTrip(n);
    assert Label(n)[1..] == Decimal(n);
  }

  /** Two clusters get the same label only when they have the same number. */
  lemma LabelInjective(a: nat, b: nat)
    ensures Label(a) == Label(b) <==> a == b
  {
    LabelRoundTrip(a);
    LabelRoundTrip(b);
  }
}
