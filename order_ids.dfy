/** Order ids of the form `ORD-<milliseconds since the epoch>`; the clock reading is a parameter. */
module OrderIds {

  /** The decimal digit character for `d`. */
  function DigitChar(d: nat): (c: char)
    requires d < 10
    ensures '0' <= c <= '9'
  {
    (48 + d) as char
  }

  /** The decimal representation of `n`, without leading zeros, as a JavaScript template literal prints it. */
  function Decimal(n: nat): (s: string)
    ensures |s| >= 1
    ensures forall i :: 0 <= i < |s| ==> '0' <= s[i] <= '9'
    ensures n < 10 <==> |s| == 1
    ensures n >= 10 ==> s[0] != '0'
  {
    if n < 10 then [DigitChar(n)] else Decimal(n / 10) + [DigitChar(n % 10)]
  }

  /** `ORD-${Date.now()}`. */
  function OrderId(clock: nat): (id: string)
    ensures |id| >= 5 && id[..4] == "ORD-"
    ensures forall i :: 4 <= i < |id| ==> '0' <= id[i] <= '9'
    ensures clock >= 10 ==> id[4] != '0'
  {
    "ORD-" + Decimal(clock)
  }

  /** Two different decimal strings come from two different numbers. */
  lemma {:induction false} DecimalInjective(a: nat, b: nat)
    requires Decimal(a) == Decimal(b)
    ensures a == b
  {
    var s := Decimal(a);
    if a >= 10 {
      assert b >= 10;
      assert s[..|s| - 1] == Decimal(a / 10);
      assert Decimal(b)[..|s| - 1] == Decimal(b / 10);
      DecimalInjective(a / 10, b / 10);
      assert DigitChar(a % 10) == DigitChar(b % 10);
    }
  }

  /** Checkouts at different clock readings get different order ids. */
  lemma OrderIdsDiffer(clock1: nat, clock2: nat)
    requires clock1 != clock2
    ensures OrderId(clock1) != OrderId(clock2)
  {
    if OrderId(clock1) == OrderId(clock2) {
      assert Decimal(clock1) == OrderId(clock1)[4..];
      assert Decimal(clock2) == OrderId(clock2)[4..];
      DecimalInjective(clock1, clock2);
    }
  }
}
