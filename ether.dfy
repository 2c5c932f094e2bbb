/**
 * `ethers.formatEther` as the cards use it, and the cards' progress guard written the
 * way the cards write it. The formatted text of an amount always carries a decimal
 * point ("0.0" for zero), so a guard comparing it with "0" never fires; `Listing.Progress`
 * is the guarded percentage the cards evidently intend.
 */
module Ether {
  import opened Listing

  const WeiPerEther: nat := 1_000_000_000_000_000_000
  const FractionDigits: nat := 18

  function DigitChar(d: nat): char
    requires d < 10
  {
    ('0' as int + d) as char
  }

  /** The decimal numeral of `n`, without leading zeros ("0" for zero). */
  function Decimal(n: nat): (s: string)
    ensures |s| >= 1
    decreases n
  {
    if n < 10 then [DigitChar(n)] else Decimal(n / 10) + [DigitChar(n % 10)]
  }

  function Zeros(k: nat): (s: string)
    ensures |s| == k
    ensures forall i :: 0 <= i < k ==> s[i] == '0'
  {
    if k == 0 then [] else Zeros(k - 1) + "0"
  }

  /** Left-pad with zeros to `width` characters. */
  function PadLeft(s: string, width: nat): (r: string)
    ensures |r| == if |s| < width then width else |s|
  {
    if |s| < width then Zeros(width - |s|) + s else s
  }

  /** Drop trailing zeros, leaving at least one digit. */
  function StripTrailingZeros(s: string): (r: string)
    requires |s| >= 1
    ensures 1 <= |r| <= |s|
  {
    if |s| > 1 && s[|s| - 1] == '0' then StripTrailingZeros(s[..|s| - 1]) else s
  }

  /**
   * `formatEther(wei)`: the whole ethers, ".", then the eighteen fractional digits with
   * trailing zeros dropped but at least one kept.
   */
  function FormatEther(wei: nat): (s: string)
    ensures |s| >= 3 && |s| > |Decimal(wei / WeiPerEther)| + 1
    ensures s[|Decimal(wei / WeiPerEther)|] == '.'
  {
    Decimal(wei / WeiPerEther) + "." + StripTrailingZeros(PadLeft(Decimal(wei % WeiPerEther), FractionDigits))
  }

  lemma {:induction false} StripZeros(k: nat)
    requires k >= 1
    ensures StripTrailingZeros(Zeros(k)) == "0"
  {
    if k > 1 {
      assert Zeros(k)[..k - 1] == Zeros(k - 1);
      StripZeros(k - 1);
    }
  }

  /** A zero amount formats as "0.0", not "0". */
  lemma FormatEtherZero()
    ensures FormatEther(0) == "0.0"
  {
    assert Decimal(0) == "0";
    assert PadLeft("0", FractionDigits) == Zeros(17) + "0";
    assert Zeros(17) + "0" == Zeros(18);
    StripZeros(18);
  }

  /** No amount formats as "0": every result is at least three characters with a point. */
  lemma FormatEtherIsNeverBareZero(wei: nat)
    ensures FormatEther(wei) != "0"
    ensures '.' in FormatEther(wei)
  {
  }

  /** A JavaScript number as far as the cards can produce one: a finite value or NaN. */
  datatype JsNumber = Finite(value: real) | NaN

  /**
   * The cards' progress as written: `goalAmount === "0" ? 0 : Math.min(100, raised / goal * 100)`
   * over the formatted amounts. When the goal is zero the division gives NaN (0/0) or
   * Infinity, which `Math.min` turns into 100.
   */
  function CardProgressAsWritten(raised: nat, goal: nat): JsNumber {
    if FormatEther(goal) == "0" then Finite(0.0)
    else if goal == 0 then (if raised == 0 then NaN else Finite(100.0))
    else Finite(MinReal(100.0, (raised as real / goal as real) * 100.0))
  }

  /** With a positive goal the written guard is harmless: the card shows `Progress`. */
  lemma CardProgressAgreesAboveZero(raised: nat, goal: nat)
    requires goal > 0
    ensures CardProgressAsWritten(raised, goal) == Finite(Progress(raised, goal))
  {
    FormatEtherIsNeverBareZero(goal);
  }

  /**
   * With a zero goal the guard does not fire: a card with nothing raised gets NaN as
   * its bar width and one with something raised shows a full bar, where `Progress`
   * gives 0 in both cases.
   */
  lemma CardProgressOnZeroGoal(raised: nat)
    ensures CardProgressAsWritten(raised, 0) == if raised == 0 then NaN else Finite(100.0)
    ensures Progress(raised, 0) == 0.0
  {
    FormatEtherIsNeverBareZero(0);
  }
}
