/** The prover fee lookup (packages/client/src/reliquary.ts), as a function of the
    `feeInfo` record the Reliquary contract returns for a prover. */
module Reliquary {
  import opened Errors

  const FeeNoFeeFlag: nat := 1
  const FeeNativeFlag: nat := 2

  datatype FeeInfo = FeeInfo(flags: nat, feeWeiMantissa: nat, feeWeiExponent: nat)

  function Pow10(e: nat): (r: nat)
    ensures r >= 1
  {
    if e == 0 then 1 else 10 * Pow10(e - 1)
  }

  /** `flags & mask` is non-zero, for a single-bit mask. */
  predicate HasFlag(flags: nat, mask: nat)
    requires mask > 0
  {
    (flags / mask) % 2 == 1
  }

  /** `getFee`. */
  function GetFee(fee: FeeInfo): Result<nat> {
    if HasFlag(fee.flags, FeeNoFeeFlag) then Ok(0)
    else if HasFlag(fee.flags, FeeNativeFlag) then Ok(fee.feeWeiMantissa * Pow10(fee.feeWeiExponent))
    else Err(RelicError("prover does not support native fees"))
  }

  /** The three outcomes of `getFee`: bit 1 means no fee, whatever else is set;
      otherwise bit 2 means the fee is mantissa * 10^exponent; otherwise the
      prover is refused. */
  lemma GetFeeCases(fee: FeeInfo)
    ensures fee.flags % 2 == 1 ==> GetFee(fee) == Ok(0)
    ensures fee.flags % 2 == 0 && (fee.flags / 2) % 2 == 1 ==>
      GetFee(fee) == Ok(fee.feeWeiMantissa * Pow10(fee.feeWeiExponent))
    ensures fee.flags % 4 == 0 ==> GetFee(fee) == Err(RelicError("prover does not support native fees"))
  {
    if fee.flags % 4 == 0 {
      assert (fee.flags / 2) % 2 == 0;
    }
  }

  /** Flag bits other than the two low ones do not change the result. */
  lemma {:induction false} OnlyLowBitsMatter(a: FeeInfo, b: FeeInfo)
    requires a.flags % 4 == b.flags % 4
    requires a.feeWeiMantissa == b.feeWeiMantissa && a.feeWeiExponent == b.feeWeiExponent
    ensures GetFee(a) == GetFee(b)
  {
    LowBits(a.flags);
    LowBits(b.flags);
  }

  lemma LowBits(f: nat)
    ensures f % 2 == (f % 4) % 2
    ensures (f / 2) % 2 == (f % 4) / 2
  {
    var q, r := f / 4, f % 4;
    assert f == 4 * q + r;
    assert f / 2 == 2 * q + r / 2;
  }
}
