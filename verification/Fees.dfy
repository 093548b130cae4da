/**
 Fee, gas-limit and balance arithmetic of the publish path, at the source's widths: checked u128
 for the fee that is paid, saturating u64 for the gas limit, saturating U256 for the estimate.
 */
module Fees {
  import opened Bytes

  const MAX_FEE_PER_GAS_CAP_WEI := 50_000_000_000
  const PRIORITY_FEE_DEFAULT_WEI := 1_000_000_000
  const GAS_ESTIMATE_NUMER := 12
  const GAS_ESTIMATE_DENOM := 10
  const EXPECTED_REVISION_GAS := 500_000
  const MIN_BUFFER_REVISIONS := 3
  const U256_MAX: int := 0xFFFF_FFFF_FFFF_FFFF_FFFF_FFFF_FFFF_FFFF_FFFF_FFFF_FFFF_FFFF_FFFF_FFFF_FFFF_FFFF

  type u256 = n: int | 0 <= n <= U256_MAX

  function SatMul256(a: u256, b: u256): u256 {
    if a * b > U256_MAX then U256_MAX else if a * b < 0 then 0 else a * b
  }

  /** `u128::try_from(x).unwrap_or(u128::MAX)`. */
  function Clamp128(x: u256): u128 {
    if x > U128_MAX then U128_MAX else x
  }

  // ---------------------------------------------------------------------
  // What a broadcast pays
  // ---------------------------------------------------------------------

  /** Twice the base fee plus the tip; None when u128 arithmetic overflows. */
  function MaxFeePerGas(baseFee: u128): Option<u128> {
    if baseFee * 2 > U128_MAX || baseFee * 2 + PRIORITY_FEE_DEFAULT_WEI > U128_MAX then None
    else Some(baseFee * 2 + PRIORITY_FEE_DEFAULT_WEI)
  }

  /** The fee of a broadcast that neither overflows nor exceeds the cap. */
  function AcceptedFee(baseFee: u128): (r: Option<u128>)
    ensures r.Some? ==> r.value <= MAX_FEE_PER_GAS_CAP_WEI
  {
    match MaxFeePerGas(baseFee)
    case None => None
    case Some(fee) => if fee > MAX_FEE_PER_GAS_CAP_WEI then None else Some(fee)
  }

  /** `est.saturating_mul(12).saturating_div(10)`. */
  function GasLimit(est: u64): u64 {
    Min(est * GAS_ESTIMATE_NUMER, U64_MAX) / GAS_ESTIMATE_DENOM
  }

  /**
   The limit never exceeds 1.2 times the estimate, and covers the estimate for exactly the
   estimates up to a tenth of the u64 range (so for all those the multiplication does not saturate).
   */
  lemma {:induction false} GasLimitBounds(est: u64)
    ensures GAS_ESTIMATE_DENOM * GasLimit(est) <= GAS_ESTIMATE_NUMER * est
    ensures est <= GasLimit(est) <==> est <= U64_MAX / GAS_ESTIMATE_DENOM
    ensures est <= U64_MAX / GAS_ESTIMATE_NUMER ==>
              GasLimit(est) == est * GAS_ESTIMATE_NUMER / GAS_ESTIMATE_DENOM
  {
  }

  // ---------------------------------------------------------------------
  // The pre-publish gate
  // ---------------------------------------------------------------------

  /** The base fee the gate sees: a failed, empty or zero fee history gives None. */
  function ObservedBaseFee(history: Result<Option<u128>, ()>): Option<u128> {
    match history
    case Ok(Some(b)) => if b != 0 then Some(b) else None
    case _ => None
  }

  function EstimateFee(observed: Option<u128>): (fee: u128)
    ensures fee <= MAX_FEE_PER_GAS_CAP_WEI
  {
    match observed
    case None => MAX_FEE_PER_GAS_CAP_WEI
    case Some(b) =>
      var doubled := Min(b * 2, U128_MAX);
      Min(Min(doubled + PRIORITY_FEE_DEFAULT_WEI, U128_MAX), MAX_FEE_PER_GAS_CAP_WEI)
  }

  function EstimateNextPublishCost(observed: Option<u128>): u256 {
    SatMul256(SatMul256(EstimateFee(observed), EXPECTED_REVISION_GAS), MIN_BUFFER_REVISIONS)
  }

  datatype GasBalanceState =
    | Sufficient(balanceWei: u128, estimateWei: u128)
    | RequiresActiveAccount(balanceWei: u128, estimateWei: u128)

  function ComputeBalanceState(balance: u256, estimate: u256): GasBalanceState {
    if balance >= estimate then Sufficient(Clamp128(balance), Clamp128(estimate))
    else RequiresActiveAccount(Clamp128(balance), Clamp128(estimate))
  }

  predicate GatePasses(balance: u256, observed: Option<u128>) {
    ComputeBalanceState(balance, EstimateNextPublishCost(observed)).Sufficient?
  }

  /**
   The state carries both amounts, cut off at u128, and is sufficient exactly when the full balance
   covers the estimate.
   */
  lemma {:induction false} BalanceStateAnswers(balance: u256, estimate: u256)
    ensures var b, e := Min(balance, U128_MAX), Min(estimate, U128_MAX);
            ComputeBalanceState(balance, estimate)
            == if balance >= estimate then Sufficient(b, e) else RequiresActiveAccount(b, e)
  {
  }

  /** No saturation ever happens in the estimate. */
  lemma {:induction false} EstimateIsExact(observed: Option<u128>)
    ensures EstimateNextPublishCost(observed)
            == EstimateFee(observed) * (EXPECTED_REVISION_GAS * MIN_BUFFER_REVISIONS)
  {
  }

  /**
   The gate lets a balance pass exactly when it covers three revisions of 500,000 gas at twice the base
   fee plus the tip, at most the cap; at the cap when the fee history failed, was empty or was zero.
   */
  lemma {:induction false} GateAnswers(balance: u256, history: Result<Option<u128>, ()>)
    ensures var fee := match history
                       case Ok(Some(b)) => if b == 0 then 50_000_000_000 else Min(2 * b + 1_000_000_000, 50_000_000_000)
                       case _ => 50_000_000_000;
            && EstimateNextPublishCost(ObservedBaseFee(history)) == fee * 1_500_000
            && (GatePasses(balance, ObservedBaseFee(history)) <==> balance >= fee * 1_500_000)
  {
    EstimateIsExact(ObservedBaseFee(history));
  }

  lemma {:induction false} ProductBound(a: nat, b: nat, c: nat, d: nat)
    requires a <= c && b <= d
    ensures a * b <= c * d
  {
  }

  /**
   What the gate let through can be paid: at any later base fee that the broadcast accepts, not
   above the observed one, and for a gas estimate up to 1,250,000, the most the transaction can cost
   is within the observed balance. A fee history that failed, was empty or was zero makes the gate
   fall back to the cap, and then no later base fee needs excluding.
   */
  lemma {:induction false} GateCoversBroadcast(balance: u256, history: Result<Option<u128>, ()>, later: u128, est: u64)
    requires GatePasses(balance, ObservedBaseFee(history))
    requires AcceptedFee(later).Some?
    requires forall b: u128 :: history == Ok(Some(b)) && b != 0 ==> later <= b
    requires est <= 1_250_000
    ensures AcceptedFee(later).value * GasLimit(est) <= balance
  {
    var observed := ObservedBaseFee(history);
    EstimateIsExact(observed);
    assert AcceptedFee(later).value <= EstimateFee(observed);
    assert GasLimit(est) <= 1_500_000;
    ProductBound(AcceptedFee(later).value, GasLimit(est), EstimateFee(observed), 1_500_000);
  }

  /** The estimate bound is exact: one unit of gas more and some balance passes the gate but cannot pay. */
  lemma {:induction false} GateBoundIsTight(b: u128, est: u64)
    requires b != 0 && AcceptedFee(b).Some?
    ensures (forall balance: u256 :: GatePasses(balance, Some(b)) ==> AcceptedFee(b).value * GasLimit(est) <= balance)
            <==> est <= 1_250_000
  {
    if est <= 1_250_000 {
      forall balance: u256 | GatePasses(balance, Some(b))
        ensures AcceptedFee(b).value * GasLimit(est) <= balance
      {
        GateCoversBroadcast(balance, Ok(Some(b)), b, est);
      }
    } else {
      EstimateIsExact(Some(b));
      var balance := EstimateNextPublishCost(Some(b));
      assert GatePasses(balance, Some(b));
      var fee := AcceptedFee(b).value;
      assert fee == EstimateFee(Some(b)) && fee >= 1;
      assert GasLimit(est) >= 1_500_001;
      ProductBound(fee, 1_500_001, fee, GasLimit(est));
      assert fee * 1_500_001 == fee * 1_500_000 + fee;
    }
  }

  // ---------------------------------------------------------------------
  // The batch pre-flight
  // ---------------------------------------------------------------------

  datatype BatchBalanceCheck = BatchBalanceCheck(totalEstimatedCostWei: u128, currentBalanceWei: u128)
  {
    predicate IsSufficient() {
      currentBalanceWei >= totalEstimatedCostWei
    }
  }

  /** None for an adapter without a signer. */
  function PreFlightBatchBalance(hasSigner: bool, observed: Option<u128>, balance: u256,
                                 queued: u64): Option<BatchBalanceCheck> {
    if !hasSigner then None
    else
      Some(BatchBalanceCheck(Clamp128(SatMul256(EstimateNextPublishCost(observed), queued)), Clamp128(balance)))
  }

  /** No signer, no check; otherwise the exact cost of all queued revisions, and the balance cut off at u128. */
  lemma {:induction false} PreFlightAnswers(hasSigner: bool, observed: Option<u128>, balance: u256, queued: u64)
    ensures var r := PreFlightBatchBalance(hasSigner, observed, balance, queued);
            && (r.Some? <==> hasSigner)
            && (r.Some? ==>
                  && r.value.totalEstimatedCostWei == EstimateNextPublishCost(observed) * queued
                  && r.value.currentBalanceWei == Min(balance, U128_MAX))
  {
    BatchPreFlightIsExact(observed, balance, queued);
    EstimateIsExact(observed);
    ProductBound(0, 0, EstimateNextPublishCost(observed), queued);
  }

  /** The clamped comparison decides the unclamped question, for every queue length and balance. */
  lemma {:induction false} BatchPreFlightIsExact(observed: Option<u128>, balance: u256, queued: u64)
    ensures EstimateNextPublishCost(observed) * queued < U128_MAX
    ensures PreFlightBatchBalance(true, observed, balance, queued).value.IsSufficient()
            <==> balance >= EstimateNextPublishCost(observed) * queued
  {
    EstimateIsExact(observed);
    var per := EstimateNextPublishCost(observed);
    ProductBound(per, queued, 75_000_000_000_000_000, U64_MAX);
    assert per * queued >= 0;
  }
}
