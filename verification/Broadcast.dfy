/**
 The publish broadcast loop against an arbitrary RPC node: nonce, base fee, gas estimate, send,
 with bounded retries. What the node answers in attempt n is `rpc(n)`; error messages are taken
 as already classified.
 */
module Broadcast {
  import opened Bytes
  import opened Fees

  const PUBLISH_REVISION_MAX_RETRIES := 3
  const PUBLISH_REVISION_BACKOFF_MS: seq<nat> := [250, 1_000, 4_000]

  /** What the message classifiers say about an RPC error. */
  datatype RpcError = RpcError(revert: bool, insufficientFunds: bool, nonceCollision: bool, transient: bool)

  /** The node's answers within one attempt. */
  datatype Answers = Answers(
    nonce: Result<u64, RpcError>,
    feeHistory: Result<Option<u128>, RpcError>,
    gasPrice: Result<u128, RpcError>,
    estimate: Result<u64, RpcError>,
    send: Result<Word, RpcError>)

  type Rpc = nat -> Answers

  datatype Tx = Tx(nonce: u64, maxFeePerGas: u128, gasLimit: u64)

  /** What the loop does, in order; each RPC call carries the attempt it is made in. */
  datatype Action =
    | GetNonce(attempt: nat)
    | GetFeeHistory(attempt: nat)
    | GetGasPrice(attempt: nat)
    | EstimateGas(attempt: nat)
    | Send(attempt: nat, tx: Tx)
    | Sleep(ms: nat)

  datatype BroadcastError =
    | RpcTransient(attempts: nat)
    | Rpc
    | GasCapExceeded
    | RevertedPreBroadcast
    | InsufficientFunds
    | NonceUnresolvable(attempts: nat)

  type Outcome = Result<Word, BroadcastError>

  function Backoff(attempts: nat): nat
    requires attempts >= 1
  {
    PUBLISH_REVISION_BACKOFF_MS[Min(attempts - 1, |PUBLISH_REVISION_BACKOFF_MS| - 1)]
  }

  /** The latest base fee, or the gas price when the history is empty or zero. */
  method FetchBaseFee(rpc: Rpc, attempt: nat) returns (fee: Result<u128, BroadcastError>, acts: seq<Action>)
    ensures fee == BaseFee(rpc(attempt)) && acts == FeeActions(rpc(attempt), attempt)
  {
    acts := [GetFeeHistory(attempt)];
    var hist := rpc(attempt).feeHistory;
    if hist.Err? {
      return Err(Rpc), acts;
    }
    if hist.value.Some? && hist.value.value != 0 {
      return Ok(hist.value.value), acts;
    }
    acts := acts + [GetGasPrice(attempt)];
    var price := rpc(attempt).gasPrice;
    if price.Err? {
      return Err(Rpc), acts;
    }
    return Ok(price.value), acts;
  }

  function BaseFee(a: Answers): Result<u128, BroadcastError> {
    if a.feeHistory.Err? then Err(Rpc)
    else if a.feeHistory.value.Some? && a.feeHistory.value.value != 0 then Ok(a.feeHistory.value.value)
    else if a.gasPrice.Err? then Err(Rpc)
    else Ok(a.gasPrice.value)
  }

  function FeeActions(a: Answers, attempt: nat): seq<Action> {
    if a.feeHistory.Err? || (a.feeHistory.value.Some? && a.feeHistory.value.value != 0)
    then [GetFeeHistory(attempt)]
    else [GetFeeHistory(attempt), GetGasPrice(attempt)]
  }

  /** How one attempt ends: for good, or with another attempt to follow. */
  datatype Verdict = Stop(outcome: Outcome) | Again(sleep: bool)

  function Retry(e: RpcError, attempts: nat): Verdict {
    if e.transient && attempts < PUBLISH_REVISION_MAX_RETRIES then Again(true)
    else Stop(Err(RpcTransient(attempts)))
  }

  /** The transaction of an attempt that gets as far as sending one. */
  function TxOf(a: Answers): Option<Tx> {
    if a.nonce.Err? || BaseFee(a).Err? || AcceptedFee(BaseFee(a).value).None? || a.estimate.Err? then None
    else Some(Tx(a.nonce.value, AcceptedFee(BaseFee(a).value).value, GasLimit(a.estimate.value)))
  }

  function VerdictOf(a: Answers, attempts: nat): Verdict {
    if a.nonce.Err? then Retry(a.nonce.error, attempts)
    else if BaseFee(a).Err? || MaxFeePerGas(BaseFee(a).value).None? then Stop(Err(Rpc))
    else if AcceptedFee(BaseFee(a).value).None? then Stop(Err(GasCapExceeded))
    else if a.estimate.Err? then
      if a.estimate.error.revert then Stop(Err(RevertedPreBroadcast))
      else if a.estimate.error.insufficientFunds then Stop(Err(InsufficientFunds))
      else Retry(a.estimate.error, attempts)
    else if a.send.Ok? then Stop(Ok(a.send.value))
    else if a.send.error.nonceCollision then
      if attempts < PUBLISH_REVISION_MAX_RETRIES then Again(false) else Stop(Err(NonceUnresolvable(attempts)))
    else if a.send.error.insufficientFunds then Stop(Err(InsufficientFunds))
    else Retry(a.send.error, attempts)
  }

  function SleepAfter(v: Verdict, attempt: nat): seq<Action>
    requires attempt >= 1
  {
    if v == Again(true) then [Sleep(Backoff(attempt))] else []
  }

  function AttemptActions(a: Answers, n: nat): seq<Action>
    requires n >= 1
  {
    var sleep := SleepAfter(VerdictOf(a, n), n);
    if a.nonce.Err? then [GetNonce(n)] + sleep
    else if BaseFee(a).Err? || AcceptedFee(BaseFee(a).value).None? then [GetNonce(n)] + FeeActions(a, n)
    else if a.estimate.Err? then [GetNonce(n)] + FeeActions(a, n) + [EstimateGas(n)] + sleep
    else [GetNonce(n)] + FeeActions(a, n) + [EstimateGas(n)] + [Send(n, TxOf(a).value)] + sleep
  }

  /** One pass through the loop body. */
  method Attempt(rpc: Rpc, n: nat) returns (v: Verdict, acts: seq<Action>)
    requires 1 <= n <= PUBLISH_REVISION_MAX_RETRIES
    ensures v == VerdictOf(rpc(n), n) && acts == AttemptActions(rpc(n), n)
  {
    var a := rpc(n);
    acts := [GetNonce(n)];
    if a.nonce.Err? {
      v := Retry(a.nonce.error, n);
      acts := acts + SleepAfter(v, n);
      return;
    }
    var fee, feeActs := FetchBaseFee(rpc, n);
    acts := acts + feeActs;
    if fee.Err? {
      return Stop(Err(fee.error)), acts;
    }
    var maxFee := MaxFeePerGas(fee.value);
    if maxFee.None? {
      return Stop(Err(Rpc)), acts;
    }
    if maxFee.value > MAX_FEE_PER_GAS_CAP_WEI {
      return Stop(Err(GasCapExceeded)), acts;
    }
    acts := acts + [EstimateGas(n)];
    if a.estimate.Err? {
      v := if a.estimate.error.revert then Stop(Err(RevertedPreBroadcast))
           else if a.estimate.error.insufficientFunds then Stop(Err(InsufficientFunds))
           else Retry(a.estimate.error, n);
      acts := acts + SleepAfter(v, n);
      return;
    }
    acts := acts + [Send(n, Tx(a.nonce.value, maxFee.value, GasLimit(a.estimate.value)))];
    if a.send.Ok? {
      v := Stop(Ok(a.send.value));
    } else if a.send.error.nonceCollision {
      v := if n < PUBLISH_REVISION_MAX_RETRIES then Again(false) else Stop(Err(NonceUnresolvable(n)));
    } else if a.send.error.insufficientFunds {
      v := Stop(Err(InsufficientFunds));
    } else {
      v := Retry(a.send.error, n);
    }
    acts := acts + SleepAfter(v, n);
  }

  datatype Run = Run(actions: seq<Action>, outcome: Outcome)

  function After(acts: seq<Action>, r: Run): Run {
    Run(acts + r.actions, r.outcome)
  }

  /** The loop from attempt `n` on. */
  function RunFrom(rpc: Rpc, n: nat): Run
    requires 1 <= n <= PUBLISH_REVISION_MAX_RETRIES
    decreases PUBLISH_REVISION_MAX_RETRIES - n
  {
    match VerdictOf(rpc(n), n)
    case Stop(outcome) => Run(AttemptActions(rpc(n), n), outcome)
    case Again(_) => After(AttemptActions(rpc(n), n), RunFrom(rpc, n + 1))
  }

  lemma {:induction false} RunStep(rpc: Rpc, n: nat, whole: Run, before: seq<Action>)
    requires 1 <= n <= PUBLISH_REVISION_MAX_RETRIES
    requires whole == After(before, RunFrom(rpc, n))
    ensures var acts := AttemptActions(rpc(n), n);
            match VerdictOf(rpc(n), n)
            case Stop(outcome) => whole == Run(before + acts, outcome)
            case Again(_) => n < PUBLISH_REVISION_MAX_RETRIES && whole == After(before + acts, RunFrom(rpc, n + 1))
  {
  }

  /** The retry loop. */
  method BroadcastWithRetries(rpc: Rpc) returns (outcome: Outcome, actions: seq<Action>)
    ensures Run(actions, outcome) == RunFrom(rpc, 1)
  {
    ghost var whole := RunFrom(rpc, 1);
    var attempts := 0;
    actions := [];
    assert [] + whole.actions == whole.actions;
    while true
      invariant 0 <= attempts < PUBLISH_REVISION_MAX_RETRIES
      invariant whole == After(actions, RunFrom(rpc, attempts + 1))
      decreases PUBLISH_REVISION_MAX_RETRIES - attempts
    {
      attempts := attempts + 1;
      var verdict, acts := Attempt(rpc, attempts);
      RunStep(rpc, attempts, whole, actions);
      actions := actions + acts;
      if verdict.Stop? {
        return verdict.outcome, actions;
      }
    }
  }

  // ---------------------------------------------------------------------
  // What a run answers, read off the node's answers alone
  // ---------------------------------------------------------------------

  /** The history's base fee, or the gas price when the history is empty or zero. */
  predicate BaseFeeIs(a: Answers, b: u128) {
    || (a.feeHistory == Ok(Some(b)) && b != 0)
    || ((a.feeHistory == Ok(None) || a.feeHistory == Ok(Some(0))) && a.gasPrice == Ok(b))
  }

  /** Nonce and base fee are there, and twice the base fee plus the tip is within the cap. */
  ghost predicate Payable(a: Answers) {
    a.nonce.Ok? && exists b: u128 :: BaseFeeIs(a, b) && 2 * b + 1_000_000_000 <= 50_000_000_000
  }

  /** The node takes the transaction for one with a used nonce. */
  ghost predicate Collides(a: Answers) {
    Payable(a) && a.estimate.Ok? && a.send.Err? && a.send.error.nonceCollision
  }

  /** The attempt fails with a transient error, at whichever call it fails. */
  ghost predicate FailsTransiently(a: Answers) {
    || (a.nonce.Err? && a.nonce.error.transient)
    || (Payable(a) && a.estimate.Err? && !a.estimate.error.revert && !a.estimate.error.insufficientFunds
        && a.estimate.error.transient)
    || (Payable(a) && a.estimate.Ok? && a.send.Err? && !a.send.error.nonceCollision
        && !a.send.error.insufficientFunds && a.send.error.transient)
  }

  /** The attempt fails with an error that nothing classifies. */
  ghost predicate FailsOddly(a: Answers) {
    || (a.nonce.Err? && !a.nonce.error.transient)
    || (Payable(a) && a.estimate.Err? && !a.estimate.error.revert && !a.estimate.error.insufficientFunds
        && !a.estimate.error.transient)
    || (Payable(a) && a.estimate.Ok? && a.send.Err? && !a.send.error.nonceCollision
        && !a.send.error.insufficientFunds && !a.send.error.transient)
  }

  /** Attempt `n` ends the run with `o`. */
  ghost predicate EndsWith(a: Answers, n: nat, o: Outcome) {
    match o
    case Ok(hash) => Payable(a) && a.estimate.Ok? && a.send == Ok(hash)
    case Err(RpcTransient(k)) => k == n && (FailsOddly(a) || (n == 3 && FailsTransiently(a)))
    case Err(NonceUnresolvable(k)) => k == n == 3 && Collides(a)
    case Err(RevertedPreBroadcast) => Payable(a) && a.estimate.Err? && a.estimate.error.revert
    case Err(InsufficientFunds) =>
      || (Payable(a) && a.estimate.Err? && !a.estimate.error.revert && a.estimate.error.insufficientFunds)
      || (Payable(a) && a.estimate.Ok? && a.send.Err? && !a.send.error.nonceCollision && a.send.error.insufficientFunds)
    case Err(GasCapExceeded) =>
      a.nonce.Ok? && exists b: u128 :: BaseFeeIs(a, b) && 50_000_000_000 < 2 * b + 1_000_000_000 <= U128_MAX
    case Err(Rpc) =>
      a.nonce.Ok? && forall b: u128 :: BaseFeeIs(a, b) ==> 2 * b + 1_000_000_000 > U128_MAX
  }

  /** One attempt ends the run, or fails transiently or by a nonce collision before the third; the former pauses. */
  lemma {:induction false} VerdictAnswers(a: Answers, n: nat, o: Outcome)
    requires 1 <= n <= 3
    ensures VerdictOf(a, n) == Stop(o) <==> EndsWith(a, n, o)
    ensures VerdictOf(a, n) == Again(true) <==> n < 3 && FailsTransiently(a)
    ensures VerdictOf(a, n) == Again(false) <==> n < 3 && Collides(a)
  {
    PayableMeans(a);
  }

  /** The calls of one attempt, each made only if those before it gave what it needs; then the pause. */
  lemma {:induction false} AttemptCalls(a: Answers, n: nat)
    requires 1 <= n <= 3
    ensures var noFee := a.feeHistory == Ok(None) || a.feeHistory == Ok(Some(0));
            var pause := if n < 3 && FailsTransiently(a) then [Sleep(if n == 1 then 250 else 1_000)] else [];
            var nonce, fee := [GetNonce(n)], [GetFeeHistory(n)] + (if noFee then [GetGasPrice(n)] else []);
            if a.nonce.Err? then AttemptActions(a, n) == nonce + pause
            else if !Payable(a) then AttemptActions(a, n) == nonce + fee
            else if a.estimate.Err? then AttemptActions(a, n) == nonce + fee + [EstimateGas(n)] + pause
            else
              forall b: u128 :: BaseFeeIs(a, b) && 2 * b + 1_000_000_000 <= 50_000_000_000 ==>
                var tx := Tx(a.nonce.value, 2 * b + 1_000_000_000, GasLimit(a.estimate.value));
                AttemptActions(a, n) == nonce + fee + [EstimateGas(n)] + [Send(n, tx)] + pause
  {
    PayableMeans(a);
    VerdictAnswers(a, n, Err(Rpc));
    assert SleepAfter(VerdictOf(a, n), n)
        == if n < 3 && FailsTransiently(a) then [Sleep(if n == 1 then 250 else 1_000)] else [];
    FeeCalls(a, n);
  }

  lemma {:induction false} FeeCalls(a: Answers, n: nat)
    ensures var noFee := a.feeHistory == Ok(None) || a.feeHistory == Ok(Some(0));
            FeeActions(a, n) == [GetFeeHistory(n)] + (if noFee then [GetGasPrice(n)] else [])
  {
  }

  lemma {:induction false} PayableMeans(a: Answers)
    ensures Payable(a) <==> a.nonce.Ok? && BaseFee(a).Ok? && AcceptedFee(BaseFee(a).value).Some?
    ensures forall b: u128 :: BaseFeeIs(a, b) <==> BaseFee(a) == Ok(b)
  {
    forall b: u128 ensures BaseFeeIs(a, b) <==> BaseFee(a) == Ok(b) {
    }
    if BaseFee(a).Ok? {
      assert BaseFeeIs(a, BaseFee(a).value);
    }
  }

  /** Attempts `n` to `k - 1` fail transiently or by nonce collisions, and attempt `k` ends the run with `o`. */
  ghost predicate EndsAt(rpc: Rpc, n: nat, k: nat, o: Outcome) {
    && n <= k <= 3
    && (forall j :: n <= j < k ==> FailsTransiently(rpc(j)) || Collides(rpc(j)))
    && EndsWith(rpc(k), k, o)
  }

  /**
   What the loop answers, for every node: `o` exactly when the attempts before some third or earlier one
   failed transiently or by nonce collisions and that one ends with `o`. In particular a send that is
   accepted after such failures is the outcome, and a transient error before the third attempt never is.
   */
  lemma {:induction false} RunAnswers(rpc: Rpc, n: nat, o: Outcome)
    requires 1 <= n <= 3
    ensures RunFrom(rpc, n).outcome == o <==> exists k :: EndsAt(rpc, n, k, o)
    decreases 3 - n
  {
    VerdictAnswers(rpc(n), n, o);
    if VerdictOf(rpc(n), n).Stop? {
      StopAnswers(rpc, n, o);
    } else {
      RunAnswers(rpc, n + 1, o);
      if RunFrom(rpc, n + 1).outcome == o {
        var k :| EndsAt(rpc, n + 1, k, o);
        assert EndsAt(rpc, n, k, o);
      }
      if k :| EndsAt(rpc, n, k, o) {
        assert k != n;
        assert EndsAt(rpc, n + 1, k, o);
      }
    }
  }

  lemma {:induction false} StopAnswers(rpc: Rpc, n: nat, o: Outcome)
    requires 1 <= n <= 3 && VerdictOf(rpc(n), n).Stop?
    ensures VerdictOf(rpc(n), n).outcome == o <==> exists k :: EndsAt(rpc, n, k, o)
  {
    var outcome := VerdictOf(rpc(n), n).outcome;
    VerdictAnswers(rpc(n), n, o);
    VerdictAnswers(rpc(n), n, outcome);
    if outcome == o {
      assert EndsAt(rpc, n, n, o);
    }
    if k :| EndsAt(rpc, n, k, o) {
      StoppedIsNotRetried(rpc(n), n, outcome);
      assert k == n;
    }
  }

  lemma {:induction false} StoppedIsNotRetried(a: Answers, n: nat, o: Outcome)
    requires 1 <= n <= 3 && EndsWith(a, n, o)
    ensures n < 3 ==> !FailsTransiently(a) && !Collides(a)
  {
    VerdictAnswers(a, n, o);
  }

  /** The pauses after attempts `n` to `k - 1`: 250 ms and 1,000 ms, none after a nonce collision. */
  ghost function Pauses(rpc: Rpc, n: nat, k: nat): nat
    decreases k - n
  {
    if n >= k then 0
    else (if !FailsTransiently(rpc(n)) then 0 else if n == 1 then 250 else 1_000) + Pauses(rpc, n + 1, k)
  }

  /** The pause within one attempt. */
  lemma {:induction false} AttemptPauses(a: Answers, n: nat)
    requires 1 <= n <= 3
    ensures Slept(AttemptActions(a, n))
            == if n == 3 || !FailsTransiently(a) then 0 else if n == 1 then 250 else 1_000
  {
    AttemptCounts(a, n);
    VerdictAnswers(a, n, Err(Rpc));
  }

  /** What sleeps in a run, attempt by attempt. */
  lemma {:induction false} RunSleeps(rpc: Rpc, n: nat)
    requires 1 <= n <= 3
    ensures Slept(RunFrom(rpc, n).actions)
            == Slept(AttemptActions(rpc(n), n))
               + if VerdictOf(rpc(n), n).Again? then Slept(RunFrom(rpc, n + 1).actions) else 0
  {
    if VerdictOf(rpc(n), n).Again? {
      CountsAppend(AttemptActions(rpc(n), n), RunFrom(rpc, n + 1).actions);
    }
  }

  lemma {:induction false} AgainBeforeTheEnd(rpc: Rpc, n: nat, k: nat, o: Outcome)
    requires 1 <= n && EndsAt(rpc, n, k, o)
    ensures VerdictOf(rpc(n), n).Again? <==> n < k
    ensures n < k ==> EndsAt(rpc, n + 1, k, o)
    ensures n == k ==> n == 3 || !FailsTransiently(rpc(n))
  {
    VerdictAnswers(rpc(n), n, o);
  }

  /** The pauses of a run are those after the attempts before the one that ends it. */
  lemma {:induction false} RunPauses(rpc: Rpc, n: nat, k: nat, o: Outcome)
    requires 1 <= n && EndsAt(rpc, n, k, o)
    ensures Slept(RunFrom(rpc, n).actions) == Pauses(rpc, n, k)
    decreases k - n
  {
    AgainBeforeTheEnd(rpc, n, k, o);
    AttemptPauses(rpc(n), n);
    RunSleeps(rpc, n);
    if n < k {
      RunPauses(rpc, n + 1, k, o);
    }
  }

  // ---------------------------------------------------------------------
  // What every run keeps
  // ---------------------------------------------------------------------

  function Sends(acts: seq<Action>): nat {
    if acts == [] then 0 else (if acts[0].Send? then 1 else 0) + Sends(acts[1..])
  }

  function Slept(acts: seq<Action>): nat {
    if acts == [] then 0 else (if acts[0].Sleep? then acts[0].ms else 0) + Slept(acts[1..])
  }

  lemma {:induction false} CountsAppend(a: seq<Action>, b: seq<Action>)
    ensures Sends(a + b) == Sends(a) + Sends(b) && Slept(a + b) == Slept(a) + Slept(b)
  {
    if a == [] {
      assert a + b == b;
    } else {
      assert (a + b)[1..] == a[1..] + b;
      CountsAppend(a[1..], b);
    }
  }

  /**
   The sends among `acts`: each carries the nonce fetched in its own attempt and a fee within the
   cap, and the node accepted it exactly when nothing follows it and the run succeeded with it.
   */
  ghost predicate SendsAreSound(rpc: Rpc, acts: seq<Action>, outcome: Outcome) {
    forall i :: 0 <= i < |acts| && acts[i].Send? ==>
      var a := rpc(acts[i].attempt);
      && TxOf(a) == Some(acts[i].tx)
      && a.nonce == Ok(acts[i].tx.nonce)
      && acts[i].tx.maxFeePerGas <= MAX_FEE_PER_GAS_CAP_WEI
      && (a.send.Ok? <==> i == |acts| - 1 && outcome.Ok?)
      && (a.send.Ok? ==> outcome == Ok(a.send.value))
  }

  lemma {:induction false} CountsOne(act: Action)
    ensures Sends([act]) == (if act.Send? then 1 else 0) && Slept([act]) == (if act.Sleep? then act.ms else 0)
  {
  }

  /** An attempt sends at most once and sleeps only before another attempt. */
  lemma {:induction false} AttemptCounts(a: Answers, n: nat)
    requires 1 <= n <= PUBLISH_REVISION_MAX_RETRIES
    ensures var acts, v := AttemptActions(a, n), VerdictOf(a, n);
            Sends(acts) <= 1 && Slept(acts) == (if v == Again(true) then Backoff(n) else 0)
  {
    var fees, sleep := FeeActions(a, n), SleepAfter(VerdictOf(a, n), n);
    CountsOne(GetNonce(n));
    CountsOne(GetFeeHistory(n));
    CountsOne(GetGasPrice(n));
    CountsOne(EstimateGas(n));
    CountsOne(Sleep(Backoff(n)));
    CountsAppend([GetFeeHistory(n)], [GetGasPrice(n)]);
    assert fees == [GetFeeHistory(n)] || fees == [GetFeeHistory(n)] + [GetGasPrice(n)];
    CountsAppend([GetNonce(n)], sleep);
    CountsAppend([GetNonce(n)], fees);
    CountsAppend([GetNonce(n)] + fees, [EstimateGas(n)]);
    CountsAppend([GetNonce(n)] + fees + [EstimateGas(n)], sleep);
    if TxOf(a).Some? {
      var send := [Send(n, TxOf(a).value)];
      CountsOne(send[0]);
      CountsAppend([GetNonce(n)] + fees + [EstimateGas(n)], send);
      CountsAppend([GetNonce(n)] + fees + [EstimateGas(n)] + send, sleep);
    }
  }

  /** The loop's bounds from attempt `n` on. */
  lemma {:induction false} RunCounts(rpc: Rpc, n: nat)
    requires 1 <= n <= PUBLISH_REVISION_MAX_RETRIES
    ensures var r := RunFrom(rpc, n);
            && Sends(r.actions) <= PUBLISH_REVISION_MAX_RETRIES + 1 - n
            && Slept(r.actions) <= (if n == 1 then 1_250 else if n == 2 then 1_000 else 0)
            && (forall k: nat :: r.outcome == Err(NonceUnresolvable(k)) ==> k == PUBLISH_REVISION_MAX_RETRIES)
            && (forall k: nat :: r.outcome == Err(RpcTransient(k)) ==> n <= k <= PUBLISH_REVISION_MAX_RETRIES)
    decreases PUBLISH_REVISION_MAX_RETRIES - n
  {
    AttemptCounts(rpc(n), n);
    if VerdictOf(rpc(n), n).Again? {
      RunCounts(rpc, n + 1);
      CountsAppend(AttemptActions(rpc(n), n), RunFrom(rpc, n + 1).actions);
    }
  }

  /** The sends among `acts` when the node rejected all of them. */
  ghost predicate SendsAreRejected(rpc: Rpc, acts: seq<Action>) {
    forall i :: 0 <= i < |acts| && acts[i].Send? ==>
      var a := rpc(acts[i].attempt);
      && TxOf(a) == Some(acts[i].tx)
      && a.nonce == Ok(acts[i].tx.nonce)
      && acts[i].tx.maxFeePerGas <= MAX_FEE_PER_GAS_CAP_WEI
      && a.send.Err?
  }

  lemma {:induction false} AttemptSound(rpc: Rpc, n: nat)
    requires 1 <= n <= PUBLISH_REVISION_MAX_RETRIES
    ensures match VerdictOf(rpc(n), n)
            case Stop(outcome) => SendsAreSound(rpc, AttemptActions(rpc(n), n), outcome)
            case Again(_) => SendsAreRejected(rpc, AttemptActions(rpc(n), n))
  {
  }

  lemma {:induction false} SoundAppend(rpc: Rpc, front: seq<Action>, rest: seq<Action>, outcome: Outcome)
    requires SendsAreRejected(rpc, front) && SendsAreSound(rpc, rest, outcome) && rest != []
    ensures SendsAreSound(rpc, front + rest, outcome)
  {
  }

  /** The sends of the loop from attempt `n` on. */
  lemma {:induction false} RunSends(rpc: Rpc, n: nat)
    requires 1 <= n <= PUBLISH_REVISION_MAX_RETRIES
    ensures var r := RunFrom(rpc, n);
            && r.actions != []
            && SendsAreSound(rpc, r.actions, r.outcome)
            && (r.outcome.Ok? ==> r.actions[|r.actions| - 1].Send?)
    decreases PUBLISH_REVISION_MAX_RETRIES - n
  {
    AttemptSound(rpc, n);
    if VerdictOf(rpc(n), n).Again? {
      RunSends(rpc, n + 1);
      var rest := RunFrom(rpc, n + 1);
      SoundAppend(rpc, AttemptActions(rpc(n), n), rest.actions, rest.outcome);
    }
  }

  /**
   Every run of the loop, whatever the node answers: at most three sends, each with its own
   attempt's nonce and a capped fee; nothing is done after a send that was accepted; at most
   1,250 ms of backoff; an unresolvable nonce is reported only after the third attempt.
   */
  lemma {:induction false} BroadcastIsBounded(rpc: Rpc)
    ensures var r := RunFrom(rpc, 1);
            && SendsAreSound(rpc, r.actions, r.outcome)
            && (r.outcome.Ok? ==> r.actions[|r.actions| - 1].Send?)
            && Sends(r.actions) <= PUBLISH_REVISION_MAX_RETRIES
            && Slept(r.actions) <= 1_250
            && (forall k: nat :: r.outcome == Err(NonceUnresolvable(k)) ==> k == PUBLISH_REVISION_MAX_RETRIES)
  {
    RunCounts(rpc, 1);
    RunSends(rpc, 1);
  }

  /**
   The gate and the loop together. After the gate passed at the observed base fee, no transaction
   that any run sends can cost more than the balance the gate saw, as long as no attempt sees a
   higher base fee (no condition when the gate fell back to the cap) or a gas estimate above
   1,250,000.
   */
  lemma {:induction false} SendsAreAffordable(rpc: Rpc, balance: u256, history: Result<Option<u128>, ()>, i: nat)
    requires GatePasses(balance, ObservedBaseFee(history))
    requires forall n, b: u128 :: BaseFee(rpc(n)).Ok? && history == Ok(Some(b)) && b != 0 ==> BaseFee(rpc(n)).value <= b
    requires forall n :: rpc(n).estimate.Ok? ==> rpc(n).estimate.value <= 1_250_000
    requires i < |RunFrom(rpc, 1).actions| && RunFrom(rpc, 1).actions[i].Send?
    ensures var tx := RunFrom(rpc, 1).actions[i].tx; tx.maxFeePerGas * tx.gasLimit <= balance
  {
    RunSends(rpc, 1);
    var a := rpc(RunFrom(rpc, 1).actions[i].attempt);
    GateCoversBroadcast(balance, history, BaseFee(a).value, a.estimate.value);
  }
}
