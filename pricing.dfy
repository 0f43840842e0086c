/**
 * The market's integer arithmetic: the output of a swap (computed in `u128`
 * by `swap_tokens`) and the sol side of a liquidity deposit (computed in
 * `u64` by `add_liquidity`). Each is a function of balances read before any
 * transfer; an `unwrap` of a failed checked operation, or an underflowing
 * subtraction, is a `Panic`.
 */
module Pricing {
  import opened Keys
  import opened Errors

  // ----- swap_tokens -----

  /** `floor(amountIn * feeNumerator / feeDenominator)`, the fee kept by the pool. */
  function Fee(amountIn: u64, feeNumerator: u64, feeDenominator: u64): (fee: nat)
    requires feeDenominator > 0
    ensures fee * feeDenominator <= amountIn * feeNumerator < fee * feeDenominator + feeDenominator
  {
    DivBounds(amountIn * feeNumerator, feeDenominator);
    amountIn * feeNumerator / feeDenominator
  }

  /**
   * The amount the output reserve pays for `amountIn` of the input side:
   * the output reserve minus the floor of the constant product divided by
   * the input reserve grown by the input net of the fee.
   */
  function SwapOut(amountIn: u64, feeNumerator: u64, feeDenominator: u64, inReserve: u64, outReserve: u64): (r: Result<u64>)
    ensures r.Ok? <==>
              && feeDenominator > 0
              && amountIn * feeNumerator < amountIn * feeDenominator + feeDenominator
              && (inReserve > 0 || Fee(amountIn, feeNumerator, feeDenominator) < amountIn)
    ensures r.Err? ==> r.error == Panic
    ensures r.Ok? ==> r.value <= outReserve
  {
    if feeDenominator == 0 then Err(Panic)
    else
      var fee := Fee(amountIn, feeNumerator, feeDenominator);
      FeeAtMostInput(amountIn, feeNumerator, feeDenominator);
      if fee > amountIn then Err(Panic)
      else
        var net := amountIn - fee;
        var grownIn := inReserve + net;
        if grownIn == 0 then Err(Panic)
        else Ok(outReserve - Remaining(outReserve, inReserve, grownIn))
  }

  /** The fee does not exceed the input exactly when `amountIn * feeNumerator < (amountIn + 1) * feeDenominator`. */
  lemma FeeAtMostInput(amountIn: u64, feeNumerator: u64, feeDenominator: u64)
    requires feeDenominator > 0
    ensures (Fee(amountIn, feeNumerator, feeDenominator) <= amountIn) <==> (amountIn * feeNumerator < amountIn * feeDenominator + feeDenominator)
  {
    var fee := Fee(amountIn, feeNumerator, feeDenominator);
    if fee <= amountIn {
      MulMono(fee, amountIn, feeDenominator);
    } else {
      MulMono(amountIn + 1, fee, feeDenominator);
    }
  }

  /** `floor(outReserve * inReserve / grownIn)`: the output reserve left after the swap, as the code floors it. */
  function Remaining(outReserve: u64, inReserve: u64, grownIn: nat): (remaining: nat)
    requires inReserve <= grownIn && grownIn > 0
    ensures remaining <= outReserve
    ensures remaining * grownIn <= outReserve * inReserve < remaining * grownIn + grownIn
  {
    DivBounds(outReserve * inReserve, grownIn);
    MulMono(inReserve, grownIn, outReserve);
    DivLeq(outReserve * inReserve, grownIn * outReserve, grownIn);
    MulDivCancel(outReserve, grownIn);
    outReserve * inReserve / grownIn
  }

  // Arithmetic facts the solver does not find on its own.

  lemma DivBounds(a: nat, z: nat)
    requires 0 < z
    ensures (a / z) * z <= a < (a / z) * z + z
  {
  }

  lemma MulMono(a: nat, b: nat, z: nat)
    requires a <= b
    ensures a * z <= b * z
  {
  }

  lemma MulCancelLt(x: nat, y: nat, z: nat)
    requires x * z < y * z
    ensures x < y
  {
    if y <= x {
      MulMono(y, x, z);
    }
  }

  lemma DivLeq(a: nat, b: nat, z: nat)
    requires 0 < z && a <= b
    ensures a / z <= b / z
  {
    DivBounds(a, z);
    DivBounds(b, z);
    assert (a / z) * z < (b / z + 1) * z;
    MulCancelLt(a / z, b / z + 1, z);
  }

  lemma MulDivCancel(x: nat, z: nat)
    requires 0 < z
    ensures x * z / z == x
  {
    var q := x * z / z;
    DivBounds(x * z, z);
    assert q * z < (x + 1) * z;
    MulCancelLt(q, x + 1, z);
    assert x * z < (q + 1) * z;
    MulCancelLt(x, q + 1, z);
  }

  /** The input net of the fee, when the fee does not exceed the input. */
  function NetIn(amountIn: u64, feeNumerator: u64, feeDenominator: u64): (net: nat)
    requires feeDenominator > 0
    requires Fee(amountIn, feeNumerator, feeDenominator) <= amountIn
    ensures net <= amountIn
    ensures feeNumerator == 0 ==> net == amountIn
  {
    amountIn - Fee(amountIn, feeNumerator, feeDenominator)
  }

  /**
   * Every intermediate of the `u128` computation fits: the two `checked_mul`
   * calls never fail and the sum cannot wrap, so the only ways the swap
   * arithmetic aborts are the ones `SwapOut` names.
   */
  lemma SwapFitsU128(amountIn: u64, feeNumerator: u64, inReserve: u64, outReserve: u64, net: nat)
    requires net <= amountIn
    ensures amountIn * feeNumerator <= MAX_U128
    ensures outReserve * inReserve <= MAX_U128
    ensures inReserve + net <= MAX_U128
  {
    MulBound(amountIn, feeNumerator);
    MulBound(outReserve, inReserve);
  }

  lemma MulBound(x: u64, y: u64)
    ensures x * y <= MAX_U128
  {
    assert x * y <= x * MAX_U64 <= MAX_U64 * MAX_U64;
  }

  /**
   * The output is the CEILING of the ideal constant-product output
   * `outReserve * net / (inReserve + net)`: the code floors the reserve that
   * remains, so the rounding favours the trader, never the pool.
   */
  lemma {:induction false} SwapOutRoundsUp(amountIn: u64, feeNumerator: u64, feeDenominator: u64, inReserve: u64, outReserve: u64)
    requires SwapOut(amountIn, feeNumerator, feeDenominator, inReserve, outReserve).Ok?
    ensures var out := SwapOut(amountIn, feeNumerator, feeDenominator, inReserve, outReserve).value;
      var net := NetIn(amountIn, feeNumerator, feeDenominator);
      outReserve * net <= out * (inReserve + net) < outReserve * net + (inReserve + net)
  {
    var net := NetIn(amountIn, feeNumerator, feeDenominator);
    var d := inReserve + net;
    var q := outReserve * inReserve / d;
    var out := outReserve - q;
    assert out == SwapOut(amountIn, feeNumerator, feeDenominator, inReserve, outReserve).value;
    assert q * d <= outReserve * inReserve < q * d + d;
    assert outReserve * d == outReserve * inReserve + outReserve * net;
    assert out * d == outReserve * d - q * d;
  }

  /**
   * With no fee the reserve product never grows: the output reserve after
   * the swap, times the input reserve grown by the whole input, is at most
   * the product before.
   */
  lemma {:induction false} ZeroFeeProductNeverGrows(amountIn: u64, feeDenominator: u64, inReserve: u64, outReserve: u64)
    requires SwapOut(amountIn, 0, feeDenominator, inReserve, outReserve).Ok?
    ensures var out := SwapOut(amountIn, 0, feeDenominator, inReserve, outReserve).value;
      (outReserve - out) * (inReserve + amountIn) <= outReserve * inReserve
  {
    var d := inReserve + amountIn;
    var q := outReserve * inReserve / d;
    assert NetIn(amountIn, 0, feeDenominator) == amountIn;
    assert outReserve - SwapOut(amountIn, 0, feeDenominator, inReserve, outReserve).value == q;
    assert q * d <= outReserve * inReserve;
  }

  /**
   * Whatever the fee, the product after the swap (the whole input goes into
   * the input reserve) falls short of the product before by less than the
   * grown input reserve.
   */
  lemma {:induction false} ProductLossBounded(amountIn: u64, feeNumerator: u64, feeDenominator: u64, inReserve: u64, outReserve: u64)
    requires SwapOut(amountIn, feeNumerator, feeDenominator, inReserve, outReserve).Ok?
    ensures var out := SwapOut(amountIn, feeNumerator, feeDenominator, inReserve, outReserve).value;
      outReserve * inReserve < (outReserve - out) * (inReserve + amountIn) + (inReserve + amountIn)
  {
    var net := NetIn(amountIn, feeNumerator, feeDenominator);
    var d := inReserve + net;
    var q := outReserve * inReserve / d;
    assert outReserve - SwapOut(amountIn, feeNumerator, feeDenominator, inReserve, outReserve).value == q;
    assert outReserve * inReserve < q * d + d;
    assert d <= inReserve + amountIn;
    assert q * d <= q * (inReserve + amountIn);
  }

  /**
   * An empty input reserve sells the whole output reserve for any input
   * that is not entirely fee.
   */
  lemma EmptyInputReserveDrains(amountIn: u64, feeNumerator: u64, feeDenominator: u64, outReserve: u64)
    requires SwapOut(amountIn, feeNumerator, feeDenominator, 0, outReserve).Ok?
    ensures SwapOut(amountIn, feeNumerator, feeDenominator, 0, outReserve).value == outReserve
  {
  }

  /** With no fee, putting in more never gives less out. */
  lemma {:induction false} ZeroFeeMonotone(small: u64, large: u64, feeDenominator: u64, inReserve: u64, outReserve: u64)
    requires small <= large
    requires SwapOut(small, 0, feeDenominator, inReserve, outReserve).Ok?
    ensures SwapOut(large, 0, feeDenominator, inReserve, outReserve).Ok?
    ensures SwapOut(small, 0, feeDenominator, inReserve, outReserve).value <= SwapOut(large, 0, feeDenominator, inReserve, outReserve).value
  {
    var k := outReserve * inReserve;
    assert NetIn(small, 0, feeDenominator) == small;
    assert NetIn(large, 0, feeDenominator) == large;
    DivisorMonotone(k, inReserve + small, inReserve + large);
  }

  /** A larger divisor gives a quotient no larger. */
  lemma DivisorMonotone(k: nat, d1: nat, d2: nat)
    requires 0 < d1 <= d2
    ensures k / d2 <= k / d1
  {
    DivBounds(k, d2);
    MulMono(d1, d2, k / d2);
    MulLeqDiv(k / d2, k, d1);
  }

  /** `q * z <= a` puts `q` at or below `a / z`. */
  lemma MulLeqDiv(q: nat, a: nat, z: nat)
    requires 0 < z && q * z <= a
    ensures q <= a / z
  {
    DivBounds(a, z);
    assert q * z < (a / z + 1) * z;
    MulCancelLt(q, a / z + 1, z);
  }

  /**
   * The first swap of the market suite (fee 0/1000): 1 sol into reserves of
   * 2 sol and 50 tokens buys 16,666,666,667 base units of token, and the
   * reserve product falls from 10^20 to 33,333,333,333 * 3 * 10^9.
   */
  lemma FirstSwapPrice()
    ensures SwapOut(1_000_000_000, 0, 1000, 2_000_000_000, 50_000_000_000) == Ok(16_666_666_667)
    ensures (50_000_000_000 - 16_666_666_667) * (2_000_000_000 + 1_000_000_000) < 50_000_000_000 * 2_000_000_000
  {
    assert Fee(1_000_000_000, 0, 1000) == 0;
    assert Remaining(50_000_000_000, 2_000_000_000, 3_000_000_000) == 33_333_333_333;
  }

  /**
   * The second swap: 50 tokens into reserves of 33,333,333,333 tokens and
   * 3 sol buys 1,800,000,001 base units of sol.
   */
  lemma SecondSwapPrice()
    ensures SwapOut(50_000_000_000, 0, 1000, 33_333_333_333, 3_000_000_000) == Ok(1_800_000_001)
  {
    assert Fee(50_000_000_000, 0, 1000) == 0;
    assert Remaining(3_000_000_000, 33_333_333_333, 83_333_333_333) == 1_199_999_999;
  }

  // ----- add_liquidity -----

  /**
   * The sol side of a liquidity deposit of `tokenAmount` tokens: the given
   * `solAmount` when both reserves are empty, otherwise `tokenAmount` times
   * the whole-number rate `solReserve / tokenReserve`.
   */
  function LiquidityDeposit(tokenAmount: u64, solAmount: u64, tokenReserve: u64, solReserve: u64): (r: Result<u64>)
    ensures r.Ok? <==> (tokenReserve == 0 && solReserve == 0) || (tokenReserve > 0 && AtRate(tokenAmount, tokenReserve, solReserve) <= MAX_U64)
    ensures r.Err? ==> r.error == Panic
    ensures tokenReserve == 0 && solReserve == 0 ==> r == Ok(solAmount)
  {
    if solReserve == 0 && tokenReserve == 0 then Ok(solAmount)
    else if tokenReserve == 0 then Err(Panic)
    else
      var sol := AtRate(tokenAmount, tokenReserve, solReserve);
      if sol > MAX_U64 then Err(Panic) else Ok(sol)
  }

  /** `tokenAmount * floor(solReserve / tokenReserve)`, before the `u64` overflow check. */
  function AtRate(tokenAmount: u64, tokenReserve: u64, solReserve: u64): nat
    requires tokenReserve > 0
  {
    tokenAmount * (solReserve / tokenReserve)
  }

  /** After the first deposit, the sol amount the caller names plays no part. */
  lemma LaterDepositIgnoresSolAmount(tokenAmount: u64, solAmount1: u64, solAmount2: u64, tokenReserve: u64, solReserve: u64)
    requires tokenReserve > 0 || solReserve > 0
    ensures LiquidityDeposit(tokenAmount, solAmount1, tokenReserve, solReserve) == LiquidityDeposit(tokenAmount, solAmount2, tokenReserve, solReserve)
  {
  }

  /**
   * A later deposit never pays more sol than the pool's exact price; it
   * falls short of it by exactly `tokenAmount * (solReserve % tokenReserve)`
   * in units of `1 / tokenReserve` sol, less than one sol per token.
   */
  lemma {:induction false} LaterDepositAtMostPrice(tokenAmount: u64, solAmount: u64, tokenReserve: u64, solReserve: u64)
    requires tokenReserve > 0
    requires LiquidityDeposit(tokenAmount, solAmount, tokenReserve, solReserve).Ok?
    ensures var sol := LiquidityDeposit(tokenAmount, solAmount, tokenReserve, solReserve).value;
      && sol * tokenReserve <= tokenAmount * solReserve
      && tokenAmount * solReserve - sol * tokenReserve == tokenAmount * (solReserve % tokenReserve)
      && tokenAmount * (solReserve % tokenReserve) <= tokenAmount * (tokenReserve - 1)
  {
    var rate := solReserve / tokenReserve;
    var rem := solReserve % tokenReserve;
    assert solReserve == rate * tokenReserve + rem && rem <= tokenReserve - 1;
    var sol := tokenAmount * rate;
    assert sol == LiquidityDeposit(tokenAmount, solAmount, tokenReserve, solReserve).value;
    assert tokenAmount * solReserve == sol * tokenReserve + tokenAmount * rem;
    MulMono(rem, tokenReserve - 1, tokenAmount);
  }

  /** When the sol reserve is a whole multiple of the token reserve, the deposit is at the exact price. */
  lemma {:induction false} LaterDepositExactOnWholeRate(tokenAmount: u64, solAmount: u64, tokenReserve: u64, solReserve: u64)
    requires tokenReserve > 0 && solReserve % tokenReserve == 0
    requires LiquidityDeposit(tokenAmount, solAmount, tokenReserve, solReserve).Ok?
    ensures LiquidityDeposit(tokenAmount, solAmount, tokenReserve, solReserve).value * tokenReserve == tokenAmount * solReserve
  {
    var rate := solReserve / tokenReserve;
    assert solReserve == rate * tokenReserve;
    assert tokenAmount * solReserve == (tokenAmount * rate) * tokenReserve;
  }

  /**
   * While the sol reserve is smaller than the token reserve the rate is 0,
   * so a later deposit adds tokens and no sol at all.
   */
  lemma LaterDepositFreeWhenSolScarce(tokenAmount: u64, solAmount: u64, tokenReserve: u64, solReserve: u64)
    requires solReserve < tokenReserve
    ensures LiquidityDeposit(tokenAmount, solAmount, tokenReserve, solReserve) == Ok(0)
  {
    assert solReserve / tokenReserve == 0;
    assert AtRate(tokenAmount, tokenReserve, solReserve) == tokenAmount * 0 == 0;
  }
}
