/**
 * The arithmetic of a won claim: the streak multiplier in basis points and
 * the payout, computed with Rust's checked `u64` arithmetic.
 */
module Settlement {
  import opened Wrappers
  import opened State
  import opened Errors

  /** `multiplier_bps`, chosen from the streak after this win's increment. */
  function MultiplierBps(streak: int): nat {
    if streak >= 10 then 30000
    else if streak >= 5 then 20000
    else if streak >= 3 then 15000
    else 10000
  }

  /** How many times the stake a winner receives: 2x, then 1.5x, 2x and 3x of that. */
  function PayoutFactor(streak: int): nat {
    if streak >= 10 then 6
    else if streak >= 5 then 4
    else if streak >= 3 then 3
    else 2
  }

  /**
   * The payout for a won bet of `amount` lamports at streak `streak`. The
   * discarded `reward_bonus = amount * multiplier_bps / 10000` is still
   * computed first, so its overflow aborts the claim too.
   */
  function WinPayout(amount: u64, streak: int): (r: Result<nat, Failure>)
    ensures r.Ok? <==> amount * (if streak < 3 then 10000 else 2 * MultiplierBps(streak)) <= U64_MAX
    ensures r.Ok? ==> r.value == amount * PayoutFactor(streak)
    ensures r.Err? ==> r.error == ArithmeticOverflow
  {
    var bps := MultiplierBps(streak);
    if amount * bps > U64_MAX then Err(ArithmeticOverflow)      // reward_bonus
    else if amount * 2 > U64_MAX then Err(ArithmeticOverflow)
    else if streak < 3 then Ok(amount * 2)
    else if amount * 2 * bps > U64_MAX then Err(ArithmeticOverflow)
    else Ok(amount * 2 * bps / 10000)
  }

  lemma MultiplierTiers(streak: nat)
    ensures MultiplierBps(streak) == 10000 <==> streak < 3
    ensures MultiplierBps(streak) == 15000 <==> 3 <= streak < 5
    ensures MultiplierBps(streak) == 20000 <==> 5 <= streak < 10
    ensures MultiplierBps(streak) == 30000 <==> 10 <= streak
  {
  }

  lemma MultiplierMonotone(s: int, t: int)
    requires s <= t
    ensures MultiplierBps(s) <= MultiplierBps(t)
  {
  }

  /** Below a streak of three the payout is `2 * amount`, which is also `2 * amount * 10000 / 10000`. */
  lemma PayoutFactorMatchesBps(streak: int)
    ensures PayoutFactor(streak) * 10000 == 2 * MultiplierBps(streak)
  {
  }
}
