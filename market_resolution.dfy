/**
 * The resolution panel: who may resolve, what the resolve button sends,
 * how a failed resolution is explained, the countdown before the
 * resolution time and the label of the winning outcome.
 */
module MarketResolutionView {
  import opened Wrappers
  import opened State
  import opened Errors
  import opened Invariant
  import opened Program
  import opened Text
  import opened ClaimWinningsView

  /**
   * The panel offers resolution to the creator of an unresolved market once
   * `Date.now() / 1000` (the clock in milliseconds) reaches the resolution time.
   */
  predicate CanResolve(wallet: Option<Address>, m: Market, nowMs: int) {
    wallet.Some? && m.authority == wallet.value && !m.resolved
    && (nowMs as real) / 1000.0 >= m.resolutionTime as real
  }

  /** In whole milliseconds: the clock has reached `resolutionTime * 1000`. */
  lemma CanResolveIff(wallet: Option<Address>, m: Market, nowMs: int)
    ensures CanResolve(wallet, m, nowMs)
            <==> wallet == Some(m.authority) && !m.resolved && nowMs >= 1000 * m.resolutionTime
  {
  }

  /**
   * What the panel allows, the chain allows too: a resolution it offers can
   * only be refused for the outcome index or for the grown record.
   */
  lemma OfferedResolutionPassesChecks(markets: Markets, a: Address, wallet: Option<Address>,
                                      nowMs: int, w: u8)
    requires a in markets
    requires CanResolve(wallet, markets[a], nowMs)
    ensures var r := ResolveRejection(markets, wallet.value, a, w);
            r == None || r == Some(Program(InvalidOutcome)) || r == Some(AccountDidNotSerialize)
  {
  }

  /**
   * The panel is stricter than the chain: before the resolution time it
   * withholds a resolution the chain would accept.
   */
  lemma EarlyResolutionWithheld(markets: Markets, a: Address, signer: Address, nowMs: int, w: u8)
    requires a in markets
    requires ResolveRejection(markets, signer, a, w) == None
    requires nowMs < 1000 * markets[a].resolutionTime
    ensures !CanResolve(Some(signer), markets[a], nowMs)
  {
    CanResolveIff(Some(signer), markets[a], nowMs);
  }

  /** The instruction the resolve button sends: the outcome, the market, and the wallet as authority. */
  datatype ResolveRequest = ResolveRequest(market: Address, authority: Address, outcome: nat)

  /** `handleResolve` does nothing without a wallet, a program client and a selected outcome. */
  function HandleResolve(marketKey: Address, wallet: Option<Address>, programReady: bool,
                         selectedOutcome: Option<nat>): (r: Option<ResolveRequest>)
    ensures r.Some? <==> wallet.Some? && programReady && selectedOutcome.Some?
    ensures r.Some? ==> r.value.market == marketKey && r.value.authority == wallet.value
                        && r.value.outcome == selectedOutcome.value
  {
    if wallet.None? || !programReady || selectedOutcome.None? then None
    else Some(ResolveRequest(marketKey, wallet.value, selectedOutcome.value))
  }

  /** The toast for a failed resolution, matched case-sensitively in this order; no message gives the default. */
  function ResolveErrorText(message: Option<string>): (text: string)
    ensures message.None? ==> text == "Failed to resolve market"
  {
    if message.Some? && Contains(message.value, "already resolved") then "Market already resolved"
    else if message.Some? && Contains(message.value, "unauthorized") then "Only market creator can resolve"
    else if message.Some? && Contains(message.value, "too early") then "Resolution time not reached yet"
    else "Failed to resolve market"
  }

  /**
   * An error whose message carries the program's `MarketResolved` text is
   * explained as an already resolved market.
   */
  lemma AlreadyResolvedExplained(message: string)
    requires Contains(message, "Market is already resolved.")
    ensures ResolveErrorText(Some(message)) == "Market already resolved"
  {
    var i: nat :| i <= |message| && OccursAt(message, "Market is already resolved.", i);
    assert OccursAt("Market is already resolved.", "already resolved", 10);
    OccursWithin(message, "Market is already resolved.", "already resolved", i, 10);
  }

  // ---------------------------------------------------------------------
  // The countdown
  // ---------------------------------------------------------------------

  function Max(a: int, b: int): int {
    if a >= b then a else b
  }

  /** JavaScript truncates toward zero where it converts to an integer. */
  function Trunc(x: real): int {
    if x >= 0.0 then x.Floor else -((-x).Floor)
  }

  /** JavaScript's `%` on numbers: the remainder takes the sign of the dividend. */
  function JsRem(a: real, b: real): real
    requires b != 0.0
  {
    a - b * (Trunc(a / b) as real)
  }

  /** Seconds until the resolution time, from the clock in milliseconds. */
  function TimeUntilResolution(resolutionTime: int, nowMs: int): real {
    resolutionTime as real - (nowMs as real) / 1000.0
  }

  /** `Math.max(0, Math.floor(t / 3600))` hours and `Math.max(0, Math.floor((t % 3600) / 60))` minutes. */
  function Countdown(t: real): (int, int) {
    (Max(0, (t / 3600.0).Floor), Max(0, (JsRem(t, 3600.0) / 60.0).Floor))
  }

  /**
   * The countdown shows whole hours and the minutes left over: before the
   * deadline it brackets the remaining time to the minute; after it, it shows
   * zero hours and zero minutes.
   */
  lemma CountdownBrackets(t: real)
    ensures var (h, m) := Countdown(t);
            && h >= 0 && 0 <= m <= 59
            && (t >= 0.0 ==> (3600 * h + 60 * m) as real <= t < (3600 * h + 60 * m + 60) as real)
            && (t < 0.0 ==> h == 0 && m == 0)
  {
    var q := t / 3600.0;
    var r := JsRem(t, 3600.0);
    if t >= 0.0 {
      assert Trunc(q) == q.Floor >= 0;
      assert 0.0 <= r < 3600.0;
    } else {
      assert q.Floor <= -1;
      assert Trunc(q) == -((-q).Floor);
      assert -3600.0 < r <= 0.0;
    }
  }

  // ---------------------------------------------------------------------
  // The resolved view
  // ---------------------------------------------------------------------

  /** The winning outcome's text, or "N/A" when the market records none. */
  datatype WinningDisplay = Shown(text: Option<Bytes>) | NotApplicable

  function WinningLabel(m: Market): WinningDisplay {
    if m.winningOutcome.Some? then Shown(OutcomeLabel(m.outcomes, m.winningOutcome.value))
    else NotApplicable
  }

  /** On a consistent chain a resolved market always shows the text of its winning outcome. */
  lemma ResolvedMarketShowsWinner(markets: Markets, bets: Bets, profiles: Profiles, a: Address)
    requires Consistent(markets, bets, profiles)
    requires a in markets && markets[a].resolved
    ensures var m := markets[a];
            m.winningOutcome.Some? && m.winningOutcome.value < |m.outcomes|
            && WinningLabel(m) == Shown(Some(m.outcomes[m.winningOutcome.value]))
  {
    assert MarketOk(a, markets[a]);
  }
}
