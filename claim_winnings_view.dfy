/**
 * The pending-winnings panel: the wallet's bets are fetched by owner, each
 * bet's market is fetched, and the won, unclaimed bets are listed with
 * their total.
 */
module ClaimWinningsView {
  import opened Wrappers
  import opened State
  import opened Errors
  import opened Lamports
  import opened Invariant
  import opened Program

  /** The account query's filter: `bytes` must appear at byte `offset` of the account data. */
  datatype MemcmpFilter = MemcmpFilter(offset: nat, bytes: Address)

  /** The filter the panel sends: the wallet's key right after the discriminator and the market key. */
  function OwnerFilter(wallet: Address): (f: MemcmpFilter)
    ensures f.bytes == wallet
    ensures BET_LAYOUT[1] == PubkeyField && f.offset == FieldOffset(BET_LAYOUT, 1)
  {
    BetUserOffset();
    MemcmpFilter(8 + 32, wallet)
  }

  /** A fetched bet account, with its market when that fetch succeeded (`None` when it threw). */
  datatype BetRow = BetRow(key: Address, bet: Bet, market: Option<Market>)

  datatype PendingWinning = PendingWinning(
    betPDA: Address,
    marketPDA: Address,
    amount: nat,
    marketQuestion: Bytes,
    prediction: Option<Bytes>,   // `None` where the index is outside the outcome list
    claimed: bool)

  /** The market is resolved with a winning outcome, the bet predicted it, and it is not yet claimed. */
  predicate IsPending(bet: Bet, m: Market) {
    m.resolved && m.winningOutcome.Some? && bet.prediction == m.winningOutcome.value && !bet.claimed
  }

  function OutcomeLabel(outcomes: seq<Bytes>, i: nat): Option<Bytes> {
    if i < |outcomes| then Some(outcomes[i]) else None
  }

  function Listing(row: BetRow): PendingWinning
    requires row.market.Some?
  {
    var m := row.market.value;
    PendingWinning(row.key, row.bet.market, row.bet.amount, m.question,
                   OutcomeLabel(m.outcomes, row.bet.prediction), row.bet.claimed)
  }

  predicate Listed(row: BetRow) {
    row.market.Some? && IsPending(row.bet, row.market.value)
  }

  /** The listed rows, in order. */
  function Pending(rows: seq<BetRow>): seq<PendingWinning> {
    if rows == [] then []
    else
      var init := Pending(rows[..|rows| - 1]);
      var last := rows[|rows| - 1];
      if Listed(last) then init + [Listing(last)] else init
  }

  /** Listing distributes over concatenation: each row is judged on its own. */
  lemma {:induction false} PendingAppend(xs: seq<BetRow>, ys: seq<BetRow>)
    ensures Pending(xs + ys) == Pending(xs) + Pending(ys)
    decreases |ys|
  {
    if ys == [] {
      assert xs + ys == xs;
    } else {
      var zs := ys[..|ys| - 1];
      assert (xs + ys)[..|xs + ys| - 1] == xs + zs;
      PendingAppend(xs, zs);
    }
  }

  /** A bet is listed exactly when its market was fetched and the bet is pending on it. */
  lemma {:induction false} PendingMembers(rows: seq<BetRow>, w: PendingWinning)
    ensures w in Pending(rows) <==> exists i | 0 <= i < |rows| :: Listed(rows[i]) && w == Listing(rows[i])
  {
    if rows != [] {
      var init := rows[..|rows| - 1];
      PendingMembers(init, w);
      assert rows == init + [rows[|rows| - 1]];
      if exists i | 0 <= i < |rows| :: Listed(rows[i]) && w == Listing(rows[i]) {
        var i :| 0 <= i < |rows| && Listed(rows[i]) && w == Listing(rows[i]);
        if i < |init| {
          assert init[i] == rows[i];
        }
      }
    }
  }

  /** Rows whose market fetch threw are skipped without affecting the others. */
  lemma SkipsFailedFetches(xs: seq<BetRow>, row: BetRow, ys: seq<BetRow>)
    requires row.market.None?
    ensures Pending(xs + [row] + ys) == Pending(xs) + Pending(ys)
  {
    PendingAppend(xs + [row], ys);
    PendingAppend(xs, [row]);
    assert [row][..0] == [];
  }

  /** The loop over the fetched bets, pushing each pending one. */
  method FetchPendingWinnings(allBets: seq<BetRow>) returns (winnings: seq<PendingWinning>)
    ensures winnings == Pending(allBets)
  {
    winnings := [];
    var i := 0;
    while i < |allBets|
      invariant 0 <= i <= |allBets|
      invariant winnings == Pending(allBets[..i])
    {
      var bet := allBets[i];
      assert allBets[..i + 1][..i] == allBets[..i];
      if bet.market.Some? {
        var market := bet.market.value;
        if market.resolved && market.winningOutcome.Some? && bet.bet.prediction == market.winningOutcome.value
           && !bet.bet.claimed
        {
          winnings := winnings + [Listing(bet)];
        }
      }
      i := i + 1;
    }
    assert allBets[..|allBets|] == allBets;
  }

  /** `reduce((sum, w) => sum + w.amount, 0)`: a left fold from `acc`. */
  function TotalFrom(acc: int, ws: seq<PendingWinning>): int
    decreases |ws|
  {
    if ws == [] then acc else TotalFrom(acc + ws[0].amount, ws[1..])
  }

  /** The listed amounts added up. */
  function SumAmounts(ws: seq<PendingWinning>): nat {
    if ws == [] then 0 else SumAmounts(ws[..|ws| - 1]) + ws[|ws| - 1].amount
  }

  lemma {:induction false} SumAmountsCons(w: PendingWinning, ws: seq<PendingWinning>)
    ensures SumAmounts([w] + ws) == w.amount + SumAmounts(ws)
    decreases |ws|
  {
    if ws != [] {
      var init := ws[..|ws| - 1];
      assert ([w] + ws)[..|[w] + ws| - 1] == [w] + init;
      SumAmountsCons(w, init);
    } else {
      assert [w] + ws == [w];
      assert [w][..0] == [];
    }
  }

  /** The displayed total is the sum of the listed amounts. */
  lemma {:induction false} TotalIsSum(acc: int, ws: seq<PendingWinning>)
    ensures TotalFrom(acc, ws) == acc + SumAmounts(ws)
    decreases |ws|
  {
    if ws != [] {
      TotalIsSum(acc + ws[0].amount, ws[1..]);
      SumAmountsCons(ws[0], ws[1..]);
      assert [ws[0]] + ws[1..] == ws;
    }
  }

  /**
   * Every bet the panel lists passes `claim_winnings`' guards for its owner
   * and settles on the win branch: the claim can then only fail by
   * arithmetic overflow.
   */
  lemma ListedBetIsClaimable(markets: Markets, bets: Bets, profiles: Profiles, lamports: Balances, k: Address)
    requires Consistent(markets, bets, profiles)
    requires k in bets && bets[k].market in markets
    requires IsPending(bets[k], markets[bets[k].market])
    ensures Wins(markets, bets[k])
    ensures var r := ClaimRejection(markets, bets, profiles, lamports, bets[k].user, bets[k].market, k,
                                    ProfileAddress(bets[k].user));
            r == None || r == Some(ArithmeticOverflow)
  {
    assert BetOk(markets, profiles, k, bets[k]);
    assert MarketOk(bets[k].market, markets[bets[k].market]);
  }
}
