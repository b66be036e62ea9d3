/**
 * The bet-history panel: every bet of the wallet whose market could be
 * fetched, labelled active, won, lost or claimed, newest first.
 */
module TransactionHistoryView {
  import opened Wrappers
  import opened State
  import opened Errors
  import opened Invariant
  import opened Program
  import opened ClaimWinningsView

  datatype Status = Active | Won | Lost | Claimed

  /** The label of a bet given its market: active until resolution, then claimed, won or lost. */
  function Classify(bet: Bet, m: Market): Status {
    if !m.resolved then Active
    else if bet.claimed then Claimed
    else if m.winningOutcome == Some(bet.prediction) then Won
    else Lost
  }

  datatype HistoryEntry = HistoryEntry(
    betPDA: Address,
    marketPDA: Address,
    marketQuestion: Bytes,
    prediction: Option<Bytes>,
    amount: nat,
    timestamp: int,
    status: Status)

  function Entry(row: BetRow): HistoryEntry
    requires row.market.Some?
  {
    var m := row.market.value;
    HistoryEntry(row.key, row.bet.market, m.question, OutcomeLabel(m.outcomes, row.bet.prediction),
                 row.bet.amount, row.bet.timestamp, Classify(row.bet, m))
  }

  /** One entry per row whose market was fetched, in fetch order. */
  function Entries(rows: seq<BetRow>): seq<HistoryEntry> {
    if rows == [] then []
    else
      var init := Entries(rows[..|rows| - 1]);
      var last := rows[|rows| - 1];
      if last.market.Some? then init + [Entry(last)] else init
  }

  predicate NewestFirst(h: seq<HistoryEntry>) {
    forall k, l :: 0 <= k < l < |h| ==> h[k].timestamp >= h[l].timestamp
  }

  /**
   * Active exactly while the market is unresolved, whatever the bet; once
   * resolved, a claimed bet shows as claimed whether it won or lost, and an
   * unclaimed one as won or lost by its prediction.
   */
  lemma ClassifyCases(bet: Bet, m: Market)
    ensures Classify(bet, m) == Active <==> !m.resolved
    ensures m.resolved && bet.claimed ==> Classify(bet, m) == Claimed
    ensures m.resolved && !bet.claimed ==>
              (Classify(bet, m) == Won <==> m.winningOutcome == Some(bet.prediction))
              && (Classify(bet, m) == Lost <==> m.winningOutcome != Some(bet.prediction))
  {
  }

  /** "won" is shown exactly for the bets the claim panel lists as pending. */
  lemma WonIffPending(bet: Bet, m: Market)
    ensures Classify(bet, m) == Won <==> IsPending(bet, m)
  {
  }

  /**
   * On a consistent chain, the label agrees with what `claim_winnings` would
   * do for the bet's owner: refuse an active or a claimed bet, settle a lost
   * one as a loss, and pay a won one unless the arithmetic overflows.
   */
  lemma StatusMatchesClaim(markets: Markets, bets: Bets, profiles: Profiles, lamports: Lamports.Balances,
                           k: Address)
    requires Consistent(markets, bets, profiles)
    requires k in bets
    ensures bets[k].market in markets
    ensures var b := bets[k];
            var r := ClaimRejection(markets, bets, profiles, lamports, b.user, b.market, k, ProfileAddress(b.user));
            match Classify(b, markets[b.market])
            case Active => r == Some(Program(MarketNotResolved))
            case Claimed => r == Some(Program(BetAlreadyClaimed))
            case Lost => r == None && !Wins(markets, b)
            case Won => (r == None || r == Some(ArithmeticOverflow)) && Wins(markets, b)
  {
    var b := bets[k];
    assert BetOk(markets, profiles, k, b);
    assert MarketOk(b.market, markets[b.market]);
    if Classify(b, markets[b.market]) == Won {
      ListedBetIsClaimable(markets, bets, profiles, lamports, k);
    }
  }

  /** The list before sorting: the loop over the fetched bets. */
  method CollectHistory(allBets: seq<BetRow>) returns (historyData: seq<HistoryEntry>)
    ensures historyData == Entries(allBets)
  {
    historyData := [];
    var i := 0;
    while i < |allBets|
      invariant 0 <= i <= |allBets|
      invariant historyData == Entries(allBets[..i])
    {
      var bet := allBets[i];
      assert allBets[..i + 1][..i] == allBets[..i];
      if bet.market.Some? {
        var market := bet.market.value;
        var status := Active;
        if market.resolved {
          if bet.bet.claimed {
            status := Claimed;
          } else if market.winningOutcome == Some(bet.bet.prediction) {
            status := Won;
          } else {
            status := Lost;
          }
        }
        historyData := historyData + [HistoryEntry(bet.key, bet.bet.market, market.question,
                                                   OutcomeLabel(market.outcomes, bet.bet.prediction),
                                                   bet.bet.amount, bet.bet.timestamp, status)];
      }
      i := i + 1;
    }
    assert allBets[..|allBets|] == allBets;
  }

  /** Exchanges the entries at `j - 1` and `j`. */
  method Swap(a: array<HistoryEntry>, j: nat)
    requires 0 < j < a.Length
    modifies a
    ensures a[..] == old(a[..])[j - 1 := old(a[j])][j := old(a[j - 1])]
    ensures multiset(a[..]) == multiset(old(a[..]))
  {
    a[j - 1], a[j] := a[j], a[j - 1];
  }

  /** Moves entry `i` left past the older entries before it, extending the sorted prefix by one. */
  method InsertNewestFirst(a: array<HistoryEntry>, i: nat)
    requires i < a.Length
    requires NewestFirst(a[..i])
    modifies a
    ensures NewestFirst(a[..i + 1])
    ensures multiset(a[..]) == multiset(old(a[..]))
  {
    var j := i;
    while j > 0 && a[j - 1].timestamp < a[j].timestamp
      invariant 0 <= j <= i
      invariant forall k, l :: 0 <= k < l <= i && k != j && l != j ==> a[k].timestamp >= a[l].timestamp
      invariant forall l :: j < l <= i ==> a[j].timestamp > a[l].timestamp
      invariant multiset(a[..]) == multiset(old(a[..]))
    {
      Swap(a, j);
      j := j - 1;
    }
  }

  /** Sorts in place by timestamp, newest first. */
  method SortNewestFirst(a: array<HistoryEntry>)
    modifies a
    ensures NewestFirst(a[..])
    ensures multiset(a[..]) == multiset(old(a[..]))
  {
    var i := 0;
    while i < a.Length
      invariant 0 <= i <= a.Length
      invariant NewestFirst(a[..i])
      invariant multiset(a[..]) == multiset(old(a[..]))
    {
      InsertNewestFirst(a, i);
      i := i + 1;
    }
    assert a[..a.Length] == a[..];
  }

  /** The panel's list: the collected entries, sorted newest first. */
  method FetchHistory(allBets: seq<BetRow>) returns (history: seq<HistoryEntry>)
    ensures multiset(history) == multiset(Entries(allBets))
    ensures NewestFirst(history)
  {
    var historyData := CollectHistory(allBets);
    var a := new HistoryEntry[|historyData|](i requires 0 <= i < |historyData| => historyData[i]);
    assert a[..] == historyData;
    SortNewestFirst(a);
    history := a[..];
  }
}
