/**
 * What holds of the program's accounts between transactions, and that each
 * successful instruction keeps it. The lemmas here work on the account maps
 * as values; the `Chain` class calls them after each instruction.
 */
module Invariant {
  import opened Wrappers
  import opened State
  import opened Sums

  type Markets = map<Address, Market>
  type Bets = map<Address, Bet>
  type Profiles = map<Address, UserProfile>

  /** The bet won: its prediction is the market's winning outcome. */
  predicate Wins(markets: Markets, b: Bet) {
    b.market in markets && markets[b.market].winningOutcome == Some(b.prediction)
  }

  function PoolShare(bets: Bets, market: Address, k: Address): int {
    if k in bets && bets[k].market == market then bets[k].amount else 0
  }

  function BetShare(bets: Bets, user: Address, k: Address): int {
    if k in bets && bets[k].user == user then 1 else 0
  }

  function WinShare(markets: Markets, bets: Bets, user: Address, k: Address): int {
    if k in bets && bets[k].user == user && bets[k].claimed && Wins(markets, bets[k]) then 1 else 0
  }

  /** Lamports staked on `market`, summed over all its bets. */
  ghost function Pool(bets: Bets, market: Address): int {
    SumOver(bets.Keys, k => PoolShare(bets, market, k))
  }

  /** Number of bets `user` has placed. */
  ghost function BetCount(bets: Bets, user: Address): int {
    SumOver(bets.Keys, k => BetShare(bets, user, k))
  }

  /** Number of bets `user` has claimed and won. */
  ghost function WinCount(markets: Markets, bets: Bets, user: Address): int {
    SumOver(bets.Keys, k => WinShare(markets, bets, user, k))
  }

  ghost predicate MarketOk(a: Address, m: Market) {
    && |m.question| >= 10
    && a == MarketAddress(m.question)
    && (m.resolved <==> m.winningOutcome.Some?)
    && (m.winningOutcome.Some? ==> m.winningOutcome.value < |m.outcomes|)
    && FitsAllocation(m)
  }

  ghost predicate BetOk(markets: Markets, profiles: Profiles, k: Address, b: Bet) {
    && k == BetAddress(b.market, b.user)
    && b.user.Wallet?
    && b.market in markets
    && ProfileAddress(b.user) in profiles
    && b.prediction < |markets[b.market].outcomes|
    && (b.claimed ==> markets[b.market].resolved)
  }

  ghost predicate StreaksOk(p: UserProfile) {
    p.currentStreak <= p.longestStreak <= p.totalWins
  }

  ghost predicate ProfileOk(markets: Markets, bets: Bets, a: Address, p: UserProfile) {
    && a == ProfileAddress(p.authority)
    && p.authority.Wallet?
    && p.totalBets == BetCount(bets, p.authority)
    && p.totalWins == WinCount(markets, bets, p.authority)
    && StreaksOk(p)
  }

  ghost predicate MarketsOk(markets: Markets, bets: Bets) {
    forall a {:trigger MarketOk(a, markets[a])} | a in markets :: MarketOk(a, markets[a]) && markets[a].totalPool == Pool(bets, a)
  }

  ghost predicate BetsOk(markets: Markets, bets: Bets, profiles: Profiles) {
    forall k {:trigger BetOk(markets, profiles, k, bets[k])} | k in bets :: BetOk(markets, profiles, k, bets[k])
  }

  ghost predicate ProfilesOk(markets: Markets, bets: Bets, profiles: Profiles) {
    forall a {:trigger ProfileOk(markets, bets, a, profiles[a])} | a in profiles :: ProfileOk(markets, bets, a, profiles[a])
  }

  ghost predicate Consistent(markets: Markets, bets: Bets, profiles: Profiles) {
    MarketsOk(markets, bets) && BetsOk(markets, bets, profiles) && ProfilesOk(markets, bets, profiles)
  }

  // ---------------------------------------------------------------------
  // Consequences
  // ---------------------------------------------------------------------

  /** A user never has more wins than bets. */
  lemma WinsAtMostBets(markets: Markets, bets: Bets, profiles: Profiles, a: Address)
    requires Consistent(markets, bets, profiles)
    requires a in profiles
    ensures profiles[a].totalWins <= profiles[a].totalBets
  {
    var u := profiles[a].authority;
    assert ProfileOk(markets, bets, a, profiles[a]);
    SumMonotone(bets.Keys, k => WinShare(markets, bets, u, k), k => BetShare(bets, u, k));
  }

  /** A market without bets has an empty pool. */
  lemma PoolWithoutBets(bets: Bets, market: Address)
    requires forall k | k in bets :: bets[k].market != market
    ensures Pool(bets, market) == 0
  {
    SumZero(bets.Keys, k => PoolShare(bets, market, k));
  }

  // ---------------------------------------------------------------------
  // initialize_market
  // ---------------------------------------------------------------------

  lemma InitializeKeeps(markets: Markets, bets: Bets, profiles: Profiles, a: Address, m: Market)
    requires Consistent(markets, bets, profiles)
    requires a !in markets
    requires MarketOk(a, m) && m.totalPool == 0
    ensures Consistent(markets[a := m], bets, profiles)
  {
    var markets' := markets[a := m];
    assert MarketsOk(markets', bets) by {
      forall k | k in bets
        ensures bets[k].market != a
      {
        assert BetOk(markets, profiles, k, bets[k]);
      }
      PoolWithoutBets(bets, a);
    }
    assert BetsOk(markets', bets, profiles) by {
      forall k | k in bets
        ensures BetOk(markets', profiles, k, bets[k])
      {
        assert BetOk(markets, profiles, k, bets[k]);
      }
    }
    InitializeKeepsProfiles(markets, bets, profiles, a, m);
  }

  lemma InitializeKeepsProfiles(markets: Markets, bets: Bets, profiles: Profiles, a: Address, m: Market)
    requires BetsOk(markets, bets, profiles) && ProfilesOk(markets, bets, profiles)
    requires a !in markets
    ensures ProfilesOk(markets[a := m], bets, profiles)
  {
    var markets' := markets[a := m];
    forall p | p in profiles
      ensures ProfileOk(markets', bets, p, profiles[p])
    {
      var u := profiles[p].authority;
      assert ProfileOk(markets, bets, p, profiles[p]);
      forall k | k in bets.Keys
        ensures WinShare(markets, bets, u, k) == WinShare(markets', bets, u, k)
      {
        assert BetOk(markets, profiles, k, bets[k]);
      }
      SumCongruent(bets.Keys, k => WinShare(markets, bets, u, k), k => WinShare(markets', bets, u, k));
    }
  }

  // ---------------------------------------------------------------------
  // resolve_market
  // ---------------------------------------------------------------------

  lemma ResolveKeeps(markets: Markets, bets: Bets, profiles: Profiles, a: Address, w: u8)
    requires Consistent(markets, bets, profiles)
    requires a in markets && !markets[a].resolved
    requires w < |markets[a].outcomes|
    requires FitsAllocation(markets[a].(resolved := true, winningOutcome := Some(w)))
    ensures Consistent(markets[a := markets[a].(resolved := true, winningOutcome := Some(w))], bets, profiles)
  {
    var markets' := markets[a := markets[a].(resolved := true, winningOutcome := Some(w))];
    assert MarketsOk(markets', bets) by {
      forall m | m in markets'
        ensures MarketOk(m, markets'[m]) && markets'[m].totalPool == Pool(bets, m)
      {
        assert MarketOk(m, markets[m]);
      }
    }
    assert BetsOk(markets', bets, profiles) by {
      forall k | k in bets
        ensures BetOk(markets', profiles, k, bets[k])
      {
        assert BetOk(markets, profiles, k, bets[k]);
      }
    }
    ResolveKeepsProfiles(markets, bets, profiles, a, w);
  }

  lemma ResolveKeepsProfiles(markets: Markets, bets: Bets, profiles: Profiles, a: Address, w: u8)
    requires BetsOk(markets, bets, profiles) && ProfilesOk(markets, bets, profiles)
    requires a in markets && !markets[a].resolved
    ensures ProfilesOk(markets[a := markets[a].(resolved := true, winningOutcome := Some(w))], bets, profiles)
  {
    var markets' := markets[a := markets[a].(resolved := true, winningOutcome := Some(w))];
    forall p | p in profiles
      ensures ProfileOk(markets', bets, p, profiles[p])
    {
      var u := profiles[p].authority;
      assert ProfileOk(markets, bets, p, profiles[p]);
      forall k | k in bets.Keys
        ensures WinShare(markets, bets, u, k) == WinShare(markets', bets, u, k)
      {
        assert BetOk(markets, profiles, k, bets[k]);
      }
      SumCongruent(bets.Keys, k => WinShare(markets, bets, u, k), k => WinShare(markets', bets, u, k));
    }
  }

  // ---------------------------------------------------------------------
  // place_bet
  // ---------------------------------------------------------------------

  /** The profile `place_bet` writes: counters and streaks carried over, one more bet. */
  ghost predicate AfterBet(before: UserProfile, after: UserProfile, user: Address) {
    && after.authority == user
    && after.totalBets == before.totalBets + 1
    && after.totalWins == before.totalWins
    && after.currentStreak == before.currentStreak
    && after.longestStreak == before.longestStreak
  }

  /** What `place_bet` may assume before it writes `bet` and `profile`. */
  ghost predicate CanPlace(markets: Markets, bets: Bets, profiles: Profiles,
                           user: Address, bet: Bet, profile: UserProfile)
  {
    && user.Wallet? && bet.user == user && !bet.claimed
    && bet.market in markets && bet.prediction < |markets[bet.market].outcomes|
    && BetAddress(bet.market, user) !in bets
    && markets[bet.market].totalPool + bet.amount <= U64_MAX
    && AfterBet(if ProfileAddress(user) in profiles then profiles[ProfileAddress(user)] else ZeroProfile,
                profile, user)
  }

  function Deposited(markets: Markets, a: Address, amount: nat): Markets
    requires a in markets
    requires markets[a].totalPool + amount <= U64_MAX
  {
    markets[a := markets[a].(totalPool := markets[a].totalPool + amount)]
  }

  lemma PlaceBetKeeps(markets: Markets, bets: Bets, profiles: Profiles,
                      user: Address, bet: Bet, profile: UserProfile)
    requires Consistent(markets, bets, profiles)
    requires CanPlace(markets, bets, profiles, user, bet, profile)
    ensures Consistent(Deposited(markets, bet.market, bet.amount),
                       bets[BetAddress(bet.market, user) := bet],
                       profiles[ProfileAddress(user) := profile])
  {
    PlaceBetKeepsMarkets(markets, bets, profiles, user, bet, profile);
    PlaceBetKeepsBets(markets, bets, profiles, user, bet, profile);
    PlaceBetKeepsProfiles(markets, bets, profiles, user, bet, profile);
  }

  lemma PlaceBetKeepsMarkets(markets: Markets, bets: Bets, profiles: Profiles,
                             user: Address, bet: Bet, profile: UserProfile)
    requires MarketsOk(markets, bets)
    requires CanPlace(markets, bets, profiles, user, bet, profile)
    ensures MarketsOk(Deposited(markets, bet.market, bet.amount), bets[BetAddress(bet.market, user) := bet])
  {
    var k0 := BetAddress(bet.market, user);
    var markets' := Deposited(markets, bet.market, bet.amount);
    var bets' := bets[k0 := bet];
    assert bets'.Keys == bets.Keys + {k0};
    forall m | m in markets'
      ensures MarketOk(m, markets'[m]) && markets'[m].totalPool == Pool(bets', m)
    {
      assert MarketOk(m, markets[m]);
      MarketLenValue(markets[m]);
      MarketLenValue(markets'[m]);
      SumInsert(bets.Keys, k => PoolShare(bets, m, k), k => PoolShare(bets', m, k), k0);
    }
  }

  lemma PlaceBetKeepsBets(markets: Markets, bets: Bets, profiles: Profiles,
                          user: Address, bet: Bet, profile: UserProfile)
    requires BetsOk(markets, bets, profiles)
    requires CanPlace(markets, bets, profiles, user, bet, profile)
    ensures BetsOk(Deposited(markets, bet.market, bet.amount),
                   bets[BetAddress(bet.market, user) := bet],
                   profiles[ProfileAddress(user) := profile])
  {
    var k0 := BetAddress(bet.market, user);
    var markets' := Deposited(markets, bet.market, bet.amount);
    var bets' := bets[k0 := bet];
    var profiles' := profiles[ProfileAddress(user) := profile];
    forall k | k in bets'
      ensures BetOk(markets', profiles', k, bets'[k])
    {
      if k != k0 {
        assert BetOk(markets, profiles, k, bets[k]);
      }
    }
  }

  /** The new bet counts for its user only and, being unclaimed, adds no win. */
  lemma PlaceBetCounts(markets: Markets, bets: Bets, profiles: Profiles,
                       user: Address, bet: Bet, profile: UserProfile, v: Address)
    requires BetsOk(markets, bets, profiles)
    requires CanPlace(markets, bets, profiles, user, bet, profile)
    ensures BetCount(bets[BetAddress(bet.market, user) := bet], v)
            == BetCount(bets, v) + (if v == user then 1 else 0)
    ensures WinCount(Deposited(markets, bet.market, bet.amount), bets[BetAddress(bet.market, user) := bet], v)
            == WinCount(markets, bets, v)
  {
    var k0 := BetAddress(bet.market, user);
    var markets' := Deposited(markets, bet.market, bet.amount);
    var bets' := bets[k0 := bet];
    assert bets'.Keys == bets.Keys + {k0};
    SumInsert(bets.Keys, k => BetShare(bets, v, k), k => BetShare(bets', v, k), k0);
    forall k | k in bets.Keys
      ensures WinShare(markets, bets, v, k) == WinShare(markets', bets', v, k)
    {
      assert BetOk(markets, profiles, k, bets[k]);
    }
    SumInsert(bets.Keys, k => WinShare(markets, bets, v, k), k => WinShare(markets', bets', v, k), k0);
  }

  /** A user without a profile has placed no bet and won nothing. */
  lemma NoProfileNoBets(markets: Markets, bets: Bets, profiles: Profiles, user: Address)
    requires BetsOk(markets, bets, profiles)
    requires ProfileAddress(user) !in profiles
    ensures BetCount(bets, user) == 0 && WinCount(markets, bets, user) == 0
  {
    forall k | k in bets.Keys
      ensures BetShare(bets, user, k) == 0 && WinShare(markets, bets, user, k) == 0
    {
      assert BetOk(markets, profiles, k, bets[k]);
    }
    SumZero(bets.Keys, k => BetShare(bets, user, k));
    SumZero(bets.Keys, k => WinShare(markets, bets, user, k));
  }

  lemma PlaceBetKeepsProfiles(markets: Markets, bets: Bets, profiles: Profiles,
                              user: Address, bet: Bet, profile: UserProfile)
    requires BetsOk(markets, bets, profiles) && ProfilesOk(markets, bets, profiles)
    requires CanPlace(markets, bets, profiles, user, bet, profile)
    ensures ProfilesOk(Deposited(markets, bet.market, bet.amount),
                       bets[BetAddress(bet.market, user) := bet],
                       profiles[ProfileAddress(user) := profile])
  {
    var p0 := ProfileAddress(user);
    var markets' := Deposited(markets, bet.market, bet.amount);
    var bets' := bets[BetAddress(bet.market, user) := bet];
    var profiles' := profiles[p0 := profile];
    if p0 !in profiles {
      NoProfileNoBets(markets, bets, profiles, user);
    } else {
      assert ProfileOk(markets, bets, p0, profiles[p0]);
    }
    forall p | p in profiles'
      ensures ProfileOk(markets', bets', p, profiles'[p])
    {
      PlaceBetCounts(markets, bets, profiles, user, bet, profile, profiles'[p].authority);
      if p != p0 {
        assert ProfileOk(markets, bets, p, profiles[p]);
      }
    }
  }

  // ---------------------------------------------------------------------
  // claim_winnings
  // ---------------------------------------------------------------------

  /** The profile a claim writes: on a win one more win and a longer streak, on a loss a reset streak. */
  ghost predicate AfterClaim(before: UserProfile, after: UserProfile, won: bool) {
    if won then
      && after == before.(totalWins := after.totalWins, currentStreak := after.currentStreak,
                          longestStreak := after.longestStreak)
      && after.totalWins == before.totalWins + 1
      && after.currentStreak == before.currentStreak + 1
      && after.longestStreak == (if after.currentStreak > before.longestStreak then after.currentStreak
                                 else before.longestStreak)
    else
      after == before.(currentStreak := 0)
  }

  /** What `claim_winnings` may assume before it settles bet `k0` and writes `profile`. */
  ghost predicate CanClaim(markets: Markets, bets: Bets, profiles: Profiles, k0: Address, profile: UserProfile) {
    && k0 in bets && !bets[k0].claimed
    && bets[k0].market in markets && markets[bets[k0].market].resolved
    && ProfileAddress(bets[k0].user) in profiles
    && AfterClaim(profiles[ProfileAddress(bets[k0].user)], profile, Wins(markets, bets[k0]))
  }

  lemma ClaimKeeps(markets: Markets, bets: Bets, profiles: Profiles, k0: Address, profile: UserProfile)
    requires Consistent(markets, bets, profiles)
    requires CanClaim(markets, bets, profiles, k0, profile)
    ensures Consistent(markets,
                       bets[k0 := bets[k0].(claimed := true)],
                       profiles[ProfileAddress(bets[k0].user) := profile])
  {
    ClaimKeepsMarkets(markets, bets, k0);
    ClaimKeepsBets(markets, bets, profiles, k0, profile);
    ClaimKeepsProfiles(markets, bets, profiles, k0, profile);
  }

  lemma ClaimKeepsMarkets(markets: Markets, bets: Bets, k0: Address)
    requires MarketsOk(markets, bets)
    requires k0 in bets
    ensures MarketsOk(markets, bets[k0 := bets[k0].(claimed := true)])
  {
    var bets' := bets[k0 := bets[k0].(claimed := true)];
    assert bets'.Keys == bets.Keys;
    forall m | m in markets
      ensures MarketOk(m, markets[m]) && markets[m].totalPool == Pool(bets', m)
    {
      assert MarketOk(m, markets[m]);
      SumCongruent(bets.Keys, k => PoolShare(bets, m, k), k => PoolShare(bets', m, k));
    }
  }

  lemma ClaimKeepsBets(markets: Markets, bets: Bets, profiles: Profiles, k0: Address, profile: UserProfile)
    requires BetsOk(markets, bets, profiles)
    requires CanClaim(markets, bets, profiles, k0, profile)
    ensures BetsOk(markets, bets[k0 := bets[k0].(claimed := true)],
                   profiles[ProfileAddress(bets[k0].user) := profile])
  {
    var bets' := bets[k0 := bets[k0].(claimed := true)];
    var profiles' := profiles[ProfileAddress(bets[k0].user) := profile];
    forall k | k in bets'
      ensures BetOk(markets, profiles', k, bets'[k])
    {
      assert BetOk(markets, profiles, k, bets[k]);
    }
  }

  /** Settling a bet counts one more win for its user exactly when the bet won. */
  lemma ClaimCounts(markets: Markets, bets: Bets, k0: Address, v: Address)
    requires k0 in bets && !bets[k0].claimed
    ensures BetCount(bets[k0 := bets[k0].(claimed := true)], v) == BetCount(bets, v)
    ensures WinCount(markets, bets[k0 := bets[k0].(claimed := true)], v)
            == WinCount(markets, bets, v) + (if v == bets[k0].user && Wins(markets, bets[k0]) then 1 else 0)
  {
    var bets' := bets[k0 := bets[k0].(claimed := true)];
    assert bets'.Keys == bets.Keys;
    SumCongruent(bets.Keys, k => BetShare(bets, v, k), k => BetShare(bets', v, k));
    SumUpdate(bets.Keys, k => WinShare(markets, bets, v, k), k => WinShare(markets, bets', v, k), k0);
  }

  lemma ClaimKeepsProfiles(markets: Markets, bets: Bets, profiles: Profiles, k0: Address, profile: UserProfile)
    requires BetsOk(markets, bets, profiles) && ProfilesOk(markets, bets, profiles)
    requires CanClaim(markets, bets, profiles, k0, profile)
    ensures ProfilesOk(markets, bets[k0 := bets[k0].(claimed := true)],
                       profiles[ProfileAddress(bets[k0].user) := profile])
  {
    var user := bets[k0].user;
    var p0 := ProfileAddress(user);
    var bets' := bets[k0 := bets[k0].(claimed := true)];
    var profiles' := profiles[p0 := profile];
    assert ProfileOk(markets, bets, p0, profiles[p0]);
    forall p | p in profiles'
      ensures ProfileOk(markets, bets', p, profiles'[p])
    {
      ClaimCounts(markets, bets, k0, profiles'[p].authority);
      if p != p0 {
        assert ProfileOk(markets, bets, p, profiles[p]);
      }
    }
  }
}
