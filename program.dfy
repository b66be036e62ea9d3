/**
 * The four instructions of the program over the accounts it owns. Each
 * instruction is all-or-nothing: when any check fails, or checked
 * arithmetic overflows, the transaction aborts and no account changes.
 */
module Program {
  import opened Wrappers
  import opened State
  import opened Errors
  import opened Lamports
  import opened Settlement
  import opened Invariant
  import opened Text

  /** The profile `place_bet` starts from: the stored one, or a freshly allocated zeroed account. */
  function ProfileBefore(profiles: Profiles, user: Address): UserProfile {
    if ProfileAddress(user) in profiles then profiles[ProfileAddress(user)] else ZeroProfile
  }

  /**
   * Why `initialize_market` aborts, if it does: the seed slice panics on a
   * question shorter than 10 bytes, the market account must sit at the
   * address derived from the question, `init` refuses an address already in
   * use, and the record must fit its allocated space when written back.
   * The handler itself checks nothing.
   */
  function InitializeRejection(markets: Markets, marketAddr: Address, question: Bytes, outcomes: seq<Bytes>,
                               oracleSource: Option<Address>): Option<Failure>
  {
    if |question| < 10 then Some(Panic)
    else if marketAddr != MarketAddress(question) then Some(ConstraintSeeds)
    else if marketAddr in markets then Some(AccountAlreadyInUse)
    else if !FitsAllocation(Market(DefaultKey, question, outcomes, 0, 0, false, None, oracleSource, 0))
    then Some(AccountDidNotSerialize)
    else None
  }

  /** Why `resolve_market` aborts, if it does, in the order the checks run. */
  function ResolveRejection(markets: Markets, signer: Address, marketAddr: Address, w: u8): Option<Failure> {
    if marketAddr !in markets then Some(AccountNotInitialized)
    else
      var m := markets[marketAddr];
      if signer != m.authority then Some(ConstraintAddress)
      else if m.resolved then Some(Program(MarketResolved))
      else if w >= |m.outcomes| then Some(Program(InvalidOutcome))
      else if !FitsAllocation(m.(resolved := true, winningOutcome := Some(w))) then Some(AccountDidNotSerialize)
      else None
  }

  /**
   * Why `place_bet` aborts, if it does, in the order the checks run: the
   * market is loaded, then the profile account (`init_if_needed`) and the
   * bet account (`init`) must sit at their derived addresses, and the bet's
   * address must still be free.
   */
  function PlaceBetRejection(markets: Markets, bets: Bets, profiles: Profiles, lamports: Balances,
                             user: Address, marketAddr: Address, profileAddr: Address, betAddr: Address,
                             prediction: u8, amount: u64, now: i64): Option<Failure>
  {
    if marketAddr !in markets then Some(AccountNotInitialized)
    else if profileAddr != ProfileAddress(user) then Some(ConstraintSeeds)
    else if betAddr != BetAddress(marketAddr, user) then Some(ConstraintSeeds)
    else if betAddr in bets then Some(AccountAlreadyInUse)
    else
      var m := markets[marketAddr];
      if !(m.resolutionTime > now) then Some(Program(MarketExpired))
      else if prediction >= |m.outcomes| then Some(Program(InvalidOutcome))
      else if amount == 0 then Some(Program(InsufficientFunds))
      else if Bal(lamports, user) < amount then Some(InsufficientLamports)
      else if Bal(lamports, marketAddr) + amount > U64_MAX then Some(ArithmeticOverflow)
      else if m.totalPool + amount > U64_MAX then Some(ArithmeticOverflow)
      else if ProfileBefore(profiles, user).totalBets == U64_MAX then Some(ArithmeticOverflow)
      else None
  }

  /** Lamports a winner receives: the payout, or whatever the market still holds. */
  function Paid(lamports: Balances, marketAddr: Address, payout: nat): nat {
    Min(payout, Bal(lamports, marketAddr))
  }

  /**
   * Why `claim_winnings` aborts, if it does, in the order the checks run:
   * all three accounts are loaded first, then the bet's and the profile's
   * seeds are checked, then the handler's own guards run.
   */
  function ClaimRejection(markets: Markets, bets: Bets, profiles: Profiles, lamports: Balances,
                          user: Address, marketAddr: Address, betAddr: Address, profileAddr: Address)
    : Option<Failure>
  {
    if marketAddr !in markets || betAddr !in bets || profileAddr !in profiles then Some(AccountNotInitialized)
    else if betAddr != BetAddress(marketAddr, user) then Some(ConstraintSeeds)
    else if profileAddr != ProfileAddress(user) then Some(ConstraintSeeds)
    else
      var m, b, p := markets[marketAddr], bets[betAddr], profiles[profileAddr];
      if !m.resolved then Some(Program(MarketNotResolved))
      else if b.claimed then Some(Program(BetAlreadyClaimed))
      else if m.winningOutcome.None? then Some(Panic)
      else if b.prediction != m.winningOutcome.value then None
      else if p.totalWins == U64_MAX || p.currentStreak == U32_MAX then Some(ArithmeticOverflow)
      else
        match WinPayout(b.amount, p.currentStreak + 1)
        case Err(e) => Some(e)
        case Ok(payout) =>
          if Bal(lamports, user) + Paid(lamports, marketAddr, payout) > U64_MAX then Some(ArithmeticOverflow)
          else None
  }

  /**
   * A `place_bet` that passes its guards keeps the invariant: the pool grows
   * by the stake, the new bet counts once for its user, and the profile
   * gains one bet with its wins and streaks untouched.
   */
  lemma PlaceBetPreserves(markets: Markets, bets: Bets, profiles: Profiles, lamports: Balances,
                          user: Address, marketAddr: Address, profileAddr: Address, betAddr: Address,
                          prediction: u8, amount: u64, now: i64, betBump: u8, profileBump: u8)
    requires Consistent(markets, bets, profiles) && user.Wallet?
    requires PlaceBetRejection(markets, bets, profiles, lamports, user, marketAddr, profileAddr, betAddr,
                               prediction, amount, now) == None
    ensures marketAddr != user
    ensures var m := markets[marketAddr];
            var p := ProfileBefore(profiles, user);
            var isNew := p.totalBets == 0;
            Consistent(markets[marketAddr := m.(totalPool := m.totalPool + amount)],
                       bets[BetAddress(marketAddr, user) := Bet(marketAddr, user, amount, prediction, false, now, betBump)],
                       profiles[ProfileAddress(user) := p.(authority := if isNew then user else p.authority,
                                                           bump := if isNew then profileBump else p.bump,
                                                           totalBets := p.totalBets + 1,
                                                           lastBetTimestamp := now)])
  {
    var m := markets[marketAddr];
    var p := ProfileBefore(profiles, user);
    var isNew := p.totalBets == 0;
    var profile := p.(authority := if isNew then user else p.authority, bump := if isNew then profileBump else p.bump,
                      totalBets := p.totalBets + 1, lastBetTimestamp := now);
    var bet := Bet(marketAddr, user, amount, prediction, false, now, betBump);
    assert MarketOk(marketAddr, m);
    if ProfileAddress(user) in profiles {
      assert ProfileOk(markets, bets, ProfileAddress(user), p);
    }
    assert CanPlace(markets, bets, profiles, user, bet, profile);
    PlaceBetKeeps(markets, bets, profiles, user, bet, profile);
    assert markets[marketAddr := m.(totalPool := m.totalPool + amount)] == Deposited(markets, marketAddr, amount);
  }

  /**
   * A `claim_winnings` that passes its guards keeps the invariant: the bet
   * is settled, and its owner's profile gains the win and the longer streak
   * exactly when the bet won, or has its streak reset when it lost.
   */
  lemma ClaimPreserves(markets: Markets, bets: Bets, profiles: Profiles, lamports: Balances,
                       user: Address, marketAddr: Address, betAddr: Address, profileAddr: Address)
    requires Consistent(markets, bets, profiles) && user.Wallet?
    requires ClaimRejection(markets, bets, profiles, lamports, user, marketAddr, betAddr, profileAddr) == None
    ensures marketAddr != user
    ensures var b := bets[betAddr];
            var p := profiles[ProfileAddress(user)];
            var streak := p.currentStreak + 1;
            var won := markets[marketAddr].winningOutcome == Some(b.prediction);
            Consistent(markets, bets[betAddr := b.(claimed := true)],
                       profiles[ProfileAddress(user) :=
                                  if won then p.(totalWins := p.totalWins + 1, currentStreak := streak,
                                                 longestStreak := if streak > p.longestStreak then streak
                                                                  else p.longestStreak)
                                  else p.(currentStreak := 0)])
  {
    var b := bets[betAddr];
    assert MarketOk(marketAddr, markets[marketAddr]);
    assert BetOk(markets, profiles, betAddr, b);
    assert ProfileOk(markets, bets, ProfileAddress(user), profiles[ProfileAddress(user)]);
    var p := profiles[ProfileAddress(user)];
    var streak := p.currentStreak + 1;
    var won := markets[marketAddr].winningOutcome == Some(b.prediction);
    var profile := if won then p.(totalWins := p.totalWins + 1, currentStreak := streak,
                                  longestStreak := if streak > p.longestStreak then streak else p.longestStreak)
                   else p.(currentStreak := 0);
    assert CanClaim(markets, bets, profiles, betAddr, profile);
    ClaimKeeps(markets, bets, profiles, betAddr, profile);
  }

  class Chain {
    var markets: Markets
    var bets: Bets
    var profiles: Profiles
    var lamports: Balances
    /** The canonical bump the runtime finds for a seed list. */
    const bumpOf: seq<Seed> -> u8

    ghost predicate Valid()
      reads this
    {
      Consistent(markets, bets, profiles)
    }

    constructor (bumpOf: seq<Seed> -> u8, lamports: Balances)
      ensures Valid()
      ensures this.bumpOf == bumpOf && this.lamports == lamports
      ensures markets == map[] && bets == map[] && profiles == map[]
    {
      this.bumpOf := bumpOf;
      this.lamports := lamports;
      markets, bets, profiles := map[], map[], map[];
    }

    method InitializeMarket(authority: Address, marketAddr: Address, question: Bytes, outcomes: seq<Bytes>,
                            resolutionTime: i64, oracleSource: Option<Address>)
      returns (r: Result<(), Failure>)
      requires Valid() && authority.Wallet?
      modifies this
      ensures Valid()
      ensures var rejection := InitializeRejection(old(markets), marketAddr, question, outcomes, oracleSource);
              (r.Ok? <==> rejection == None) && (r.Err? ==> r.error == rejection.value)
      ensures r.Err? ==> markets == old(markets)
      ensures r.Ok? ==>
                && marketAddr == MarketAddress(question)
                && marketAddr in markets
                && var m := markets[marketAddr];
                && markets == old(markets)[marketAddr := m]
                && m.authority == authority && m.question == question && m.outcomes == outcomes
                && m.resolutionTime == resolutionTime && m.totalPool == 0 && !m.resolved
                && m.winningOutcome == None && m.oracleSource == oracleSource
                && m.bump == bumpOf(MarketSeeds(question))
      ensures bets == old(bets) && profiles == old(profiles) && lamports == old(lamports)
    {
      var rejection := InitializeRejection(markets, marketAddr, question, outcomes, oracleSource);
      if rejection.Some? {
        return Err(rejection.value);
      }
      var a := marketAddr;
      var market := Market(DefaultKey, [], [], 0, 0, false, None, None, 0);
      market := market.(authority := authority);
      market := market.(question := question);
      market := market.(outcomes := outcomes);
      market := market.(resolutionTime := resolutionTime);
      market := market.(totalPool := 0);
      market := market.(resolved := false);
      market := market.(winningOutcome := None);
      market := market.(oracleSource := oracleSource);
      market := market.(bump := bumpOf(MarketSeeds(question)));
      MarketLenValue(market);
      MarketLenValue(Market(DefaultKey, question, outcomes, 0, 0, false, None, oracleSource, 0));
      InitializeKeeps(markets, bets, profiles, a, market);
      markets := markets[a := market];
      r := Ok(());
    }

    method ResolveMarket(signer: Address, marketAddr: Address, winningOutcome: u8)
      returns (r: Result<(), Failure>)
      requires Valid()
      modifies this
      ensures Valid()
      ensures var rejection := ResolveRejection(old(markets), signer, marketAddr, winningOutcome);
              (r.Ok? <==> rejection == None) && (r.Err? ==> r.error == rejection.value)
      ensures r.Err? ==> markets == old(markets)
      ensures r.Ok? ==>
                markets == old(markets)[marketAddr := old(markets)[marketAddr].(
                             resolved := true, winningOutcome := Some(winningOutcome))]
      ensures r.Ok? ==> forall w :: ResolveRejection(markets, signer, marketAddr, w) == Some(Program(MarketResolved))
      ensures bets == old(bets) && profiles == old(profiles) && lamports == old(lamports)
    {
      var rejection := ResolveRejection(markets, signer, marketAddr, winningOutcome);
      if rejection.Some? {
        return Err(rejection.value);
      }
      var market := markets[marketAddr];
      ResolveKeeps(markets, bets, profiles, marketAddr, winningOutcome);
      market := market.(resolved := true);
      market := market.(winningOutcome := Some(winningOutcome));
      markets := markets[marketAddr := market];
      r := Ok(());
    }

    method PlaceBet(user: Address, marketAddr: Address, profileAddr: Address, betAddr: Address,
                    prediction: u8, amount: u64, now: i64)
      returns (r: Result<(), Failure>)
      requires Valid() && user.Wallet?
      modifies this
      ensures Valid()
      ensures var rejection := PlaceBetRejection(old(markets), old(bets), old(profiles), old(lamports),
                                                 user, marketAddr, profileAddr, betAddr, prediction, amount, now);
              (r.Ok? <==> rejection == None) && (r.Err? ==> r.error == rejection.value)
      ensures r.Err? ==>
                markets == old(markets) && bets == old(bets) && profiles == old(profiles) && lamports == old(lamports)
      ensures r.Ok? ==>
                var m := old(markets)[marketAddr];
                var p := ProfileBefore(old(profiles), user);
                var isNew := p.totalBets == 0;
                && user != marketAddr
                && markets == old(markets)[marketAddr := m.(totalPool := m.totalPool + amount)]
                && bets == old(bets)[BetAddress(marketAddr, user) :=
                             Bet(marketAddr, user, amount, prediction, false, now, bumpOf(BetSeeds(marketAddr, user)))]
                && profiles == old(profiles)[ProfileAddress(user) := p.(
                                 authority := if isNew then user else p.authority,
                                 bump := if isNew then bumpOf(ProfileSeeds(user)) else p.bump,
                                 totalBets := p.totalBets + 1,
                                 lastBetTimestamp := now)]
                && lamports == Move(old(lamports), user, marketAddr, amount)
      ensures r.Ok? ==> forall p, a, t :: PlaceBetRejection(markets, bets, profiles, lamports, user, marketAddr,
                                                            profileAddr, betAddr, p, a, t)
                                           == Some(AccountAlreadyInUse)
      ensures Total(lamports) == Total(old(lamports))
    {
      var rejection := PlaceBetRejection(markets, bets, profiles, lamports, user, marketAddr, profileAddr, betAddr,
                                         prediction, amount, now);
      if rejection.Some? {
        return Err(rejection.value);
      }
      PlaceBetPreserves(markets, bets, profiles, lamports, user, marketAddr, profileAddr, betAddr,
                        prediction, amount, now, bumpOf(BetSeeds(marketAddr, user)), bumpOf(ProfileSeeds(user)));

      // the system-program transfer of the stake
      var balances := Move(lamports, user, marketAddr, amount);
      MoveConserves(lamports, user, marketAddr, amount);

      var market := markets[marketAddr];
      market := market.(totalPool := market.totalPool + amount);

      var profile := ProfileBefore(profiles, user);
      if profile.totalBets == 0 {
        profile := profile.(authority := user, bump := bumpOf(ProfileSeeds(user)));
      }
      profile := profile.(totalBets := profile.totalBets + 1, lastBetTimestamp := now);

      var bet := Bet(marketAddr, user, amount, prediction, false, now, bumpOf(BetSeeds(marketAddr, user)));

      markets := markets[marketAddr := market];
      bets := bets[BetAddress(marketAddr, user) := bet];
      profiles := profiles[ProfileAddress(user) := profile];
      lamports := balances;
      r := Ok(());
    }

    method ClaimWinnings(user: Address, marketAddr: Address, betAddr: Address, profileAddr: Address)
      returns (r: Result<(), Failure>)
      requires Valid() && user.Wallet?
      modifies this
      ensures Valid()
      ensures var rejection := ClaimRejection(old(markets), old(bets), old(profiles), old(lamports),
                                              user, marketAddr, betAddr, profileAddr);
              (r.Ok? <==> rejection == None) && (r.Err? ==> r.error == rejection.value)
      ensures markets == old(markets)
      ensures r.Err? ==> bets == old(bets) && profiles == old(profiles) && lamports == old(lamports)
      ensures r.Ok? ==>
                var b := old(bets)[betAddr];
                var p := old(profiles)[ProfileAddress(user)];
                var won := old(markets)[marketAddr].winningOutcome == Some(b.prediction);
                var streak := p.currentStreak + 1;
                && user != marketAddr
                && bets == old(bets)[betAddr := b.(claimed := true)]
                && (won ==>
                      && profiles == old(profiles)[ProfileAddress(user) := p.(
                                       totalWins := p.totalWins + 1,
                                       currentStreak := streak,
                                       longestStreak := if streak > p.longestStreak then streak else p.longestStreak)]
                      && lamports == Move(old(lamports), marketAddr, user,
                                          Paid(old(lamports), marketAddr, b.amount * PayoutFactor(streak))))
                && (!won ==>
                      && profiles == old(profiles)[ProfileAddress(user) := p.(currentStreak := 0)]
                      && lamports == old(lamports))
      ensures r.Ok? ==> ClaimRejection(markets, bets, profiles, lamports, user, marketAddr, betAddr, profileAddr)
                        == Some(Program(BetAlreadyClaimed))
      ensures Total(lamports) == Total(old(lamports))
    {
      var rejection := ClaimRejection(markets, bets, profiles, lamports, user, marketAddr, betAddr, profileAddr);
      if rejection.Some? {
        return Err(rejection.value);
      }
      ClaimPreserves(markets, bets, profiles, lamports, user, marketAddr, betAddr, profileAddr);
      var market := markets[marketAddr];
      var bet := bets[betAddr];
      var profile := profiles[profileAddr];

      // `unwrap` cannot fail: a resolved market has a winning outcome
      var winningOutcome := market.winningOutcome.value;
      var balances := lamports;
      if bet.prediction == winningOutcome {
        profile := profile.(totalWins := profile.totalWins + 1, currentStreak := profile.currentStreak + 1);
        if profile.currentStreak > profile.longestStreak {
          profile := profile.(longestStreak := profile.currentStreak);
        }
        var payout := WinPayout(bet.amount, profile.currentStreak).value;
        var marketBalance := Bal(lamports, marketAddr);
        if marketBalance >= payout {
          balances := Move(lamports, marketAddr, user, payout);
          MoveConserves(lamports, marketAddr, user, payout);
        } else {
          balances := Move(lamports, marketAddr, user, marketBalance);
          MoveConserves(lamports, marketAddr, user, marketBalance);
        }
      } else {
        profile := profile.(currentStreak := 0);
      }
      bet := bet.(claimed := true);

      bets := bets[betAddr := bet];
      profiles := profiles[profileAddr := profile];
      lamports := balances;
      r := Ok(());
    }
  }

  // -----------------------------------------------------------------------
  // What the guards admit and refuse
  // -----------------------------------------------------------------------

  /**
   * The handler validates nothing: once the question is long enough, its
   * address is free and the record fits, any outcome list (even an empty
   * one) and any resolution time (even a past one) is accepted.
   */
  lemma InitializeWithinBudget(markets: Markets, question: Bytes, outcomes: seq<Bytes>,
                               oracleSource: Option<Address>)
    requires 10 <= |question| <= 100 && |outcomes| <= 4
    requires forall i | 0 <= i < |outcomes| :: |outcomes[i]| <= 20
    requires MarketAddress(question) !in markets
    ensures InitializeRejection(markets, MarketAddress(question), question, outcomes, oracleSource) == None
  {
    MarketWithinBudget(Market(DefaultKey, question, outcomes, 0, 0, false, None, oracleSource, 0));
  }

  /** A second question sharing the first 10 bytes of a stored one cannot be initialised. */
  lemma QuestionPrefixCollides(markets: Markets, bets: Bets, profiles: Profiles, a: Address,
                               question: Bytes, outcomes: seq<Bytes>, oracleSource: Option<Address>)
    requires Consistent(markets, bets, profiles)
    requires a in markets
    requires |question| >= 10 && question[..10] <= markets[a].question
    ensures InitializeRejection(markets, MarketAddress(question), question, outcomes, oracleSource) == Some(AccountAlreadyInUse)
  {
    assert MarketOk(a, markets[a]);
    MarketAddressCollision(question, markets[a].question);
  }

  /** Any signer other than the market's authority is refused. */
  lemma OnlyAuthorityResolves(markets: Markets, signer: Address, a: Address, w: u8)
    requires a in markets && signer != markets[a].authority
    ensures ResolveRejection(markets, signer, a, w) == Some(ConstraintAddress)
  {
  }

  /** Resolution never consults the clock: moving the resolution time changes no verdict. */
  lemma ResolveIgnoresResolutionTime(markets: Markets, signer: Address, a: Address, w: u8, t: i64)
    requires a in markets
    ensures ResolveRejection(markets[a := markets[a].(resolutionTime := t)], signer, a, w)
            == ResolveRejection(markets, signer, a, w)
  {
    var m := markets[a];
    MarketLenValue(m.(resolved := true, winningOutcome := Some(w)));
    MarketLenValue(m.(resolutionTime := t).(resolved := true, winningOutcome := Some(w)));
  }

  /**
   * A market whose record already fills its allocation can never be
   * resolved: recording the winning outcome needs one more byte.
   */
  lemma FullMarketNeverResolves(markets: Markets, signer: Address, a: Address, w: u8)
    requires a in markets && markets[a].winningOutcome == None
    requires MarketLen(markets[a]) == MARKET_MAXIMUM_SIZE
    ensures ResolveRejection(markets, signer, a, w) != None
  {
    ResolvingGrowsByOne(markets[a], w);
  }

  /**
   * `initialize_market` accepts such markets: a 225-byte question with one
   * empty outcome fills the allocation exactly.
   */
  lemma FullMarketsAreAccepted(markets: Markets, question: Bytes)
    requires |question| == 225 && MarketAddress(question) !in markets
    ensures InitializeRejection(markets, MarketAddress(question), question, [[]], None) == None
    ensures MarketLen(Market(DefaultKey, question, [[]], 0, 0, false, None, None, 0)) == MARKET_MAXIMUM_SIZE
  {
    var m := Market(DefaultKey, question, [[]], 0, 0, false, None, None, 0);
    MarketLenValue(m);
    assert Lengths([[]]) == [0];
    assert StringsWidth([0]) == 4 + StringsWidth([]);
  }

  /** `place_bet` does not look at `resolved`: resolving a market changes no verdict. */
  lemma PlaceBetIgnoresResolution(markets: Markets, bets: Bets, profiles: Profiles, lamports: Balances,
                                  user: Address, a: Address, profileAddr: Address, betAddr: Address, w: u8,
                                  prediction: u8, amount: u64, now: i64)
    requires a in markets
    ensures PlaceBetRejection(markets[a := markets[a].(resolved := true, winningOutcome := Some(w))],
                              bets, profiles, lamports, user, a, profileAddr, betAddr, prediction, amount, now)
            == PlaceBetRejection(markets, bets, profiles, lamports, user, a, profileAddr, betAddr, prediction, amount, now)
  {
  }

  /**
   * Only the wallet that placed a bet can claim it: the bet address the
   * instruction expects is derived from the signer's key.
   */
  lemma OnlyBettorClaims(markets: Markets, bets: Bets, profiles: Profiles, lamports: Balances,
                         user: Address, marketAddr: Address, betAddr: Address, profileAddr: Address)
    requires Consistent(markets, bets, profiles)
    requires betAddr in bets && bets[betAddr].user != user
    ensures ClaimRejection(markets, bets, profiles, lamports, user, marketAddr, betAddr, profileAddr).Some?
  {
    assert BetOk(markets, profiles, betAddr, bets[betAddr]);
  }

  /**
   * Every account is loaded before any seeds are checked: a signer without a
   * profile is refused as not initialised even when the bet it names was
   * placed by someone else.
   */
  lemma ClaimLoadsAccountsFirst(markets: Markets, bets: Bets, profiles: Profiles, lamports: Balances,
                                user: Address, marketAddr: Address, betAddr: Address)
    requires marketAddr in markets && betAddr in bets
    requires ProfileAddress(user) !in profiles
    ensures ClaimRejection(markets, bets, profiles, lamports, user, marketAddr, betAddr, ProfileAddress(user))
            == Some(AccountNotInitialized)
  {
  }

  /**
   * `initialize_market` creates the market only at the address derived from
   * the question's first 10 bytes; any other account is refused.
   */
  lemma InitializeChecksDerivedAccount(markets: Markets, marketAddr: Address, question: Bytes,
                                       outcomes: seq<Bytes>, oracleSource: Option<Address>)
    requires |question| >= 10 && marketAddr != MarketAddress(question)
    ensures InitializeRejection(markets, marketAddr, question, outcomes, oracleSource) == Some(ConstraintSeeds)
  {
  }

  /**
   * Once all three accounts are loaded, a bet or profile account that is not
   * the one derived from the market and the signer is refused by its seeds.
   */
  lemma ClaimChecksDerivedAccounts(markets: Markets, bets: Bets, profiles: Profiles, lamports: Balances,
                                   user: Address, marketAddr: Address, betAddr: Address, profileAddr: Address)
    requires marketAddr in markets && betAddr in bets && profileAddr in profiles
    requires betAddr != BetAddress(marketAddr, user) || profileAddr != ProfileAddress(user)
    ensures ClaimRejection(markets, bets, profiles, lamports, user, marketAddr, betAddr, profileAddr)
            == Some(ConstraintSeeds)
  {
  }

  /**
   * `place_bet` takes its profile and bet accounts only at their derived
   * addresses; any other account is refused before anything is created.
   */
  lemma PlaceBetChecksDerivedAccounts(markets: Markets, bets: Bets, profiles: Profiles, lamports: Balances,
                                      user: Address, marketAddr: Address, profileAddr: Address, betAddr: Address,
                                      prediction: u8, amount: u64, now: i64)
    requires marketAddr in markets
    requires profileAddr != ProfileAddress(user) || betAddr != BetAddress(marketAddr, user)
    ensures PlaceBetRejection(markets, bets, profiles, lamports, user, marketAddr, profileAddr, betAddr,
                              prediction, amount, now) == Some(ConstraintSeeds)
  {
  }

  /** A resolved market always has its winning outcome, so the claim's `unwrap` never panics. */
  lemma ClaimNeverPanics(markets: Markets, bets: Bets, profiles: Profiles, lamports: Balances,
                         user: Address, marketAddr: Address, betAddr: Address, profileAddr: Address)
    requires Consistent(markets, bets, profiles)
    ensures ClaimRejection(markets, bets, profiles, lamports, user, marketAddr, betAddr, profileAddr) != Some(Panic)
  {
    if marketAddr in markets {
      assert MarketOk(marketAddr, markets[marketAddr]);
    }
  }

  /** A losing claim can only fail a guard: nothing it computes can overflow. */
  lemma LosingClaimCannotOverflow(markets: Markets, bets: Bets, profiles: Profiles, lamports: Balances,
                                  user: Address, marketAddr: Address, betAddr: Address)
    requires Consistent(markets, bets, profiles)
    requires betAddr in bets && bets[betAddr].user == user && bets[betAddr].market == marketAddr
    requires !bets[betAddr].claimed && marketAddr in markets && markets[marketAddr].resolved
    requires !Wins(markets, bets[betAddr])
    ensures ClaimRejection(markets, bets, profiles, lamports, user, marketAddr, betAddr, ProfileAddress(user)) == None
  {
    assert BetOk(markets, profiles, betAddr, bets[betAddr]);
    assert MarketOk(marketAddr, markets[marketAddr]);
  }
}
