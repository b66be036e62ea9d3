/**
 * The client hook that shows a wallet's profile: the streak multiplier, the
 * level derived from XP, and the default profile used when the account
 * cannot be fetched.
 */
module UserProfileHook {
  import opened Wrappers
  import opened State
  import Settlement

  /** The multiplier the client displays for a streak. */
  function Multiplier(streak: int): (r: real)
    ensures 1.0 <= r <= 3.5
  {
    if streak >= 15 then 3.5
    else if streak >= 10 then 3.0
    else if streak >= 5 then 2.0
    else if streak >= 3 then 1.5
    else 1.0
  }

  /** The five tiers, range by range. */
  lemma MultiplierTiers(streak: int)
    ensures streak < 3 ==> Multiplier(streak) == 1.0
    ensures 3 <= streak <= 4 ==> Multiplier(streak) == 1.5
    ensures 5 <= streak <= 9 ==> Multiplier(streak) == 2.0
    ensures 10 <= streak <= 14 ==> Multiplier(streak) == 3.0
    ensures streak >= 15 ==> Multiplier(streak) == 3.5
  {
  }

  /** A longer streak never shows a smaller multiplier. */
  lemma MultiplierMonotone(s: int, t: int)
    requires s <= t
    ensures Multiplier(s) <= Multiplier(t)
  {
  }

  /**
   * Below 15 the displayed multiplier is the one the program pays, in basis
   * points; from 15 on the client shows 3.5 while the program pays 3.0.
   */
  lemma MultiplierAgreesWithProgram(streak: int)
    ensures streak < 15 ==> Multiplier(streak) * 10000.0 == Settlement.MultiplierBps(streak) as real
    ensures streak >= 15 ==> Multiplier(streak) == 3.5 && Settlement.MultiplierBps(streak) == 30000
  {
  }

  /** The integer square root: the largest `r` with `r * r <= n`. */
  function Isqrt(n: nat): (r: nat)
    ensures r * r <= n < (r + 1) * (r + 1)
  {
    if n == 0 then 0
    else
      var s := Isqrt(n - 1);
      if (s + 1) * (s + 1) <= n then s + 1 else s
  }

  /** Every `r` whose square is at most `n` is at most the integer square root of `n`. */
  lemma IsqrtMaximal(n: nat, r: nat)
    requires r * r <= n
    ensures r <= Isqrt(n)
  {
    SquareMonotoneIf(Isqrt(n) + 1, r);
  }

  /** There is only one integer square root. */
  lemma IsqrtUnique(n: nat, r: nat)
    requires r * r <= n < (r + 1) * (r + 1)
    ensures Isqrt(n) == r
  {
    IsqrtMaximal(n, r);
    SquareMonotoneIf(r + 1, Isqrt(n));
  }

  lemma SquareMonotoneIf(a: nat, b: nat)
    ensures a <= b ==> a * a <= b * b
  {
    if a <= b {
      assert a * a <= a * b <= b * b;
    }
  }

  /**
   * The level for an XP total: `floor(sqrt(xp / 100)) + 1`. On a whole,
   * non-negative XP the floor of the real square root is the integer square
   * root of `xp div 100`.
   */
  function Level(xp: nat): nat {
    Isqrt(xp / 100) + 1
  }

  /** `Level(xp) - 1` is the floor of the square root of the real quotient `xp / 100`. */
  lemma LevelIsFloorSqrt(xp: nat)
    ensures var n := Level(xp) - 1;
            (n * n) as real <= xp as real / 100.0 < ((n + 1) * (n + 1)) as real
  {
    var n := Level(xp) - 1;
    var q := xp / 100;
    assert n * n <= q < (n + 1) * (n + 1);
    assert 100 * q <= xp < 100 * q + 100;
    assert (n * n) as real <= q as real;
    assert ((n + 1) * (n + 1)) as real >= q as real + 1.0;
  }

  /** Level `n + 1` covers exactly the XP totals from `100·n²` up to but excluding `100·(n+1)²`. */
  lemma LevelRange(xp: nat, n: nat)
    ensures Level(xp) == n + 1 <==> 100 * (n * n) <= xp < 100 * ((n + 1) * (n + 1))
  {
    var q := xp / 100;
    if 100 * (n * n) <= xp < 100 * ((n + 1) * (n + 1)) {
      assert n * n <= q < (n + 1) * (n + 1);
      IsqrtUnique(q, n);
    }
  }

  /** Every XP total has level at least 1, and more XP never lowers the level. */
  lemma LevelMonotone(x: nat, y: nat)
    requires x <= y
    ensures 1 <= Level(x) <= Level(y)
  {
    var p := Isqrt(x / 100);
    assert p * p <= x / 100 <= y / 100;
    IsqrtMaximal(y / 100, p);
  }

  /**
   * The profile the client holds. The on-chain account has no XP or
   * insurance fields, so for a fetched account these read as JavaScript's
   * `NaN`/`undefined`, modelled as `None`.
   */
  datatype ClientProfile = ClientProfile(
    authority: Address,
    totalBets: nat,
    totalWins: nat,
    currentStreak: nat,
    longestStreak: nat,
    totalXp: Option<nat>,
    hasInsurance: Option<bool>,
    insuranceExpiry: Option<nat>)

  /** The profile used when the wallet has no profile account yet. */
  function DefaultProfile(wallet: Address): (p: ClientProfile)
    ensures p.authority == wallet && p.totalXp == Some(0)
    ensures p.totalBets == p.totalWins == p.currentStreak == p.longestStreak == 0
    ensures p.hasInsurance == Some(false) && p.insuranceExpiry == Some(0)
  {
    ClientProfile(wallet, 0, 0, 0, 0, Some(0), Some(false), Some(0))
  }

  /** The profile read from the on-chain account. */
  function FromAccount(a: UserProfile): (p: ClientProfile)
    ensures p.authority == a.authority && p.totalBets == a.totalBets && p.totalWins == a.totalWins
    ensures p.currentStreak == a.currentStreak && p.longestStreak == a.longestStreak
    ensures p.totalXp == None && p.hasInsurance == None && p.insuranceExpiry == None
  {
    ClientProfile(a.authority, a.totalBets, a.totalWins, a.currentStreak, a.longestStreak, None, None, None)
  }

  /** The level the hook returns: 1 without a profile; `None` where the XP is `NaN`. */
  function ShownLevel(profile: Option<ClientProfile>): Option<nat> {
    match profile
    case None => Some(1)
    case Some(p) => if p.totalXp.Some? then Some(Level(p.totalXp.value)) else None
  }

  /** The multiplier the hook returns: 1.0 without a profile. */
  function ShownMultiplier(profile: Option<ClientProfile>): real {
    match profile
    case None => 1.0
    case Some(p) => Multiplier(p.currentStreak)
  }

  /** The default profile shows level 1 and multiplier 1.0, the same as no profile at all. */
  lemma DefaultProfileShowsBaseline(wallet: Address)
    ensures ShownLevel(Some(DefaultProfile(wallet))) == ShownLevel(None) == Some(1)
    ensures ShownMultiplier(Some(DefaultProfile(wallet))) == ShownMultiplier(None) == 1.0
  {
    assert Isqrt(0) == 0;
  }

  /** A fetched account's multiplier follows its current streak, the one the program pays on. */
  lemma FetchedMultiplier(a: UserProfile)
    ensures a.currentStreak < 15 ==>
              ShownMultiplier(Some(FromAccount(a))) * 10000.0
              == Settlement.MultiplierBps(a.currentStreak) as real
    ensures ShownLevel(Some(FromAccount(a))) == None
  {
    MultiplierAgreesWithProgram(a.currentStreak);
  }

  /** The hook's state: the profile shown and whether a fetch is in flight. */
  class ProfileHook {
    var profile: Option<ClientProfile>
    var loading: bool

    constructor ()
      ensures profile == None && !loading
    {
      profile := None;
      loading := false;
    }

    /**
     * Fetch the wallet's profile. Without a wallet or a program the profile
     * is cleared and `loading` is not touched. Otherwise the profile address
     * is derived first: `derived` says whether the hook's PDA helper returned
     * one. When it does not, the outer `catch` only logs and the profile
     * stays as it was. When it does, the fetched account (`None` when the
     * fetch throws) or the default profile is stored. Either way `loading`
     * ends false.
     */
    method FetchProfile(wallet: Option<Address>, programReady: bool, derived: bool,
                        account: Option<UserProfile>)
      modifies this
      ensures wallet.None? || !programReady ==> profile == None && loading == old(loading)
      ensures wallet.Some? && programReady && !derived ==> !loading && profile == old(profile)
      ensures wallet.Some? && programReady && derived ==>
                && !loading
                && profile == Some(if account.Some? then FromAccount(account.value)
                                   else DefaultProfile(wallet.value))
    {
      if wallet.None? || !programReady {
        profile := None;
        return;
      }
      loading := true;
      if derived {
        if account.Some? {
          profile := Some(FromAccount(account.value));
        } else {
          profile := Some(DefaultProfile(wallet.value));
        }
      }
      loading := false;
    }
  }
}
