# solana-streaks in Dafny

A model of the settlement core of solana-streaks, a prediction market on
Solana whose winners are paid more the longer their winning streak, and of
the client-side rules that sit around it.

The on-chain program (an Anchor program in Rust) is modelled as the class
`Program.Chain`. The class holds:

- the three account kinds (`Market`, `Bet`, `UserProfile`) as maps from
  addresses to records;
- a map of lamport balances.

Each of the four instructions (`initialize_market`, `place_bet`,
`resolve_market`, `claim_winnings`) is an all-or-nothing method:

- a pure function lists its checks in the order the program runs them and
  names the first one that fails;
- on a failure the method returns that error and changes nothing;
- otherwise the method states the whole new state.

Every method keeps one invariant, `Invariant.Consistent`:

- a market's `total_pool` is the sum of the bets placed on it;
- `resolved` holds exactly when `winning_outcome` is set, and a set outcome
  names an existing answer;
- every bet sits at the address derived from its market and its user;
- every bet's user has a profile whose `total_bets` counts that user's bets;
- `total_wins` counts the user's claimed winning bets;
- `current_streak <= longest_streak <= total_wins`.

Lamports are conserved by every instruction.

Program-derived addresses are the injective constructor
`State.Address.Derived(seeds)`. Checked arithmetic aborts on `u64`/`u32`
overflow. The Borsh layouts of the records are written out, so the
allocated sizes and the byte offsets the client filters on are proved. One
consequence is proved too:

- resolving a market grows its record by one byte;
- so a market whose record fills its 297 bytes at creation is accepted by
  `initialize_market` and can never be resolved (`FullMarketsAreAccepted`,
  `FullMarketNeverResolves`).

The client-side rules are modelled in the form their code takes:

- the profile hook's level and multiplier formulas, and its fetch with the
  default profile;
- the outcome-list editor of the market creation form, as a class over a
  `seq`;
- the retry loops with exponential backoff. The attempts' outcomes are a
  function of the attempt number, and the sleeps are returned as a list;
- the achievements client, as classes over shared `Achievement` objects;
- the pending-winnings and history panels, as loops over the fetched bets,
  with the history sorted in place in an array;
- the resolution panel's guard, request, error text and countdown.

Each client rule is connected to the chain model. For example:

- every bet the claim panel lists passes `claim_winnings`' checks;
- the history's labels agree with what a claim would do;
- whatever the resolution panel offers passes the chain's authority and
  resolved checks.

Where the code and the project's written design disagree, the model follows
the code:

- there is no fee split, no insurance and no XP on chain;
- the chain's multiplier stops at 3.0x (the client shows 3.5x from a streak
  of 15);
- the payout is a fixed 2x, 3x, 4x or 6x of the stake, capped at the
  market's balance, not a share of the pool;
- a losing claim also sets `claimed`;
- `resolve_market` does not look at the clock;
- `place_bet` does not check `resolved`.

## Model

| member | source | states |
|---|---|---|
| State.BetSizeIsLayout | solana-streaks/programs/solana-streaks/src/state/mod.rs:38-51 | `Bet::SIZE` (91) is the 8-byte discriminator plus the Borsh widths of the seven `Bet` fields |
| State.ProfileSizeIsLayout | solana-streaks/programs/solana-streaks/src/state/mod.rs:23-36 | `UserProfile::SIZE` (73) is the discriminator plus the widths of its seven fields |
| State.BetUserOffset | solana-streaks/programs/solana-streaks/src/state/mod.rs:39-41 | `Bet.user` is a public key starting at byte 8 + 32 of the account |
| State.MarketLenValue | solana-streaks/programs/solana-streaks/src/state/mod.rs:4-14 | a market record takes 8 + 32 + (4 + question) + (4 + Σ(4 + outcome)) + 8 + 8 + 1 + (1 or 2) + (1 or 33) + 1 bytes |
| State.MarketWithinBudget | solana-streaks/programs/solana-streaks/src/state/mod.rs:16-21 | a question of at most 100 bytes with at most four outcomes of at most 20 bytes fits `MAXIMUM_SIZE`, resolved or not, with or without an oracle |
| State.ResolvingGrowsByOne | solana-streaks/programs/solana-streaks/src/state/mod.rs:11 | setting `winning_outcome` from `None` to `Some` grows the record by exactly one byte |
| State.MarketAddressCollision | solana-streaks/programs/solana-streaks/src/instructions/initialize_market.rs:12 | two questions give the same market address exactly when their first 10 bytes agree |
| State.BetAddressInjective | solana-streaks/programs/solana-streaks/src/instructions/place_bet.rs:21-28 | the bet address determines its market and its user, and is determined by them |
| State.AddressKindsDisjoint | solana-streaks/programs/solana-streaks/src/instructions/place_bet.rs:12-28 | market, profile and bet addresses never coincide |
| Lamports.Move | solana-streaks/programs/solana-streaks/src/instructions/place_bet.rs:48-57 | a transfer debits the payer and credits the payee by the amount and leaves every other balance alone |
| Lamports.MoveConserves | solana-streaks/programs/solana-streaks/src/instructions/claim_winnings.rs:105-114 | a transfer between two accounts conserves the total number of lamports |
| Settlement.WinPayout | solana-streaks/programs/solana-streaks/src/instructions/claim_winnings.rs:83-103 | the payout is `amount × PayoutFactor(streak)` when the checked products fit `u64` (including the discarded `reward_bonus`), otherwise the claim aborts with an overflow |
| Settlement.MultiplierTiers | solana-streaks/programs/solana-streaks/src/instructions/claim_winnings.rs:61-68 | `multiplier_bps` is 10000, 15000, 20000 or 30000 exactly on streaks below 3, 3–4, 5–9 and from 10 |
| Settlement.MultiplierMonotone | solana-streaks/programs/solana-streaks/src/instructions/claim_winnings.rs:61-68 | a longer streak never gets a smaller multiplier |
| Settlement.PayoutFactorMatchesBps | solana-streaks/programs/solana-streaks/src/instructions/claim_winnings.rs:99-103 | the payout factor is exactly `2 × multiplier_bps / 10000`: 2, 3, 4 or 6 times the stake, with no rounding |
| Invariant.WinsAtMostBets | solana-streaks/programs/solana-streaks/src/instructions/claim_winnings.rs:43 | on a consistent chain no user has more wins than bets |
| Invariant.PoolWithoutBets | solana-streaks/programs/solana-streaks/src/instructions/initialize_market.rs:35 | a market nobody has bet on has a pool of zero, so a new market's `total_pool = 0` is consistent |
| Invariant.InitializeKeeps | solana-streaks/programs/solana-streaks/src/instructions/initialize_market.rs:30-39 | adding a well-formed market with an empty pool at a free address keeps the invariant |
| Invariant.InitializeKeepsProfiles | solana-streaks/programs/solana-streaks/src/instructions/initialize_market.rs:30-39 | a new market changes no user's bet or win count |
| Invariant.ResolveKeeps | solana-streaks/programs/solana-streaks/src/instructions/resolve_market.rs:17-21 | resolving an unresolved market to an existing outcome within its allocation keeps the invariant |
| Invariant.ResolveKeepsProfiles | solana-streaks/programs/solana-streaks/src/instructions/resolve_market.rs:20-21 | resolving changes no win count, because only claimed bets count as wins and an unresolved market has none |
| Invariant.PlaceBetKeeps | solana-streaks/programs/solana-streaks/src/instructions/place_bet.rs:59-76 | a new bet with the pool grown by its stake and its user's profile counting one more bet keeps the invariant |
| Invariant.PlaceBetKeepsMarkets | solana-streaks/programs/solana-streaks/src/instructions/place_bet.rs:59 | after `total_pool += amount`, each pool is still the sum of its bets |
| Invariant.PlaceBetKeepsBets | solana-streaks/programs/solana-streaks/src/instructions/place_bet.rs:70-76 | the new bet and all earlier ones stay at their derived addresses, with profiles and valid predictions |
| Invariant.PlaceBetCounts | solana-streaks/programs/solana-streaks/src/instructions/place_bet.rs:66 | the new bet counts as one more bet for its user only and adds no win |
| Invariant.NoProfileNoBets | solana-streaks/programs/solana-streaks/src/instructions/place_bet.rs:62-65 | a user without a profile has no bets and no wins, which is why a freshly allocated zero profile is correct |
| Invariant.PlaceBetKeepsProfiles | solana-streaks/programs/solana-streaks/src/instructions/place_bet.rs:62-67 | every profile still counts its user's bets and wins after a bet |
| Invariant.ClaimKeeps | solana-streaks/programs/solana-streaks/src/instructions/claim_winnings.rs:41-47 | settling a bet and updating its owner's streaks, on a win or on a loss, keeps the invariant |
| Invariant.ClaimKeepsMarkets | solana-streaks/programs/solana-streaks/src/instructions/claim_winnings.rs:122 | setting `claimed` changes no pool |
| Invariant.ClaimKeepsBets | solana-streaks/programs/solana-streaks/src/instructions/claim_winnings.rs:122 | a claimed bet still satisfies the bet invariant, because its market is resolved |
| Invariant.ClaimCounts | solana-streaks/programs/solana-streaks/src/instructions/claim_winnings.rs:41-43 | settling a bet keeps every bet count and adds one win to its owner exactly when the bet won |
| Invariant.ClaimKeepsProfiles | solana-streaks/programs/solana-streaks/src/instructions/claim_winnings.rs:116-120 | after a claim every profile's counters and `current_streak <= longest_streak <= total_wins` still hold |
| Program.PlaceBetPreserves | solana-streaks/programs/solana-streaks/src/instructions/place_bet.rs:40-76 | a `place_bet` that passes its checks keeps the invariant on exactly the state the handler writes |
| Program.ClaimPreserves | solana-streaks/programs/solana-streaks/src/instructions/claim_winnings.rs:36-122 | a `claim_winnings` that passes its checks keeps the invariant on exactly the state the handler writes |
| Program.Chain.constructor | solana-streaks/programs/solana-streaks/src/lib.rs:11-43 | the program starts with no markets, bets or profiles, which is consistent |
| Program.Chain.InitializeMarket | solana-streaks/programs/solana-streaks/src/instructions/initialize_market.rs:8-42 | fails with a panic for a question under 10 bytes, with a seeds violation for a market account not derived from the question's first 10 bytes, with account-in-use at a taken address, or when the record does not fit; otherwise it stores the signer as authority and the arguments as given, with an empty pool, unresolved and no winner, and changes nothing else |
| Program.Chain.ResolveMarket | solana-streaks/programs/solana-streaks/src/instructions/resolve_market.rs:5-23 | fails unless the signer is the authority, then with `MarketResolved`, then with `InvalidOutcome`, then when the grown record does not fit; otherwise sets only `resolved` and `winning_outcome`, after which a further resolution by the authority fails with `MarketResolved` (any other signer still fails the address constraint first) |
| Program.Chain.PlaceBet | solana-streaks/programs/solana-streaks/src/instructions/place_bet.rs:8-79 | checks, in order: a missing market, a profile or bet account not at its derived address, a second bet on the market, `MarketExpired`, `InvalidOutcome`, `InsufficientFunds`, the user's balance and overflows. On success it moves exactly `amount` lamports from the user to the market (the rent deposits of the new accounts are not modelled, see "Rent" below), grows the pool, counts one more bet on the profile (authority and bump set only on its first bet), records the bet unclaimed and stamped `now`, and makes any further bet by the same user on that market fail; lamports are conserved |
| Program.Chain.ClaimWinnings | solana-streaks/programs/solana-streaks/src/instructions/claim_winnings.rs:6-125 | fails, in order, for a missing market, bet or profile account, for a bet and then a profile account not derived from (market, signer), then for `MarketNotResolved`, `BetAlreadyClaimed` or an overflow. A win adds a win, extends the streak and its maximum, and pays `min(payout, market balance)` from the market. A loss resets the streak and moves nothing. Both set `claimed`, after which the claim fails with `BetAlreadyClaimed`; lamports are conserved |
| Program.InitializeWithinBudget | solana-streaks/programs/solana-streaks/src/instructions/initialize_market.rs:23-42 | the handler validates nothing: any outcome list within the size budget, even an empty one, and any resolution time is accepted at a free address |
| Program.QuestionPrefixCollides | solana-streaks/programs/solana-streaks/src/instructions/initialize_market.rs:12 | a question sharing its first 10 bytes with an existing market's question is refused as account-in-use |
| Program.OnlyAuthorityResolves | solana-streaks/programs/solana-streaks/src/instructions/resolve_market.rs:10 | any signer other than the market's authority fails the address constraint |
| Program.ResolveIgnoresResolutionTime | solana-streaks/programs/solana-streaks/src/instructions/resolve_market.rs:14-23 | changing a market's resolution time changes no resolution verdict |
| Program.FullMarketNeverResolves | solana-streaks/programs/solana-streaks/src/instructions/resolve_market.rs:20-21 | an unresolved market whose record fills its allocation can never be resolved |
| Program.FullMarketsAreAccepted | solana-streaks/programs/solana-streaks/src/instructions/initialize_market.rs:8-15 | `initialize_market` accepts a market that fills its allocation exactly (a 225-byte question, one empty outcome) |
| Program.PlaceBetIgnoresResolution | solana-streaks/programs/solana-streaks/src/instructions/place_bet.rs:40-42 | resolving a market changes no `place_bet` verdict: bets are still accepted on a resolved market before its resolution time |
| Program.OnlyBettorClaims | solana-streaks/programs/solana-streaks/src/instructions/claim_winnings.rs:11-15 | on a consistent chain a signer can never claim another user's bet |
| Program.ClaimNeverPanics | solana-streaks/programs/solana-streaks/src/instructions/claim_winnings.rs:39 | on a consistent chain the `unwrap` of the winning outcome never fails |
| Program.InitializeChecksDerivedAccount | solana-streaks/programs/solana-streaks/src/instructions/initialize_market.rs:8-14 | a market account other than the one derived from the question's first 10 bytes is refused by its seeds |
| Program.ClaimLoadsAccountsFirst | solana-streaks/programs/solana-streaks/src/instructions/claim_winnings.rs:8-23 | a signer without a profile is refused as not initialised, even when the bet it names belongs to someone else: every account is loaded before any seeds are checked |
| Program.ClaimChecksDerivedAccounts | solana-streaks/programs/solana-streaks/src/instructions/claim_winnings.rs:11-23 | once all accounts are loaded, a bet or profile account other than the one derived from the market and the signer is refused by its seeds |
| Program.PlaceBetChecksDerivedAccounts | solana-streaks/programs/solana-streaks/src/instructions/place_bet.rs:12-28 | a profile or bet account other than the one derived from the signer (and the market) is refused by its seeds |
| Program.LosingClaimCannotOverflow | solana-streaks/programs/solana-streaks/src/instructions/claim_winnings.rs:116-120 | the owner's claim of an unclaimed losing bet on a resolved market always succeeds |
| UserProfileHook.Multiplier | solana-streaks/app/app/hooks/useUserProfile.ts:78-84 | the displayed multiplier lies between 1.0 and 3.5 |
| UserProfileHook.MultiplierTiers | solana-streaks/app/app/hooks/useUserProfile.ts:78-84 | streaks below 3, 3–4, 5–9, 10–14 and from 15 show 1.0, 1.5, 2.0, 3.0 and 3.5 |
| UserProfileHook.MultiplierMonotone | solana-streaks/app/app/hooks/useUserProfile.ts:78-84 | a longer streak never shows a smaller multiplier |
| UserProfileHook.MultiplierAgreesWithProgram | solana-streaks/app/app/hooks/useUserProfile.ts:78-84 | below 15 the displayed multiplier times 10000 is the program's `multiplier_bps`; from 15 the client shows 3.5 while the program pays 3.0 |
| UserProfileHook.IsqrtMaximal | solana-streaks/app/app/hooks/useUserProfile.ts:74-76 | the integer square root is the largest `r` with `r² <= n` |
| UserProfileHook.IsqrtUnique | solana-streaks/app/app/hooks/useUserProfile.ts:74-76 | the integer square root is the only `r` with `r² <= n < (r+1)²` |
| UserProfileHook.LevelIsFloorSqrt | solana-streaks/app/app/hooks/useUserProfile.ts:74-76 | `Level(xp) - 1` is the floor of the square root of the real quotient `xp / 100` |
| UserProfileHook.LevelRange | solana-streaks/app/app/hooks/useUserProfile.ts:74-76 | the level is `n + 1` exactly when `100·n² <= xp < 100·(n+1)²` |
| UserProfileHook.LevelMonotone | solana-streaks/app/app/hooks/useUserProfile.ts:74-76 | the level is at least 1 and never drops as XP grows |
| UserProfileHook.DefaultProfile | solana-streaks/app/app/hooks/useUserProfile.ts:52-61 | the fallback profile belongs to the wallet and has zero counters, zero XP and no insurance |
| UserProfileHook.FromAccount | solana-streaks/app/app/hooks/useUserProfile.ts:39-48 | a fetched profile carries the account's counters; its XP and insurance fields are absent |
| UserProfileHook.DefaultProfileShowsBaseline | solana-streaks/app/app/hooks/useUserProfile.ts:86-91 | the fallback profile shows level 1 and multiplier 1.0, the same as no profile |
| UserProfileHook.FetchedMultiplier | solana-streaks/app/app/hooks/useUserProfile.ts:90-91 | a fetched profile's multiplier follows the streak the program pays on, and its level is not a number |
| UserProfileHook.ProfileHook.constructor | solana-streaks/app/app/hooks/useUserProfile.ts:22-23 | the hook starts with no profile and not loading |
| UserProfileHook.ProfileHook.FetchProfile | solana-streaks/app/app/hooks/useUserProfile.ts:25-68 | without a wallet or program the profile is cleared; when the profile address cannot be derived the profile is left as it was; otherwise the fetched account or, when the fetch throws, the default profile is stored; loading ends false in both of the last two cases |
| CreateMarketForm.WithoutIndex | solana-streaks/app/app/create/page.tsx:30 | filtering out index `i` removes exactly element `i` and keeps the order of the rest; an index naming no element removes nothing |
| CreateMarketForm.OutcomeEditor.constructor | solana-streaks/app/app/create/page.tsx:12 | the list starts as two empty answers |
| CreateMarketForm.OutcomeEditor.AddOutcome | solana-streaks/app/app/create/page.tsx:16-20 | appends an empty answer below six answers, otherwise changes nothing; the list keeps 2 to 6 entries |
| CreateMarketForm.OutcomeEditor.UpdateOutcome | solana-streaks/app/app/create/page.tsx:22-26 | changes only the entry at the index and keeps the length |
| CreateMarketForm.OutcomeEditor.RemoveOutcome | solana-streaks/app/app/create/page.tsx:28-32 | above two answers removes exactly the entry at the index, keeping the order; at two changes nothing |
| CreateMarketForm.FormMaximumOutgrowsAllocation | solana-streaks/app/app/create/page.tsx:16-20 | six outcomes, the form's cap, at the 20 bytes each that the program's size estimate assumes, with a 100-byte question, make a record `initialize_market` refuses to write; the form itself sets no length limit and never submits |
| TransactionRetry.Merge | solana-streaks/app/lib/transactionRetry.ts:14-35 | each option given by the caller overrides its default; the defaults are 3 retries, 1000 ms, 10000 ms and ×2 |
| TransactionRetry.Lower | solana-streaks/app/lib/transactionRetry.ts:96 | lower-casing keeps the length and maps each character |
| TransactionRetry.NonRetryableIgnoresCase | solana-streaks/app/lib/transactionRetry.ts:95-111 | classifying a message gives the same answer as classifying its lower-cased form |
| TransactionRetry.PatternMakesFinal | solana-streaks/app/lib/transactionRetry.ts:99-111 | a message containing any of the nine patterns anywhere, in any letter case, is not retried |
| TransactionRetry.SendTransactionWithRetry | solana-streaks/app/lib/transactionRetry.ts:29-90 | at most `maxRetries + 1` attempts; sleep `k` is `min(initialDelay·multiplier^k, maxDelay)`; every attempt before the last failed retryably; the first success returns its signature; a non-retryable error is rethrown at once; on exhaustion it fails with "Transaction failed after N attempts: message"; a confirmation with an error counts as a failed attempt |
| TransactionRetry.RetryOperation | solana-streaks/app/lib/transactionRetry.ts:124-148 | the same schedule, but every error is retried and the last one is rethrown unchanged |
| TransactionRetry.DelayIsGeometric | solana-streaks/app/lib/transactionRetry.ts:83-84 | after `k` failed attempts `delay` is `initialDelay · multiplier^k` |
| TransactionRetry.DefaultSchedule | solana-streaks/app/lib/transactionRetry.ts:14-19 | with no options there are at most four attempts, with pauses of 1, 2 and 4 seconds |
| TransactionRetry.BackoffCapped | solana-streaks/app/lib/transactionRetry.ts:83 | no pause exceeds the maximum delay |
| TransactionRetry.BackoffGrows | solana-streaks/app/lib/transactionRetry.ts:83-84 | with a multiplier of at least 1 the pauses never shrink |
| PlaySolana.Achievement.constructor | solana-streaks/solana-streaks/app/lib/playSolana.ts:4-10 | a new achievement carries its id, title, description and reward, not completed |
| PlaySolana.Find | solana-streaks/solana-streaks/app/lib/playSolana.ts:23-24 | the lookup returns the last entry carrying the requested id, as a `Map` built from the list keeps it, or reports that no entry has it |
| PlaySolana.PlaySolanaClient.constructor | solana-streaks/solana-streaks/app/lib/playSolana.ts:23-25 | the client's `Map` holds the very objects of the catalogue |
| PlaySolana.PlaySolanaClient.TriggerEvent | solana-streaks/solana-streaks/app/lib/playSolana.ts:34-60 | "place_bet" completes `first_bet` and "streak_update" with a streak of at least 3 completes `heating_up`, each reported only the first time; other events, `on_fire` and `whale` are untouched, and no flag goes back to false |
| PlaySolana.PlaySolanaClient.GetAchievements | solana-streaks/solana-streaks/app/lib/playSolana.ts:62-64 | returns the four achievements in declaration order |
| PlaySolana.PlaySolanaModule.constructor | solana-streaks/solana-streaks/app/lib/playSolana.ts:12-17 | the exported catalogue is four new, uncompleted achievements and no client exists yet |
| PlaySolana.PlaySolanaModule.GetInstance | solana-streaks/solana-streaks/app/lib/playSolana.ts:27-32 | the first call creates the client, later calls return the same one, and it shares the catalogue's objects |
| PlaySolana.GetInstanceTwice | solana-streaks/solana-streaks/app/lib/playSolana.ts:67 | two calls in a row return the same client |
| ClaimWinningsView.OwnerFilter | solana-streaks/app/app/components/ClaimWinnings.tsx:42-49 | the query filters on the wallet's key at the byte offset of `Bet.user` |
| ClaimWinningsView.PendingAppend | solana-streaks/app/app/components/ClaimWinnings.tsx:53-76 | each bet is judged on its own: the listing of two batches is the two listings in order |
| ClaimWinningsView.PendingMembers | solana-streaks/app/app/components/ClaimWinnings.tsx:59-62 | an entry is listed exactly when its market was fetched, is resolved with a winning outcome equal to the prediction, and the bet is unclaimed |
| ClaimWinningsView.SkipsFailedFetches | solana-streaks/app/app/components/ClaimWinnings.tsx:73-75 | a bet whose market fetch throws is skipped and the others are listed as before |
| ClaimWinningsView.FetchPendingWinnings | solana-streaks/app/app/components/ClaimWinnings.tsx:51-76 | the loop builds exactly the in-order listing of the pending bets |
| ClaimWinningsView.TotalIsSum | solana-streaks/app/app/components/ClaimWinnings.tsx:181 | the displayed total is the sum of the listed amounts |
| ClaimWinningsView.ListedBetIsClaimable | solana-streaks/app/app/components/ClaimWinnings.tsx:59-62 | on a consistent chain every listed bet won, and its owner's claim can fail only by arithmetic overflow |
| TransactionHistoryView.ClassifyCases | solana-streaks/app/app/components/TransactionHistory.tsx:55-65 | active exactly while the market is unresolved; once resolved, a claimed bet is claimed whatever it predicted, and an unclaimed one is won or lost by its prediction |
| TransactionHistoryView.WonIffPending | solana-streaks/app/app/components/TransactionHistory.tsx:60-61 | "won" is shown exactly for the bets the claim panel lists |
| TransactionHistoryView.StatusMatchesClaim | solana-streaks/app/app/components/TransactionHistory.tsx:55-65 | on a consistent chain the label predicts the owner's claim: active gives `MarketNotResolved`, claimed gives `BetAlreadyClaimed`, lost settles as a loss, won pays unless arithmetic overflows |
| TransactionHistoryView.CollectHistory | solana-streaks/app/app/components/TransactionHistory.tsx:48-79 | the loop builds one labelled entry per bet whose market was fetched, in fetch order |
| TransactionHistoryView.InsertNewestFirst | solana-streaks/app/app/components/TransactionHistory.tsx:82 | moving one entry left past older ones extends the sorted prefix and permutes the array |
| TransactionHistoryView.SortNewestFirst | solana-streaks/app/app/components/TransactionHistory.tsx:82 | the in-place sort leaves the entries newest first and is a permutation |
| TransactionHistoryView.FetchHistory | solana-streaks/app/app/components/TransactionHistory.tsx:39-83 | the history is a permutation of the collected entries, sorted by timestamp descending |
| MarketResolutionView.CanResolveIff | solana-streaks/app/app/components/MarketResolution.tsx:33-34 | resolution is offered exactly to the authority's wallet, on an unresolved market, once the millisecond clock reaches `resolutionTime × 1000` |
| MarketResolutionView.OfferedResolutionPassesChecks | solana-streaks/app/app/components/MarketResolution.tsx:33-34 | an offered resolution passes the chain's authority and already-resolved checks; only the outcome index or the record size can refuse it |
| MarketResolutionView.EarlyResolutionWithheld | solana-streaks/app/app/components/MarketResolution.tsx:34 | before the resolution time the panel withholds a resolution the chain would accept |
| MarketResolutionView.HandleResolve | solana-streaks/app/app/components/MarketResolution.tsx:36-49 | a request is sent exactly when a wallet, a program and a selected outcome are all present, naming the market, the wallet as authority and the outcome |
| MarketResolutionView.ResolveErrorText | solana-streaks/app/app/components/MarketResolution.tsx:71-78 | an error without a message gives the generic text |
| MarketResolutionView.AlreadyResolvedExplained | solana-streaks/app/app/components/MarketResolution.tsx:72-73 | an error carrying the program's `MarketResolved` message is explained as "Market already resolved" |
| MarketResolutionView.CountdownBrackets | solana-streaks/app/app/components/MarketResolution.tsx:120-122 | hours and minutes are never negative and minutes are at most 59; before the deadline `3600·h + 60·m <= t < 3600·h + 60·m + 60`; after it both are 0 |
| MarketResolutionView.ResolvedMarketShowsWinner | solana-streaks/app/app/components/MarketResolution.tsx:102 | on a consistent chain a resolved market shows the text of its winning outcome, never "N/A" |

## Left out

- Rent: minimum balances and the removal of accounts left at zero lamports are not modelled. A winner paid the market's whole balance empties the market account.
- Rent deposits: `init` and `init_if_needed` make the payer fund each new account. `place_bet` therefore also takes from the user the rent of the 91-byte bet account and, on a first bet, of the 73-byte profile; `initialize_market` takes from the authority the rent of the 297-byte market account, which then sits in the market balance that claims draw on. The model moves only the bet `amount` and starts new accounts at the balance they already had.
- Program.Chain.PlaceBet: "exactly `amount` lamports from the user" leaves out the rent deposits named on the line above.
- UTF-8: Borsh refuses a `String` that is not valid UTF-8 before the handler runs. Questions and outcomes are modelled as any byte sequence, so the model accepts instructions the program refuses at deserialization.
- Overflow: `u64` and `u32` overflow is modelled as an aborting transaction. This matches Anchor's default `overflow-checks = true`; `Cargo.toml` is not part of this model.
- Signers: every signer is a wallet. Cross-program signers and the system program's own checks beyond balances are not modelled.
- Address derivation: the SHA-256 hash and the off-curve bump search are not modelled. Addresses are an injective constructor of the seed list, so collisions that need a concatenation of seeds to coincide do not arise. The canonical bump is an arbitrary function of the seeds.
- Concurrency: the runtime serialises transactions, so each instruction is one atomic step.
- UserProfileHook.ShownLevel: the on-chain profile has no XP field, so the fetched profile's XP is JavaScript's `NaN`; the model says "no level" (`None`) instead of carrying a `NaN` through `Math.sqrt`.
- UserProfileHook.Level: `Math.sqrt` on floating point is modelled as the exact integer square root; the two agree while the XP is a whole number.
- UserProfileHook.ProfileHook.FetchProfile: whether the PDA helper derives the profile address is an input (`derived`). The repository's `useProgram` (app/app/hooks/useProgram.ts:43) returns only `program` and `provider`, so `getPDAs` is undefined and the derivation throws on every call that has a wallet and a program. With that hook, every fetch takes the `derived == false` branch and leaves the profile as it was: `None` from the start. The logging is left out, and `Number()` of a `u64` counter is taken as exact.
- CreateMarketForm.OutcomeEditor.UpdateOutcome: requires an index inside the list. The page only calls it for rendered entries; an out-of-range assignment in JavaScript would lengthen the list and leave holes.
- TransactionRetry.Lower: lower-cases ASCII letters only; JavaScript's `toLowerCase` also folds other scripts.
- TransactionRetry.SendTransactionWithRetry: the confirmation error is taken as the text `JSON.stringify` produced. A thrown value without a `message` is not modelled. The toasts and the sleeps themselves are left out; the sleeps are returned as a list.
- TransactionRetry.Merge: options are integers and an absent key takes the default. The TypeScript options are `number`, so a fractional or `NaN` value is not modelled, and a key passed explicitly as `undefined` is copied by the spread over the default rather than dropped.
- TransactionRetry.SendTransactionWithRetry: integer options only. A fractional `backoffMultiplier` such as 1.5 gives fractional pauses the model cannot express. A fractional or `NaN` `maxRetries` never equals `attempt`, so the loop ends without the "Transaction failed after N attempts" message and rethrows the raw last error; that exit is not modelled. An option passed as `undefined` is treated as absent, as under Merge.
- TransactionRetry.RetryOperation: the same integer-only options as SendTransactionWithRetry, with the same unmodelled exit for a fractional or `NaN` `maxRetries`; options passed explicitly as `undefined` are treated as absent, whereas in JavaScript the spread would copy the `undefined`.
- PlaySolana.PlaySolanaClient.TriggerEvent: the simulated 500 ms delay and the logging are left out; the event's `data` is reduced to its optional `streak`.
- ClaimWinningsView.FetchPendingWinnings: the account query and the market fetches are inputs (a list of fetched rows, a market or a failure each). `Number()` of a `u64` amount is taken as exact. The outer `catch` and the loading flag are not modelled.
- TransactionHistoryView.SortNewestFirst: JavaScript's sort is stable; stability is not proved, only order and permutation.
- TransactionHistoryView.FetchHistory: inherits the gap of SortNewestFirst, so the order among entries with equal timestamps is not stated. The bet query is an input (`allBets`), so its failure path is not modelled: there the outer `catch` only logs and `history` stays as it was. The `loading` flag set around the fetch and cleared in `finally` is not modelled. `Number()` of the `u64` amount and the `i64` timestamp is taken as exact.
- MarketResolutionView.CountdownBrackets: the countdown is computed on exact reals, not double-precision numbers.
- MarketResolutionView.HandleResolve: the `resolving` flag, the toasts and the `onResolved` callback are left out.
- MarketResolutionView.ResolveErrorText: only the `MarketResolved` message is traced to its text. The chain refuses a non-creator with an address-constraint error, whose message does not contain "unauthorized", and no program error mentions "too early".
- Display code: pages, animations, the mock data, fees, insurance and XP tables are not modelled, as no program code implements them.
