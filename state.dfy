/**
 * The account records of the on-chain program (Market, UserProfile, Bet),
 * their integer widths, their Borsh layouts and allocated sizes, and the
 * program-derived addresses they live at.
 */
module State {
  import opened Wrappers

  const U8_MAX: int := 0xFF
  const U32_MAX: int := 0xFFFF_FFFF
  const U64_MAX: int := 0xFFFF_FFFF_FFFF_FFFF

  type u8 = x: int | 0 <= x <= 0xFF
  type u32 = x: int | 0 <= x <= 0xFFFF_FFFF
  type u64 = x: int | 0 <= x <= 0xFFFF_FFFF_FFFF_FFFF
  type i64 = x: int | -0x8000_0000_0000_0000 <= x <= 0x7FFF_FFFF_FFFF_FFFF

  /** A Rust `String` as the UTF-8 bytes Borsh writes. */
  type Bytes = seq<u8>

  /**
   * Public keys. `DefaultKey` is the all-zero key a freshly allocated account
   * holds; `Wallet` is a key pair that can sign; `Derived` is a program-derived
   * address. Deriving is a constructor, so distinct seed lists give distinct
   * addresses: the hash and the off-curve search are not modelled.
   */
  datatype Address = DefaultKey | Wallet(id: nat) | Derived(seeds: seq<Seed>)

  datatype Seed = Tag(name: string) | Slice(bytes: Bytes) | KeyOf(key: Address)

  /** `[b"market", question.as_bytes()[..10]]`; the slice panics on shorter questions. */
  function MarketSeeds(question: Bytes): seq<Seed>
    requires |question| >= 10
  {
    [Tag("market"), Slice(question[..10])]
  }

  function MarketAddress(question: Bytes): Address
    requires |question| >= 10
  {
    Derived(MarketSeeds(question))
  }

  function ProfileSeeds(user: Address): seq<Seed> {
    [Tag("user"), KeyOf(user)]
  }

  function ProfileAddress(user: Address): Address {
    Derived(ProfileSeeds(user))
  }

  function BetSeeds(market: Address, user: Address): seq<Seed> {
    [Tag("bet"), KeyOf(market), KeyOf(user)]
  }

  function BetAddress(market: Address, user: Address): Address {
    Derived(BetSeeds(market, user))
  }

  datatype Market = Market(
    authority: Address,
    question: Bytes,
    outcomes: seq<Bytes>,
    resolutionTime: i64,
    totalPool: u64,
    resolved: bool,
    winningOutcome: Option<u8>,
    oracleSource: Option<Address>,
    bump: u8)

  datatype UserProfile = UserProfile(
    authority: Address,
    totalBets: u64,
    totalWins: u64,
    currentStreak: u32,
    longestStreak: u32,
    lastBetTimestamp: i64,
    bump: u8)

  datatype Bet = Bet(
    market: Address,
    user: Address,
    amount: u64,
    prediction: u8,
    claimed: bool,
    timestamp: i64,
    bump: u8)

  /** The contents of an account that `init_if_needed` has just allocated. */
  const ZeroProfile: UserProfile := UserProfile(DefaultKey, 0, 0, 0, 0, 0, 0)

  // ---------------------------------------------------------------------
  // Borsh layouts and allocated sizes
  // ---------------------------------------------------------------------

  datatype Field =
    | PubkeyField | U8Field | BoolField | U32Field | U64Field | I64Field
    | StringField(len: nat)
    | StringVecField(lens: seq<nat>)
    | OptionField(present: bool, inner: Field)

  /** Bytes Borsh writes for one field: strings and vectors carry a 4-byte length. */
  function Width(f: Field): nat {
    match f
    case PubkeyField => 32
    case U8Field => 1
    case BoolField => 1
    case U32Field => 4
    case U64Field => 8
    case I64Field => 8
    case StringField(n) => 4 + n
    case StringVecField(lens) => 4 + StringsWidth(lens)
    case OptionField(present, inner) => 1 + (if present then Width(inner) else 0)
  }

  function StringsWidth(lens: seq<nat>): nat {
    if lens == [] then 0 else 4 + lens[0] + StringsWidth(lens[1..])
  }

  function EncodedLen(fields: seq<Field>): nat {
    if fields == [] then 0 else Width(fields[0]) + EncodedLen(fields[1..])
  }

  /** Anchor prefixes every account with an 8-byte discriminator. */
  const DISCRIMINATOR_LEN: nat := 8

  function AccountLen(fields: seq<Field>): nat {
    DISCRIMINATOR_LEN + EncodedLen(fields)
  }

  /** Byte offset of field `i` inside the account data. */
  function FieldOffset(fields: seq<Field>, i: nat): nat
    requires i <= |fields|
  {
    DISCRIMINATOR_LEN + EncodedLen(fields[..i])
  }

  function Lengths(items: seq<Bytes>): (lens: seq<nat>)
    ensures |lens| == |items|
    ensures forall i :: 0 <= i < |items| ==> lens[i] == |items[i]|
  {
    if items == [] then [] else [|items[0]|] + Lengths(items[1..])
  }

  function MarketLayout(m: Market): seq<Field> {
    [PubkeyField, StringField(|m.question|), StringVecField(Lengths(m.outcomes)),
     I64Field, U64Field, BoolField,
     OptionField(m.winningOutcome.Some?, U8Field),
     OptionField(m.oracleSource.Some?, PubkeyField),
     U8Field]
  }

  const PROFILE_LAYOUT: seq<Field> :=
    [PubkeyField, U64Field, U64Field, U32Field, U32Field, I64Field, U8Field]

  const BET_LAYOUT: seq<Field> :=
    [PubkeyField, PubkeyField, U64Field, U8Field, BoolField, I64Field, U8Field]

  /** The space allocated for a market: room for a 100-byte question and four 20-byte outcomes. */
  const MARKET_MAXIMUM_SIZE: nat := 8 + 32 + (4 + 100) + (4 + 4 * 24) + 8 + 8 + 1 + 2 + 33 + 1
  const PROFILE_SIZE: nat := 8 + 32 + 8 + 8 + 4 + 4 + 8 + 1
  const BET_SIZE: nat := 8 + 32 + 32 + 8 + 1 + 1 + 8 + 1

  function MarketLen(m: Market): nat {
    AccountLen(MarketLayout(m))
  }

  /** The market record fits the space its account was allocated with. */
  predicate FitsAllocation(m: Market) {
    MarketLen(m) <= MARKET_MAXIMUM_SIZE
  }

  lemma BetSizeIsLayout()
    ensures AccountLen(BET_LAYOUT) == BET_SIZE == 91
  {
  }

  lemma ProfileSizeIsLayout()
    ensures AccountLen(PROFILE_LAYOUT) == PROFILE_SIZE == 73
  {
  }

  /** `Bet.user` is the second field and starts after the discriminator and the market key. */
  lemma BetUserOffset()
    ensures BET_LAYOUT[1] == PubkeyField
    ensures FieldOffset(BET_LAYOUT, 1) == 8 + 32
  {
  }

  lemma {:induction false} StringsWidthBound(items: seq<Bytes>, maxLen: nat)
    requires forall i :: 0 <= i < |items| ==> |items[i]| <= maxLen
    ensures StringsWidth(Lengths(items)) <= (4 + maxLen) * |items|
  {
    if items != [] {
      StringsWidthBound(items[1..], maxLen);
      assert Lengths(items)[1..] == Lengths(items[1..]);
    }
  }

  lemma {:induction false} StringsWidthExact(items: seq<Bytes>, len: nat)
    requires forall i :: 0 <= i < |items| ==> |items[i]| == len
    ensures StringsWidth(Lengths(items)) == (4 + len) * |items|
  {
    if items != [] {
      StringsWidthExact(items[1..], len);
      assert Lengths(items)[1..] == Lengths(items[1..]);
    }
  }

  lemma {:induction false} EncodedLenAppend(a: seq<Field>, b: seq<Field>)
    ensures EncodedLen(a + b) == EncodedLen(a) + EncodedLen(b)
  {
    if a == [] {
      assert a + b == b;
    } else {
      assert (a + b)[1..] == a[1..] + b;
      EncodedLenAppend(a[1..], b);
    }
  }

  /** The fixed-width tail of a market record: time, pool, flag, the two options and the bump. */
  lemma MarketTailLen(resolvedSome: bool, oracleSome: bool)
    ensures EncodedLen([I64Field, U64Field, BoolField, OptionField(resolvedSome, U8Field),
                        OptionField(oracleSome, PubkeyField), U8Field])
            == 8 + 8 + 1 + (if resolvedSome then 2 else 1) + (if oracleSome then 33 else 1) + 1
  {
    var t := [I64Field, U64Field, BoolField, OptionField(resolvedSome, U8Field),
              OptionField(oracleSome, PubkeyField), U8Field];
    assert EncodedLen(t[5..]) == 1;
    assert EncodedLen(t[4..]) == Width(t[4]) + EncodedLen(t[5..]);
    assert EncodedLen(t[3..]) == Width(t[3]) + EncodedLen(t[4..]);
    assert EncodedLen(t[2..]) == Width(t[2]) + EncodedLen(t[3..]);
    assert EncodedLen(t[1..]) == Width(t[1]) + EncodedLen(t[2..]);
    assert EncodedLen(t) == Width(t[0]) + EncodedLen(t[1..]);
  }

  /** The exact size of a market record, field by field. */
  lemma MarketLenValue(m: Market)
    ensures MarketLen(m) == 8 + 32 + (4 + |m.question|) + (4 + StringsWidth(Lengths(m.outcomes)))
                            + 8 + 8 + 1
                            + (if m.winningOutcome.Some? then 2 else 1)
                            + (if m.oracleSource.Some? then 33 else 1)
                            + 1
  {
    var head := [PubkeyField, StringField(|m.question|), StringVecField(Lengths(m.outcomes))];
    var tail := [I64Field, U64Field, BoolField, OptionField(m.winningOutcome.Some?, U8Field),
                 OptionField(m.oracleSource.Some?, PubkeyField), U8Field];
    assert MarketLayout(m) == head + tail;
    EncodedLenAppend(head, tail);
    MarketTailLen(m.winningOutcome.Some?, m.oracleSource.Some?);
    assert EncodedLen(head[2..]) == Width(head[2]);
  }

  /**
   * A question of at most 100 bytes and at most four outcomes of at most 20
   * bytes each always fit, whether or not the market is resolved and
   * whether or not it names an oracle.
   */
  lemma MarketWithinBudget(m: Market)
    requires |m.question| <= 100
    requires |m.outcomes| <= 4
    requires forall i :: 0 <= i < |m.outcomes| ==> |m.outcomes[i]| <= 20
    ensures FitsAllocation(m)
  {
    StringsWidthBound(m.outcomes, 20);
    MarketLenValue(m);
  }

  /** Setting `winning_outcome` from `None` to `Some` grows the record by one byte. */
  lemma ResolvingGrowsByOne(m: Market, w: u8)
    requires m.winningOutcome == None
    ensures MarketLen(m.(resolved := true, winningOutcome := Some(w))) == MarketLen(m) + 1
  {
    MarketLenValue(m);
    MarketLenValue(m.(resolved := true, winningOutcome := Some(w)));
  }

  lemma MarketAddressCollision(q1: Bytes, q2: Bytes)
    requires |q1| >= 10 && |q2| >= 10
    ensures MarketAddress(q1) == MarketAddress(q2) <==> q1[..10] == q2[..10]
  {
  }

  lemma BetAddressInjective(m1: Address, u1: Address, m2: Address, u2: Address)
    ensures BetAddress(m1, u1) == BetAddress(m2, u2) <==> m1 == m2 && u1 == u2
  {
  }

  lemma AddressKindsDisjoint(q: Bytes, u: Address, m: Address, v: Address)
    requires |q| >= 10
    ensures MarketAddress(q) != ProfileAddress(u)
    ensures MarketAddress(q) != BetAddress(m, v)
    ensures ProfileAddress(u) != BetAddress(m, v)
  {
  }
}
