/**
 * Lamport balances of all accounts and the one way the program moves them:
 * a debit of one account matched by a credit of another.
 */
module Lamports {
  import opened State
  import opened Sums

  type Balances = map<Address, u64>

  /** An account that was never funded holds zero lamports. */
  function Bal(b: Balances, a: Address): u64 {
    if a in b then b[a] else 0
  }

  /** Debit `from` and credit `to` by `x`; the runtime rejects overdrafts and overflows. */
  function Move(b: Balances, from: Address, to: Address, x: nat): (r: Balances)
    requires from != to
    requires x <= Bal(b, from)
    requires Bal(b, to) + x <= U64_MAX
    ensures Bal(r, from) == Bal(b, from) - x
    ensures Bal(r, to) == Bal(b, to) + x
    ensures forall a :: a != from && a != to ==> Bal(r, a) == Bal(b, a)
  {
    b[from := Bal(b, from) - x][to := Bal(b, to) + x]
  }

  ghost function Total(b: Balances): int {
    SumOver(b.Keys, a => Bal(b, a))
  }

  /** A move between two distinct accounts conserves the total number of lamports. */
  lemma MoveConserves(b: Balances, from: Address, to: Address, x: nat)
    requires from != to
    requires x <= Bal(b, from)
    requires Bal(b, to) + x <= U64_MAX
    ensures Total(Move(b, from, to, x)) == Total(b)
  {
    var r := Move(b, from, to, x);
    var keys := b.Keys + {from, to};
    assert r.Keys == keys;
    var f := a => Bal(b, a);
    var h := a => if a == from then Bal(r, from) else Bal(b, a);
    var g := a => Bal(r, a);
    SumExtendByZeros(b.Keys, keys, f);
    SumUpdate(keys, f, h, from);
    SumUpdate(keys, h, g, to);
  }
}
