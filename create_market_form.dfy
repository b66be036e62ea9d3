/**
 * The outcome list of the market-creation form: it starts with two empty
 * answers and is edited by adding, changing and removing entries.
 */
module CreateMarketForm {
  import opened Wrappers
  import opened State
  import opened Errors
  import opened Invariant
  import opened Program

  const MIN_OUTCOMES: nat := 2
  const MAX_OUTCOMES: nat := 6

  /**
   * The list without the entry at position `index`, keeping the order of
   * the rest; an index that names no entry removes nothing.
   */
  function WithoutIndex(s: seq<string>, index: int): (r: seq<string>)
    ensures 0 <= index < |s| ==> r == s[..index] + s[index + 1..]
    ensures !(0 <= index < |s|) ==> r == s
  {
    if s == [] then []
    else
      var rest := WithoutIndex(s[1..], index - 1);
      if index == 0 then rest else [s[0]] + rest
  }

  class OutcomeEditor {
    var outcomes: seq<string>

    /** The list always offers between two and six answers. */
    ghost predicate Valid()
      reads this
    {
      MIN_OUTCOMES <= |outcomes| <= MAX_OUTCOMES
    }

    constructor ()
      ensures Valid()
      ensures outcomes == ["", ""]
    {
      outcomes := ["", ""];
    }

    /** Append an empty answer, unless six are already shown. */
    method AddOutcome()
      requires Valid()
      modifies this
      ensures Valid()
      ensures |old(outcomes)| < MAX_OUTCOMES ==> outcomes == old(outcomes) + [""]
      ensures |old(outcomes)| >= MAX_OUTCOMES ==> outcomes == old(outcomes)
    {
      if |outcomes| < MAX_OUTCOMES {
        outcomes := outcomes + [""];
      }
    }

    /** Replace the answer at `index`: a copy of the list with that one entry changed. */
    method UpdateOutcome(index: nat, value: string)
      requires Valid()
      requires index < |outcomes|
      modifies this
      ensures Valid()
      ensures |outcomes| == |old(outcomes)|
      ensures outcomes[index] == value
      ensures forall i | 0 <= i < |outcomes| && i != index :: outcomes[i] == old(outcomes)[i]
    {
      var newOutcomes := outcomes;
      newOutcomes := newOutcomes[index := value];
      outcomes := newOutcomes;
    }

    /** Drop the answer at `index`, unless only two are left. */
    method RemoveOutcome(index: int)
      requires Valid()
      modifies this
      ensures Valid()
      ensures |old(outcomes)| > MIN_OUTCOMES ==> outcomes == WithoutIndex(old(outcomes), index)
      ensures |old(outcomes)| <= MIN_OUTCOMES ==> outcomes == old(outcomes)
    {
      if |outcomes| > MIN_OUTCOMES {
        outcomes := WithoutIndex(outcomes, index);
      }
    }
  }

  /**
   * The form's cap of six answers exceeds what the program's allocation was
   * sized for: at the 20 bytes per answer and 100-byte question the size
   * estimate assumes, six answers make a record the program refuses to write
   * back. The form itself sets no length limit and its create button submits
   * nothing; this is what `initialize_market` would do with such a form.
   */
  lemma FormMaximumOutgrowsAllocation(markets: Markets, question: Bytes, outcomes: seq<Bytes>,
                                      oracleSource: Option<Address>)
    requires |question| == 100 && MarketAddress(question) !in markets
    requires |outcomes| == MAX_OUTCOMES
    requires forall i | 0 <= i < |outcomes| :: |outcomes[i]| == 20
    ensures InitializeRejection(markets, MarketAddress(question), question, outcomes, oracleSource)
            == Some(AccountDidNotSerialize)
  {
    var m := Market(DefaultKey, question, outcomes, 0, 0, false, None, oracleSource, 0);
    StringsWidthExact(outcomes, 20);
    MarketLenValue(m);
  }
}
