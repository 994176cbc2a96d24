/** The chain-switch step: the guard that sends the wizard back to the
    payment-method choice, and `handleSwitch`, which asks the wallet to
    switch chains, falls back to adding the chain when the wallet does not
    know it, and reports failures through the step's form error.

    What the wallet calls did is an input (`Outcome`); the step's own React
    state (`loading`, `formError`) is the state of a `SwitchChainView`. */
module SwitchChainStep {
  import opened Prelude
  import opened Store

  /** The text a wallet puts in the error for a chain it does not know. */
  const ChainMissing := "Unrecognized chain ID"

  // ---------------------------------------------------------------------------
  // The missing-method guard

  /** What the step dispatches while rendering: with no payment method
      chosen, a move to the payment-method phase; otherwise nothing. */
  function GuardActions(s: State): (r: seq<Action>)
    ensures s.paymentMethod.None? ==> r == [SetStep(PhaseOrdinal(PaymentMethod))]
    ensures s.paymentMethod.Some? ==> r == []
  {
    if s.paymentMethod.None? then [SetStep(PhaseOrdinal(PaymentMethod))] else []
  }

  /** The guard moves the wizard to wherever the payment-method phase sits in
      the current phase list (2 in the default list; -1 when a custom list
      lacks it) and changes nothing else. */
  lemma GuardReturnsToMethodChoice(p: Props, s: State)
    requires s.paymentMethod.None?
    ensures var t := Run(p, s, GuardActions(s));
            t == s.(step := IndexOf(s.steps, PaymentMethod)) &&
            (s.steps == DefaultSteps ==> t.step == 2 && t.steps[t.step] == PaymentMethod)
  {
    var a := SetStep(PhaseOrdinal(PaymentMethod));
    assert GuardActions(s) == [a];
    assert Run(p, s, [a]) == Run(p, Reduce(p, s, a), []);
    assert StepIndex(s.steps, 2) == IndexOf(s.steps, PaymentMethod);
    assert Reduce(p, s, a) == s.(step := StepIndex(s.steps, 2));
    PaymentMethodIsThirdDefaultPhase();
  }

  /** The payment-method phase sits at position 2 of the default list. */
  lemma PaymentMethodIsThirdDefaultPhase()
    ensures IndexOf(DefaultSteps, PaymentMethod) == 2 && DefaultSteps[2] == PaymentMethod
  {
    assert PaymentMethod !in DefaultSteps[..2];
  }

  // ---------------------------------------------------------------------------
  // handleSwitch

  /** How an awaited wallet call ended: resolved, or threw an error whose
      `message` may be undefined. */
  datatype Outcome = Resolved | Rejected(message: Option<string>)

  /** `e.message?.includes(CHAIN_MISSING)`. */
  predicate ChainIsMissing(e: Outcome) {
    e.Rejected? && e.message.Some? && Includes(e.message.value, ChainMissing)
  }

  /** How many times `handleSwitch` calls `addChain` after the switch ended
      with `switched`. */
  function AddChainAttempts(switched: Outcome): nat {
    if ChainIsMissing(switched) then 1 else 0
  }

  /** The form error after `handleSwitch`, starting from `before`: the switch
      error's message, or the add-chain error's message when the chain was
      missing and adding it failed; unchanged when the switch or the
      add-chain fallback succeeded. */
  function FormErrorAfter(before: Option<string>, switched: Outcome, added: Outcome): Option<string> {
    match switched
    case Resolved => before
    case Rejected(m) =>
      if ChainIsMissing(switched) then
        match added
        case Resolved => before
        case Rejected(m2) => m2
      else m
  }

  /** The step's local state and the calls it makes to the wallet. */
  class SwitchChainView {
    var loading: bool
    var formError: Option<string>
    /** Every value passed to `setLoading`, in order. */
    var loadingUpdates: seq<bool>
    /** The chain ids passed to `switchChain`. */
    var switchRequests: seq<Option<int>>
    var addChainCalls: nat

    /** `useState(false)` and `useState(null)`. */
    constructor ()
      ensures !loading && formError.None?
      ensures loadingUpdates == [] && switchRequests == [] && addChainCalls == 0
    {
      loading := false;
      formError := None;
      loadingUpdates := [];
      switchRequests := [];
      addChainCalls := 0;
    }

    /** One press of the button, for the selected network's chain id; the
        wallet's answers to `switchChain` and `addChain` are `switched` and
        `added`. Nothing is dispatched to the store. */
    method HandleSwitch(chainId: Option<int>, switched: Outcome, added: Outcome)
      modifies this
      ensures loadingUpdates == old(loadingUpdates) + [true, false] && !loading
      ensures switchRequests == old(switchRequests) + [chainId]
      ensures addChainCalls == old(addChainCalls) + AddChainAttempts(switched)
      ensures formError == FormErrorAfter(old(formError), switched, added)
    {
      loading := true;
      loadingUpdates := loadingUpdates + [true];
      switchRequests := switchRequests + [chainId];
      if switched.Rejected? {
        var e := switched.message;
        var recovered := false;
        if e.Some? && Includes(e.value, ChainMissing) {
          addChainCalls := addChainCalls + 1;
          if added.Resolved? {
            recovered := true;
          } else {
            e := added.message;
          }
        }
        if !recovered {
          formError := e;
        }
      }
      loading := false;
      loadingUpdates := loadingUpdates + [false];
    }
  }

  // ---------------------------------------------------------------------------
  // Properties of handleSwitch

  /** A successful switch sets no form error and never calls `addChain`. */
  lemma SwitchSuccessSetsNoError(before: Option<string>, added: Outcome)
    ensures FormErrorAfter(before, Resolved, added) == before
    ensures AddChainAttempts(Resolved) == 0
  {
  }

  /** A missing chain leads to exactly one `addChain` attempt; when it
      succeeds no error is shown, and when it fails its own message replaces
      the switch error. */
  lemma MissingChainFallsBackToAddChain(before: Option<string>, switched: Outcome, added: Outcome)
    requires ChainIsMissing(switched)
    ensures AddChainAttempts(switched) == 1
    ensures added.Resolved? ==> FormErrorAfter(before, switched, added) == before
    ensures added.Rejected? ==> FormErrorAfter(before, switched, added) == added.message
  {
  }

  /** Any other switch error shows its own message and never calls
      `addChain`, whatever `addChain` would have done. */
  lemma OtherErrorsShowTheirMessage(before: Option<string>, switched: Outcome, added: Outcome)
    requires switched.Rejected? && !ChainIsMissing(switched)
    ensures AddChainAttempts(switched) == 0
    ensures FormErrorAfter(before, switched, added) == switched.message
  {
  }

  /** The form error changes only when a wallet call failed, and then it
      holds the message of the last call that failed. */
  lemma FormErrorComesFromLastFailure(before: Option<string>, switched: Outcome, added: Outcome)
    ensures FormErrorAfter(before, switched, added) != before ==>
              (added.Rejected? && ChainIsMissing(switched) && FormErrorAfter(before, switched, added) == added.message) ||
              (switched.Rejected? && !ChainIsMissing(switched) && FormErrorAfter(before, switched, added) == switched.message)
  {
  }

  /** A wallet error whose message contains the chain-missing text anywhere
      takes the add-chain branch; an error without a message does not. */
  lemma ChainMissingAnywhere(pre: string, post: string)
    ensures ChainIsMissing(Rejected(Some(pre + ChainMissing + post)))
    ensures !ChainIsMissing(Rejected(None))
  {
    var m := pre + ChainMissing + post;
    assert m[|pre|..|pre| + |ChainMissing|] == ChainMissing;
    assert OccursAt(m, ChainMissing, |pre|);
  }
}
