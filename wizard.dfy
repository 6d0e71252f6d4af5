/** The per-user dialogue state of bot/states.py and the data the handlers
    keep beside it (aiogram's FSM context): which step of the deal-creation
    or wallet dialogue the user is at, and the answers given so far. */
module Wizard {
  import opened Text

  datatype Step =
    // deal creation
    | WaitingForRole
    | WaitingForPartnerId
    | WaitingForAmount
    | WaitingForCurrency
    // wallet management
    | WaitingForCurrencyChoice
    | WaitingForWalletAddress

  class Conversation {
    /** The Telegram id of the user the dialogue belongs to. */
    const owner: int

    var step: Option<Step>
    var role: Option<string>
    var partnerId: Option<int>
    var partnerUsername: Option<string>
    var amount: Option<real>
    var walletCurrency: Option<string>

    /** Each step has the answers of the steps before it. */
    ghost predicate Valid()
      reads this
    {
      && (step == Some(WaitingForPartnerId) ==> role.Some?)
      && (step == Some(WaitingForAmount) ==> role.Some? && partnerId.Some? && partnerUsername.Some?)
      && (step == Some(WaitingForCurrency) ==>
            role.Some? && partnerId.Some? && partnerUsername.Some? && amount.Some? && amount.value > 0.0)
      && (step == Some(WaitingForWalletAddress) ==> walletCurrency.Some?)
    }

    ghost predicate Cleared()
      reads this
    {
      step.None? && role.None? && partnerId.None? && partnerUsername.None? && amount.None?
      && walletCurrency.None?
    }

    constructor (owner: int)
      ensures Valid() && Cleared() && this.owner == owner
    {
      this.owner := owner;
      step, role, partnerId, partnerUsername, amount, walletCurrency := None, None, None, None, None, None;
    }

    /** `state.clear()`: leaves the dialogue and forgets every answer. */
    method Clear()
      modifies this
      ensures Valid() && Cleared()
    {
      step, role, partnerId, partnerUsername, amount, walletCurrency := None, None, None, None, None, None;
    }
  }
}
