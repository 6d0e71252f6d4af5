/** The wallet dialogue of bot/handlers/wallet.py: picking a currency and
    saving a payout address for it. */
module WalletHandlers {
  import opened Text
  import opened Ledger
  import opened Wizard
  import opened WalletRules

  datatype WalletReply =
    | AskAddress        // the dialogue waits for the address
    | AddressTooShort   // refused; the dialogue keeps waiting
    | WalletSaved

  /** choose_wallet_currency. Its route has no state filter, so it takes
      every "currency:" button except the one the deal dialogue claims in
      its currency step (that router is registered first). It stores the
      text after the first ':' and waits for the address; other answers
      stay. */
  method ChooseWalletCurrency(conv: Conversation, data: string) returns (reply: WalletReply)
    requires conv.Valid() && StartsWith(data, "currency:")
    requires conv.step != Some(WaitingForCurrency)
    modifies conv
    ensures conv.Valid() && reply == AskAddress
    ensures conv.step == Some(WaitingForWalletAddress)
    ensures conv.walletCurrency == Field(data, ':', 1) == Some(Split(data[9..], ':')[0])
    ensures conv.role == old(conv.role) && conv.partnerId == old(conv.partnerId)
    ensures conv.partnerUsername == old(conv.partnerUsername) && conv.amount == old(conv.amount)
  {
    assert "currency" + ":" == "currency:";
    FieldAfterPrefix(data, "currency");
    conv.walletCurrency := Field(data, ':', 1);
    conv.step := Some(WaitingForWalletAddress);
    reply := AskAddress;
  }

  /** save_wallet_address: the stripped text is refused when shorter than
      20 characters, leaving the dialogue waiting and nothing written;
      otherwise the caller is registered, the address is written into the
      column of the stored currency with no check of its format, and the
      dialogue is cleared. */
  method SaveWalletAddress(conv: Conversation, ledger: Ledger, text: string, username: string)
    returns (reply: WalletReply)
    requires conv.Valid() && ledger.Valid()
    requires conv.step == Some(WaitingForWalletAddress)
    modifies conv, ledger
    ensures conv.Valid() && ledger.Valid() && RowsKept(old(ledger.users), ledger.users)
    ensures TooShort(Strip(text)) ==> reply == AddressTooShort && unchanged(conv, ledger)
    ensures !TooShort(Strip(text)) ==>
              var me := RegisteredUser(old(ledger.users), conv.owner, username);
              var currency := old(conv.walletCurrency.value);
              && reply == WalletSaved && conv.Cleared()
              && ledger.users == WalletWritten(Registered(old(ledger.users), conv.owner, username),
                                               me.userId, currency, Strip(text))
              && ledger.log == old(ledger.log) + RegistrationLog(old(ledger.users), conv.owner)
                               + [LogEntry(me.userId, "wallet_updated", WalletUpdated(currency, Strip(text)))]
              && ledger.deals == old(ledger.deals)
              && HasWallet(UserById(ledger.users, me.userId).value, currency)
  {
    var address := Strip(text);
    var currency := conv.walletCurrency.value;
    if TooShort(address) {
      return AddressTooShort;
    }
    ghost var before := ledger.users;
    RegistrationSound(before, conv.owner, username);
    var me := ledger.GetOrCreateUser(conv.owner, username);
    assert 1 <= me.userId <= |ledger.users| by {
      var i :| 0 <= i < |ledger.users| && ledger.users[i] == me;
    }
    WalletWrittenEffect(ledger.users, me.userId, currency, address);
    ledger.UpdateWallet(me.userId, currency, address);
    conv.Clear();
    reply := WalletSaved;
  }

  /** The dialogue's length check is all the checking there is: an address
      of 20 to 40 characters is saved, yet the format check of bot/utils.py
      refuses it for every currency. */
  lemma SavedAddressMayFailFormat(address: string, currency: string)
    requires MinAddressLength <= |address| <= 40
    ensures !TooShort(address) && !ValidateWalletAddress(address, currency)
  {
  }
}
