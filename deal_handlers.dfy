/** The deal handlers of bot/handlers/deals.py: the four-step creation
    dialogue and the callbacks behind the deal buttons. Each handler is a
    method on the ledger and, for the dialogue, on the caller's
    conversation; `callerTg` / `conv.owner` is the Telegram id of whoever
    pressed the button or sent the message, `username` the name
    get_or_create_user would receive. Messages sent back are summarised by
    a `Reply`; notifications to the other party are not modelled. */
module DealHandlers {
  import opened Text
  import opened DealStatus
  import opened Config
  import opened Ledger
  import opened Wizard
  import Keyboards

  datatype Reply =
    | Prompted               // the dialogue moved on and asks the next question
    | NotANumber             // the partner id is not an integer
    | UnknownPartner         // no user has that id
    | SelfDeal               // the partner id is the caller's own
    | BadAmount              // the amount is missing or not positive
    | NoSellerWallet         // a seller without a payout address for the currency
    | DealOpened(dealId: int)
    | DealNotFound
    | NotTheBuyer
    | Done                   // the action was carried out
    | DealCompletedNotice    // the delivery confirmation completed the deal
    | AwaitingOtherParty     // the delivery confirmation is recorded, the deal is not completed
    | Failed                 // the handler raised on callback data without an integer id

  // ===================== the parties of a new deal =====================

  function BuyerOf(role: string, me: int, partner: int): int {
    if role == "buyer" then me else partner
  }

  function SellerOf(role: string, me: int, partner: int): int {
    if role == "seller" then me else partner
  }

  /** A "buyer" or "seller" choice makes the caller one party and the
      partner the other; any other role text (the dialogue's own keyboard
      offers only those two) makes the partner both buyer and seller. */
  lemma PartiesFromRole(role: string, me: int, partner: int)
    ensures role == "buyer" ==> BuyerOf(role, me, partner) == me && SellerOf(role, me, partner) == partner
    ensures role == "seller" ==> BuyerOf(role, me, partner) == partner && SellerOf(role, me, partner) == me
    ensures (role == "buyer" || role == "seller") && me != partner ==>
              BuyerOf(role, me, partner) != SellerOf(role, me, partner)
    ensures role != "buyer" && role != "seller" ==>
              BuyerOf(role, me, partner) == partner == SellerOf(role, me, partner)
  {
  }

  /** The escrow address text: currency and a timestamp reading. */
  function GarantAddress(currency: string, stamp: string): (r: string)
    ensures StartsWith(r, "GARANT_")
  {
    "GARANT_" + currency + "_" + stamp
  }

  /** What the partner step established, for as long as the dialogue is in
      the amount or currency step: the owner is registered and the partner
      is a registered user other than the owner. */
  ghost predicate PartnerChecked(conv: Conversation, users: seq<User>)
    reads conv
  {
    (conv.step == Some(WaitingForAmount) || conv.step == Some(WaitingForCurrency)) ==>
      && conv.partnerId.Some?
      && 1 <= conv.partnerId.value <= |users|
      && FindByTelegram(users, conv.owner).Some?
      && FindByTelegram(users, conv.owner).value.userId != conv.partnerId.value
  }

  /** Whatever other users do in between (registering, saving wallets)
      keeps the check valid, since users keep their ids. */
  lemma PartnerCheckedStable(conv: Conversation, before: seq<User>, after: seq<User>)
    requires RowsKept(before, after) && TelegramIdsUnique(after)
    requires PartnerChecked(conv, before)
    ensures PartnerChecked(conv, after)
  {
    if conv.step == Some(WaitingForAmount) || conv.step == Some(WaitingForCurrency) {
      RowsKeptFind(before, after, conv.owner);
    }
  }

  // ===================== the creation dialogue =====================

  /** start_deal_creation and its button: enters the role step. Answers
      of an earlier unfinished dialogue stay in the data. */
  method StartDealCreation(conv: Conversation) returns (reply: Reply)
    modifies conv
    ensures conv.Valid() && reply == Prompted
    ensures conv.step == Some(WaitingForRole)
    ensures conv.role == old(conv.role) && conv.partnerId == old(conv.partnerId)
    ensures conv.partnerUsername == old(conv.partnerUsername) && conv.amount == old(conv.amount)
    ensures conv.walletCurrency == old(conv.walletCurrency)
  {
    conv.step := Some(WaitingForRole);
    reply := Prompted;
  }

  /** choose_role: stores the text after the first ':' as the role,
      registers the caller and asks for the partner's id. */
  method ChooseRole(conv: Conversation, ledger: Ledger, data: string, username: string) returns (reply: Reply)
    requires conv.Valid() && ledger.Valid()
    requires conv.step == Some(WaitingForRole) && StartsWith(data, "deal_role:")
    modifies conv, ledger
    ensures conv.Valid() && ledger.Valid() && reply == Prompted
    ensures conv.step == Some(WaitingForPartnerId)
    ensures conv.role == Field(data, ':', 1) == Some(Split(data[10..], ':')[0])
    ensures conv.partnerId == old(conv.partnerId) && conv.partnerUsername == old(conv.partnerUsername)
    ensures conv.amount == old(conv.amount) && conv.walletCurrency == old(conv.walletCurrency)
    ensures ledger.users == Registered(old(ledger.users), conv.owner, username)
    ensures ledger.log == old(ledger.log) + RegistrationLog(old(ledger.users), conv.owner)
    ensures ledger.deals == old(ledger.deals)
  {
    assert "deal_role" + ":" == "deal_role:";
    FieldAfterPrefix(data, "deal_role");
    conv.role := Field(data, ':', 1);
    var _ := ledger.GetOrCreateUser(conv.owner, username);
    conv.step := Some(WaitingForPartnerId);
    reply := Prompted;
  }

  /** enter_partner_id: the text must be an integer and the id of an
      existing user; the caller is registered only after that lookup, and
      the id must not be the caller's own. Every refusal keeps the dialogue
      at this step. */
  method EnterPartnerId(conv: Conversation, ledger: Ledger, text: string, username: string) returns (reply: Reply)
    requires conv.Valid() && ledger.Valid()
    requires conv.step == Some(WaitingForPartnerId)
    modifies conv, ledger
    ensures conv.Valid() && ledger.Valid()
    ensures PartnerChecked(conv, ledger.users)
    ensures ParseInt(text).None? ==> reply == NotANumber && unchanged(conv, ledger)
    ensures ParseInt(text).Some? && UserById(old(ledger.users), ParseInt(text).value).None? ==>
              reply == UnknownPartner && unchanged(conv, ledger)
    ensures ParseInt(text).Some? && UserById(old(ledger.users), ParseInt(text).value).Some? ==>
              var partnerId := ParseInt(text).value;
              var me := RegisteredUser(old(ledger.users), conv.owner, username);
              && ledger.users == Registered(old(ledger.users), conv.owner, username)
              && ledger.log == old(ledger.log) + RegistrationLog(old(ledger.users), conv.owner)
              && ledger.deals == old(ledger.deals)
              && conv.role == old(conv.role) && conv.amount == old(conv.amount)
              && conv.walletCurrency == old(conv.walletCurrency)
              && (partnerId == me.userId ==>
                    reply == SelfDeal && conv.step == old(conv.step)
                    && conv.partnerId == old(conv.partnerId) && conv.partnerUsername == old(conv.partnerUsername))
              && (partnerId != me.userId ==>
                    reply == Prompted && conv.step == Some(WaitingForAmount)
                    && conv.partnerId == Some(partnerId)
                    && conv.partnerUsername == Some(UserById(old(ledger.users), partnerId).value.username))
  {
    var parsed := ParseInt(text);
    if parsed.None? {
      return NotANumber;
    }
    var partnerId := parsed.value;
    var partner := UserById(ledger.users, partnerId);
    if partner.None? {
      return UnknownPartner;
    }
    ghost var before := ledger.users;
    RegistrationSound(before, conv.owner, username);
    var me := ledger.GetOrCreateUser(conv.owner, username);
    if partnerId == me.userId {
      return SelfDeal;
    }
    conv.partnerId, conv.partnerUsername := Some(partnerId), Some(partner.value.username);
    conv.step := Some(WaitingForAmount);
    reply := Prompted;
  }

  /** enter_amount, given the value `float` read from the text with ','
      taken as the decimal point (None when it could not be read): only a
      positive amount moves the dialogue on. */
  method EnterAmount(conv: Conversation, parsed: Option<real>) returns (reply: Reply)
    requires conv.Valid() && conv.step == Some(WaitingForAmount)
    modifies conv
    ensures conv.Valid()
    ensures conv.role == old(conv.role) && conv.partnerId == old(conv.partnerId)
    ensures conv.partnerUsername == old(conv.partnerUsername) && conv.walletCurrency == old(conv.walletCurrency)
    ensures parsed.Some? && parsed.value > 0.0 ==>
              reply == Prompted && conv.step == Some(WaitingForCurrency) && conv.amount == parsed
    ensures !(parsed.Some? && parsed.value > 0.0) ==> reply == BadAmount && unchanged(conv)
  {
    if parsed.None? || parsed.value <= 0.0 {
      return BadAmount;
    }
    conv.amount := parsed;
    conv.step := Some(WaitingForCurrency);
    reply := Prompted;
  }

  /** choose_currency at time `now` (seconds), `stamp` being the timestamp
      text of the escrow address. A seller without a payout address for the
      currency is refused; otherwise the deal is created with the caller and
      the partner as parties according to the role, expiring two hours from
      now. The dialogue is cleared either way. When the partner step's
      check still holds and the role is one the keyboard offers, the deal
      is between two distinct registered users and its amount is positive. */
  method ChooseCurrency(conv: Conversation, ledger: Ledger, data: string, username: string,
                        now: int, stamp: string) returns (reply: Reply)
    requires conv.Valid() && ledger.Valid()
    requires conv.step == Some(WaitingForCurrency) && StartsWith(data, "currency:")
    modifies conv, ledger
    ensures conv.Valid() && conv.Cleared() && ledger.Valid()
    ensures ledger.users == Registered(old(ledger.users), conv.owner, username)
    ensures old(AllCompletionSound(ledger.deals)) ==> AllCompletionSound(ledger.deals)
    ensures Field(data, ':', 1).Some?
    ensures var me := RegisteredUser(old(ledger.users), conv.owner, username);
            var currency := Field(data, ':', 1).value;
            var role := old(conv.role.value);
            var partnerId := old(conv.partnerId.value);
            var buyerId := BuyerOf(role, me.userId, partnerId);
            var sellerId := SellerOf(role, me.userId, partnerId);
            if role == "seller" && !HasWallet(me, currency) then
              && reply == NoSellerWallet
              && ledger.deals == old(ledger.deals)
              && ledger.log == old(ledger.log) + RegistrationLog(old(ledger.users), conv.owner)
            else
              var dealId := |old(ledger.deals)| + 1;
              && reply == DealOpened(dealId)
              && ledger.deals == old(ledger.deals) + [NewDeal(dealId, buyerId, sellerId, old(conv.amount.value), currency,
                                                              GarantAddress(currency, stamp),
                                                              now + DealExpiryHours * SecondsPerHour)]
              && ledger.log == old(ledger.log) + RegistrationLog(old(ledger.users), conv.owner)
                               + [LogEntry(buyerId, "deal_created", DealCreated(dealId, old(conv.amount.value), currency))]
    ensures reply.DealOpened? && old(PartnerChecked(conv, ledger.users))
            && (old(conv.role) == Some("buyer") || old(conv.role) == Some("seller")) ==>
              var d := ledger.deals[|ledger.deals| - 1];
              && d.buyerId != d.sellerId && d.amount > 0.0
              && UserById(ledger.users, d.buyerId).Some? && UserById(ledger.users, d.sellerId).Some?
  {
    assert "currency" + ":" == "currency:";
    FieldAfterPrefix(data, "currency");
    var currency := Field(data, ':', 1).value;
    var role, partnerId, amount := conv.role.value, conv.partnerId.value, conv.amount.value;
    ghost var checked := PartnerChecked(conv, ledger.users);
    ghost var before := ledger.users;
    RegistrationSound(before, conv.owner, username);
    var me := ledger.GetOrCreateUser(conv.owner, username);
    if role == "seller" && !HasWallet(me, currency) {
      conv.Clear();
      return NoSellerWallet;
    }
    var buyerId, sellerId := BuyerOf(role, me.userId, partnerId), SellerOf(role, me.userId, partnerId);
    if checked && (role == "buyer" || role == "seller") {
      assert me.userId != partnerId && 1 <= partnerId <= |ledger.users|;
      assert 1 <= me.userId <= |ledger.users| by {
        var i :| 0 <= i < |ledger.users| && ledger.users[i] == me;
      }
      PartiesFromRole(role, me.userId, partnerId);
    }
    var dealId := ledger.CreateDeal(buyerId, sellerId, amount, currency, GarantAddress(currency, stamp),
                                    now + DealExpiryHours * SecondsPerHour);
    conv.Clear();
    reply := DealOpened(dealId);
  }

  // ===================== the deal buttons =====================

  /** confirm_creation: any caller may confirm, whatever the deal's status
      and whoever created it; a missing deal is refused before the caller
      is registered. */
  method ConfirmCreation(ledger: Ledger, callerTg: int, username: string, data: string) returns (reply: Reply)
    requires ledger.Valid()
    modifies ledger
    ensures ledger.Valid() && RowsKept(old(ledger.users), ledger.users)
    ensures old(AllCompletionSound(ledger.deals)) ==> AllCompletionSound(ledger.deals)
    ensures Keyboards.DealIdOf(data).None? ==> reply == Failed && unchanged(ledger)
    ensures Keyboards.DealIdOf(data).Some? ==>
              var dealId := Keyboards.DealIdOf(data).value;
              var me := RegisteredUser(old(ledger.users), callerTg, username);
              match DealById(old(ledger.deals), dealId)
              case None => reply == DealNotFound && unchanged(ledger)
              case Some(d) =>
                && reply == Done
                && ledger.users == Registered(old(ledger.users), callerTg, username)
                && ledger.deals == Put(old(ledger.deals), dealId, ConfirmedCreation(d))
                && ledger.log == old(ledger.log) + RegistrationLog(old(ledger.users), callerTg)
                                 + [LogEntry(me.userId, "deal_confirmed", DealRef(dealId))]
  {
    var parsed := Keyboards.DealIdOf(data);
    if parsed.None? {
      return Failed;
    }
    var dealId := parsed.value;
    if DealById(ledger.deals, dealId).None? {
      return DealNotFound;
    }
    var me := ledger.GetOrCreateUser(callerTg, username);
    ledger.ConfirmDealCreation(dealId, me.userId);
    reply := Done;
  }

  /** reject_creation: any caller may reject, whatever the deal's status;
      the deal is cancelled. */
  method RejectCreation(ledger: Ledger, callerTg: int, username: string, data: string) returns (reply: Reply)
    requires ledger.Valid()
    modifies ledger
    ensures ledger.Valid() && RowsKept(old(ledger.users), ledger.users)
    ensures old(AllCompletionSound(ledger.deals)) ==> AllCompletionSound(ledger.deals)
    ensures Keyboards.DealIdOf(data).None? ==> reply == Failed && unchanged(ledger)
    ensures Keyboards.DealIdOf(data).Some? ==>
              var dealId := Keyboards.DealIdOf(data).value;
              var me := RegisteredUser(old(ledger.users), callerTg, username);
              match DealById(old(ledger.deals), dealId)
              case None => reply == DealNotFound && unchanged(ledger)
              case Some(d) =>
                && reply == Done
                && ledger.users == Registered(old(ledger.users), callerTg, username)
                && ledger.deals == Put(old(ledger.deals), dealId, WithStatus(d, Cancelled))
                && ledger.log == old(ledger.log) + RegistrationLog(old(ledger.users), callerTg)
                                 + [LogEntry(me.userId, "deal_cancelled", DealRef(dealId))]
  {
    var parsed := Keyboards.DealIdOf(data);
    if parsed.None? {
      return Failed;
    }
    var dealId := parsed.value;
    if DealById(ledger.deals, dealId).None? {
      return DealNotFound;
    }
    var me := ledger.GetOrCreateUser(callerTg, username);
    ledger.CancelDeal(dealId, me.userId);
    reply := Done;
  }

  /** confirm_delivery_callback: the caller counts as the buyer exactly when
      its user id is the deal's buyer id, and as the seller otherwise, even
      when it is no party to the deal. The completion reply is given exactly
      when the deal's status afterwards is completed. */
  method ConfirmDeliveryCallback(ledger: Ledger, callerTg: int, username: string, data: string)
    returns (reply: Reply)
    requires ledger.Valid()
    modifies ledger
    ensures ledger.Valid() && RowsKept(old(ledger.users), ledger.users)
    ensures old(AllCompletionSound(ledger.deals)) ==> AllCompletionSound(ledger.deals)
    ensures Keyboards.DealIdOf(data).None? ==> reply == Failed && unchanged(ledger)
    ensures Keyboards.DealIdOf(data).Some? ==>
              var dealId := Keyboards.DealIdOf(data).value;
              var me := RegisteredUser(old(ledger.users), callerTg, username);
              match DealById(old(ledger.deals), dealId)
              case None => reply == DealNotFound && unchanged(ledger)
              case Some(d) =>
                var after := DeliveryConfirmed(d, me.userId == d.buyerId);
                && ledger.users == Registered(old(ledger.users), callerTg, username)
                && ledger.deals == Put(old(ledger.deals), dealId, after)
                && ledger.log == old(ledger.log) + RegistrationLog(old(ledger.users), callerTg)
                                 + (if BothConfirmed(after) then [LogEntry(me.userId, "deal_completed", DealRef(dealId))]
                                    else [])
                && (reply == DealCompletedNotice <==> after.status == Completed)
                && (reply == DealCompletedNotice || reply == AwaitingOtherParty)
  {
    var parsed := Keyboards.DealIdOf(data);
    if parsed.None? {
      return Failed;
    }
    var dealId := parsed.value;
    var deal := DealById(ledger.deals, dealId);
    if deal.None? {
      return DealNotFound;
    }
    var me := ledger.GetOrCreateUser(callerTg, username);
    var isBuyer := me.userId == deal.value.buyerId;
    ledger.ConfirmDelivery(dealId, me.userId, isBuyer);
    var now := DealById(ledger.deals, dealId);
    if now.value.status == Completed {
      reply := DealCompletedNotice;
    } else {
      reply := AwaitingOtherParty;
    }
  }

  /** While every completed deal carries both flags, the completion reply
      of a delivery confirmation comes exactly with a logged completion. */
  lemma CompletionReplyLogged(d: Deal, isBuyer: bool)
    requires CompletionSound(d)
    ensures DeliveryConfirmed(d, isBuyer).status == Completed <==> BothConfirmed(DeliveryConfirmed(d, isBuyer))
  {
  }

  /** cancel_deal_callback: no lookup, no party check and no status check:
      any caller cancels any deal, completed ones included, and the
      cancellation is logged even when no deal has the id. */
  method CancelDealCallback(ledger: Ledger, callerTg: int, username: string, data: string) returns (reply: Reply)
    requires ledger.Valid()
    modifies ledger
    ensures ledger.Valid() && RowsKept(old(ledger.users), ledger.users)
    ensures old(AllCompletionSound(ledger.deals)) ==> AllCompletionSound(ledger.deals)
    ensures Keyboards.DealIdOf(data).None? ==> reply == Failed && unchanged(ledger)
    ensures Keyboards.DealIdOf(data).Some? ==>
              var dealId := Keyboards.DealIdOf(data).value;
              var me := RegisteredUser(old(ledger.users), callerTg, username);
              && reply == Done
              && ledger.users == Registered(old(ledger.users), callerTg, username)
              && (DealById(old(ledger.deals), dealId).None? ==> ledger.deals == old(ledger.deals))
              && (DealById(old(ledger.deals), dealId).Some? ==>
                    ledger.deals == Put(old(ledger.deals), dealId,
                                        WithStatus(DealById(old(ledger.deals), dealId).value, Cancelled)))
              && ledger.log == old(ledger.log) + RegistrationLog(old(ledger.users), callerTg)
                               + [LogEntry(me.userId, "deal_cancelled", DealRef(dealId))]
  {
    var parsed := Keyboards.DealIdOf(data);
    if parsed.None? {
      return Failed;
    }
    var me := ledger.GetOrCreateUser(callerTg, username);
    ledger.CancelDeal(parsed.value, me.userId);
    reply := Done;
  }

  /** payment_sent: only the deal's buyer may report the transfer, which
      puts the deal under the administrator's review whatever its status. */
  method PaymentSent(ledger: Ledger, callerTg: int, username: string, data: string) returns (reply: Reply)
    requires ledger.Valid()
    modifies ledger
    ensures ledger.Valid() && RowsKept(old(ledger.users), ledger.users)
    ensures old(AllCompletionSound(ledger.deals)) ==> AllCompletionSound(ledger.deals)
    ensures Keyboards.DealIdOf(data).None? ==> reply == Failed && unchanged(ledger)
    ensures Keyboards.DealIdOf(data).Some? ==>
              var dealId := Keyboards.DealIdOf(data).value;
              var me := RegisteredUser(old(ledger.users), callerTg, username);
              match DealById(old(ledger.deals), dealId)
              case None => reply == DealNotFound && unchanged(ledger)
              case Some(d) =>
                && ledger.users == Registered(old(ledger.users), callerTg, username)
                && ledger.log == old(ledger.log) + RegistrationLog(old(ledger.users), callerTg)
                && (me.userId != d.buyerId ==> reply == NotTheBuyer && ledger.deals == old(ledger.deals))
                && (me.userId == d.buyerId ==>
                      reply == Done
                      && ledger.deals == Put(old(ledger.deals), dealId, WithStatus(d, AwaitingAdminConfirmation)))
  {
    var parsed := Keyboards.DealIdOf(data);
    if parsed.None? {
      return Failed;
    }
    var dealId := parsed.value;
    var deal := DealById(ledger.deals, dealId);
    if deal.None? {
      return DealNotFound;
    }
    var me := ledger.GetOrCreateUser(callerTg, username);
    if me.userId != deal.value.buyerId {
      return NotTheBuyer;
    }
    ledger.UpdateDealStatus(dealId, AwaitingAdminConfirmation);
    reply := Done;
  }
}
