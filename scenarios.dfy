/** Whole conversations run against a fresh ledger, their outcome stated
    and proved from the handlers' contracts alone. */
module Scenarios {
  import opened Text
  import opened DealStatus
  import opened Config
  import opened Ledger
  import opened Wizard
  import opened DealHandlers
  import AdminHandlers
  import Keyboards

  /** The deal ids the buttons carry are read back by the handlers. */
  lemma ButtonsCarryId(dealId: int)
    ensures Keyboards.DealIdOf(Keyboards.CallbackData(Keyboards.ConfirmCreationPrefix, dealId)) == Some(dealId)
    ensures Keyboards.DealIdOf(Keyboards.CallbackData(Keyboards.PaymentSentPrefix, dealId)) == Some(dealId)
    ensures Keyboards.DealIdOf(Keyboards.CallbackData(Keyboards.AdminConfirmPrefix, dealId)) == Some(dealId)
    ensures Keyboards.DealIdOf(Keyboards.CallbackData(Keyboards.ConfirmDeliveryPrefix, dealId)) == Some(dealId)
    ensures Keyboards.DealIdOf(Keyboards.CallbackData(Keyboards.CancelDealPrefix, dealId)) == Some(dealId)
  {
    Keyboards.DealIdOfCallbackData(Keyboards.ConfirmCreationPrefix, dealId);
    Keyboards.DealIdOfCallbackData(Keyboards.PaymentSentPrefix, dealId);
    Keyboards.DealIdOfCallbackData(Keyboards.AdminConfirmPrefix, dealId);
    Keyboards.DealIdOfCallbackData(Keyboards.ConfirmDeliveryPrefix, dealId);
    Keyboards.DealIdOfCallbackData(Keyboards.CancelDealPrefix, dealId);
  }

  /** A seller (Telegram id 200) has used the bot before; a buyer
      (Telegram id 100) starts the creation dialogue and picks "buyer". */
  method BuyerPicksRole(role: string) returns (ledger: Ledger, buyer: Conversation)
    requires role == "buyer"
    ensures fresh(ledger) && fresh(buyer) && ledger.Valid() && buyer.Valid()
    ensures ledger.users == [NewUser(1, 200, "bob"), NewUser(2, 100, "alice")] && ledger.deals == []
    ensures buyer.owner == 100 && buyer.step == Some(WaitingForPartnerId) && buyer.role == Some("buyer")
  {
    ledger := new Ledger();
    buyer := new Conversation(100);
    var _ := ledger.GetOrCreateUser(200, "bob");
    assert ledger.users == [NewUser(1, 200, "bob")];
    var r := StartDealCreation(buyer);
    var data := "deal_role:" + role;
    assert data[10..] == role && ':' !in role;
    SplitNoSeparator(role, ':');
    r := ChooseRole(buyer, ledger, data, "alice");
  }

  /** The buyer names the seller's user id 1 and the amount 100. */
  method BuyerNamesPartnerAndAmount(ledger: Ledger, buyer: Conversation)
    requires ledger.Valid() && buyer.Valid()
    requires ledger.users == [NewUser(1, 200, "bob"), NewUser(2, 100, "alice")] && ledger.deals == []
    requires buyer.owner == 100 && buyer.step == Some(WaitingForPartnerId) && buyer.role == Some("buyer")
    modifies ledger, buyer
    ensures ledger.Valid() && buyer.Valid() && PartnerChecked(buyer, ledger.users)
    ensures ledger.users == old(ledger.users) && ledger.deals == []
    ensures buyer.step == Some(WaitingForCurrency) && buyer.role == Some("buyer")
    ensures buyer.partnerId == Some(1) && buyer.amount == Some(100.0)
  {
    assert FindByTelegram(ledger.users, 100) == Some(NewUser(2, 100, "alice"));
    ParseIntToString(1);
    var r := EnterPartnerId(buyer, ledger, IntToString(1), "alice");
    r := EnterAmount(buyer, Some(100.0));
  }

  /** The buyer picks TON at time 0: deal 1 is opened with the buyer as
      user 2 and the seller as user 1, expiring at 7200. */
  method BuyerOpensDeal(role: string, currency: string) returns (ledger: Ledger)
    requires role == "buyer" && currency == "TON"
    ensures fresh(ledger) && ledger.Valid()
    ensures ledger.users == [NewUser(1, 200, "bob"), NewUser(2, 100, "alice")]
    ensures ledger.deals == [NewDeal(1, 2, 1, 100.0, "TON", GarantAddress("TON", "0"), 7200)]
  {
    var buyer;
    ledger, buyer := BuyerPicksRole(role);
    BuyerNamesPartnerAndAmount(ledger, buyer);
    assert FindByTelegram(ledger.users, 100) == Some(NewUser(2, 100, "alice"));
    var data := "currency:" + currency;
    assert data[9..] == currency && ':' !in currency;
    SplitNoSeparator(currency, ':');
    assert data == "currency" + [':'] + currency;
    SplitAtFirst("currency", ':', currency);
    assert Field(data, ':', 1) == Some(currency);
    ghost var me := RegisteredUser(ledger.users, 100, "alice");
    assert me.userId == 2 && me == NewUser(2, 100, "alice");
    var r := ChooseCurrency(buyer, ledger, data, "alice", 0, "0");
    assert r == DealOpened(1);
  }

  /** The seller accepts, the buyer reports the transfer and the
      administrator confirms it. */
  method AcceptAndPay(ledger: Ledger)
    requires ledger.Valid()
    requires ledger.users == [NewUser(1, 200, "bob"), NewUser(2, 100, "alice")]
    requires |ledger.deals| == 1 && ledger.deals[0].buyerId == 2 && ledger.deals[0].sellerId == 1
    modifies ledger
    ensures ledger.Valid() && ledger.users == old(ledger.users) && |ledger.deals| == 1
    ensures ledger.deals[0] == old(ledger.deals[0]).(creationConfirmed := true, status := PaymentReceived)
  {
    ButtonsCarryId(1);
    var r := ConfirmCreation(ledger, 200, "bob", Keyboards.CallbackData(Keyboards.ConfirmCreationPrefix, 1));
    r := PaymentSent(ledger, 100, "alice", Keyboards.CallbackData(Keyboards.PaymentSentPrefix, 1));
    assert r == Done;
    var a := AdminHandlers.AdminConfirmPayment(ledger, AdminId, Keyboards.CallbackData(Keyboards.AdminConfirmPrefix, 1));
  }

  /** A buyer opens a deal of 100 TON with a registered seller, who accepts
      it; the buyer reports the transfer, the administrator confirms it,
      and both parties confirm delivery with the button DealActions builds.
      No handler sends that keyboard (Keyboards.NoSentButtonConfirmsDelivery),
      so this is what the ledger would do if one did. The deal ends
      completed with a commission of 1, the buyer's confirmation alone does
      not complete it, and the seller's does. */
  method BuyerOpensAndCompletes(role: string, currency: string)
    returns (status: Status, commission: real, first: Reply, second: Reply)
    requires role == "buyer" && currency == "TON"
    ensures status == Completed && commission == 1.0
    ensures first == AwaitingOtherParty && second == DealCompletedNotice
  {
    var ledger := BuyerOpensDeal(role, currency);
    AcceptAndPay(ledger);
    ButtonsCarryId(1);
    first := ConfirmDeliveryCallback(ledger, 100, "alice", Keyboards.CallbackData(Keyboards.ConfirmDeliveryPrefix, 1));
    second := ConfirmDeliveryCallback(ledger, 200, "bob", Keyboards.CallbackData(Keyboards.ConfirmDeliveryPrefix, 1));
    status, commission := ledger.deals[0].status, ledger.deals[0].commission;
  }

  /** A deal confirmed at time 0 and left unpaid is expired by the sweep
      two hours and a second later; a second sweep changes nothing, the
      administrator's cancel command refuses the expired deal, yet the
      plain cancel button still rewrites it to cancelled. */
  method UnpaidDealExpires() returns (afterSweep: Status, secondSweepChanged: bool,
                                      adminReply: AdminHandlers.AdminReply, finalStatus: Status)
    ensures afterSweep == Expired && !secondSweepChanged
    ensures adminReply == AdminHandlers.AlreadyClosed && finalStatus == Cancelled
  {
    var ledger := new Ledger();
    var buyer := ledger.GetOrCreateUser(100, "alice");
    var seller := ledger.GetOrCreateUser(200, "bob");
    var expiry := 0 + DealExpiryHours * SecondsPerHour;
    var dealId := ledger.CreateDeal(buyer.userId, seller.userId, 5.0, "BTC", "GARANT_BTC_0", expiry);
    ButtonsCarryId(dealId);
    var r := ConfirmCreation(ledger, 200, "bob", Keyboards.CallbackData(Keyboards.ConfirmCreationPrefix, dealId));
    assert ledger.deals[0].status == AwaitingPayment && ledger.deals[0].expiryTime == 7200;

    ghost var confirmed := ledger.deals;
    ledger.ExpireOldDeals(7201);
    afterSweep := ledger.deals[0].status;
    var before := ledger.deals;
    SweepIdempotent(confirmed, 7201);
    ledger.ExpireOldDeals(7201);
    secondSweepChanged := ledger.deals != before;

    AdminHandlers.CancelCommandRoundTrip(dealId);
    adminReply := AdminHandlers.CmdCancelDeal(ledger, AdminId, AdminHandlers.CancelCommand(dealId));
    r := CancelDealCallback(ledger, 300, "mallory", Keyboards.CallbackData(Keyboards.CancelDealPrefix, dealId));
    finalStatus := ledger.deals[0].status;
  }
}
