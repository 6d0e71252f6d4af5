/** The inline keyboards: which action buttons a deal screen offers for a
    status, and the `prefix:deal_id` callback data that the buttons carry
    and the handlers read back with `split(':')[1]`. */
module Keyboards {
  import opened Text
  import opened DealStatus

  datatype Action =
    | ConfirmReceipt     // "confirm receipt" on a deal screen
    | CancelTheDeal      // "cancel the deal"
    | BackToDeals        // "back to my deals"
    | ConfirmCreation    // the counterparty accepts a new deal
    | RejectCreation     // the counterparty rejects it
    | PaymentSent        // the buyer reports the transfer
    | AdminConfirm       // the admin confirms the transfer
    | AdminReject        // the admin rejects it
    | GoodsReceived      // the buyer confirms the goods arrived
    | MyDeals            // main menu: "my deals"
    | CreateDeal         // main menu: "create a deal"
    | OpenProfile        // main menu: "my profile"
    | ManageWallets      // main menu: "manage wallets"
    | PickRole           // "I am the buyer" / "I am the seller"
    | PickCurrency       // "TON" / "BTC"
    | BackToMenu         // "back" to the main menu

  datatype Button = Button(action: Action, data: string)

  const ConfirmCreationPrefix := "confirm_creation"
  const RejectCreationPrefix := "reject_creation"
  const ConfirmDeliveryPrefix := "confirm_delivery"
  const CancelDealPrefix := "cancel_deal"
  const PaymentSentPrefix := "payment_sent"
  const AdminConfirmPrefix := "admin_confirm"
  const AdminRejectPrefix := "admin_reject"
  const ConfirmReceivedPrefix := "confirm_received"

  /** `f"{prefix}:{deal_id}"`. */
  function CallbackData(prefix: string, dealId: int): string {
    prefix + ":" + IntToString(dealId)
  }

  /** `int(data.split(":")[1])` as the deal handlers read it; None where Python
      raises IndexError or ValueError. */
  function DealIdOf(data: string): (r: Option<int>)
    ensures ':' !in data ==> r.None?
  {
    // without a ':' the split has one part and `[1]` raises
    if ':' !in data then SplitNoSeparator(data, ':'); None
    else match Field(data, ':', 1)
    case None => None
    case Some(text) => ParseInt(text)
  }

  /** The handlers read back exactly the id a button was built with. */
  lemma {:induction false} DealIdOfCallbackData(prefix: string, dealId: int)
    requires ':' !in prefix
    ensures DealIdOf(CallbackData(prefix, dealId)) == Some(dealId)
  {
    var digits := IntToString(dealId);
    IntToStringHasNo(dealId, ':');
    assert CallbackData(prefix, dealId) == prefix + [':'] + digits;
    SplitAtFirst(prefix, ':', digits);
    SplitNoSeparator(digits, ':');
    ParseIntToString(dealId);
  }

  /** The buttons of a deal screen, built from the status text alone. */
  function DealActions(dealId: int, role: string, status: string): (r: seq<Button>)
    ensures 1 <= |r| <= 2
    ensures r[|r| - 1] == Button(BackToDeals, "my_deals")
  {
    var delivery :=
      if status == "payment_received" || status == "awaiting_delivery"
      then [Button(ConfirmReceipt, CallbackData(ConfirmDeliveryPrefix, dealId))] else [];
    var cancel :=
      if status in ["awaiting_confirmation", "awaiting_payment"]
      then [Button(CancelTheDeal, CallbackData(CancelDealPrefix, dealId))] else [];
    delivery + cancel + [Button(BackToDeals, "my_deals")]
  }

  predicate Offers(buttons: seq<Button>, a: Action) {
    exists i :: 0 <= i < |buttons| && buttons[i].action == a
  }

  /** The delivery button appears exactly for the two delivery statuses, the
      cancel button exactly for the two pre-payment statuses, so never both. */
  lemma DealActionsOffers(dealId: int, role: string, status: string)
    ensures Offers(DealActions(dealId, role, status), ConfirmReceipt)
            <==> status == "payment_received" || status == "awaiting_delivery"
    ensures Offers(DealActions(dealId, role, status), CancelTheDeal)
            <==> status == "awaiting_confirmation" || status == "awaiting_payment"
    ensures !(Offers(DealActions(dealId, role, status), ConfirmReceipt)
              && Offers(DealActions(dealId, role, status), CancelTheDeal))
  {
    var r := DealActions(dealId, role, status);
    if Offers(r, ConfirmReceipt) {
      var i :| 0 <= i < |r| && r[i].action == ConfirmReceipt;
    }
    if Offers(r, CancelTheDeal) {
      var i :| 0 <= i < |r| && r[i].action == CancelTheDeal;
    }
    if status == "payment_received" || status == "awaiting_delivery" {
      assert r[0].action == ConfirmReceipt;
    }
    if status == "awaiting_confirmation" || status == "awaiting_payment" {
      assert r[0].action == CancelTheDeal;
    }
  }

  /** No stored status is "awaiting_delivery", so for a deal read from the
      ledger the delivery button depends on payment_received alone. */
  lemma StoredStatusDeliveryButton(dealId: int, role: string, s: Status)
    ensures Offers(DealActions(dealId, role, Name(s)), ConfirmReceipt) <==> s == PaymentReceived
  {
    DealActionsOffers(dealId, role, Name(s));
    if Name(s) == "awaiting_delivery" {
      match s
      case AwaitingConfirmation =>
      case AwaitingPayment =>
      case AwaitingAdminConfirmation =>
      case PaymentReceived =>
      case PaymentRejected =>
      case Completed =>
      case Cancelled =>
      case Expired =>
    }
    NameInjective(s, PaymentReceived);
  }

  function ConfirmDealCreation(dealId: int): seq<Button> {
    [Button(ConfirmCreation, CallbackData(ConfirmCreationPrefix, dealId)),
     Button(RejectCreation, CallbackData(RejectCreationPrefix, dealId))]
  }

  function PaymentConfirmationKeyboard(dealId: int): seq<Button> {
    [Button(PaymentSent, CallbackData(PaymentSentPrefix, dealId)),
     Button(CancelTheDeal, CallbackData(CancelDealPrefix, dealId))]
  }

  function AdminConfirmationKeyboard(dealId: int): seq<Button> {
    [Button(AdminConfirm, CallbackData(AdminConfirmPrefix, dealId)),
     Button(AdminReject, CallbackData(AdminRejectPrefix, dealId))]
  }

  function BuyerConfirmDeliveryKeyboard(dealId: int): seq<Button> {
    [Button(GoodsReceived, CallbackData(ConfirmReceivedPrefix, dealId))]
  }

  function MainMenu(): seq<Button> {
    [Button(MyDeals, "my_deals"), Button(CreateDeal, "create_deal"),
     Button(OpenProfile, "profile"), Button(ManageWallets, "wallets")]
  }

  function DealTypeChoice(): seq<Button> {
    [Button(PickRole, "deal_role:buyer"), Button(PickRole, "deal_role:seller"),
     Button(BackToMenu, "back_main")]
  }

  function CurrencyChoice(): seq<Button> {
    [Button(PickCurrency, "currency:TON"), Button(PickCurrency, "currency:BTC"),
     Button(BackToMenu, "back_main")]
  }

  /** Every inline keyboard a handler attaches to a message it sends for a
      deal. DealActions is not among them: no handler sends it. */
  function SentKeyboards(dealId: int): seq<seq<Button>> {
    [MainMenu(), DealTypeChoice(), CurrencyChoice(), ConfirmDealCreation(dealId),
     PaymentConfirmationKeyboard(dealId), AdminConfirmationKeyboard(dealId),
     BuyerConfirmDeliveryKeyboard(dealId)]
  }

  /** Data that differs from "confirm_delivery:" at some position within
      its length does not start with it. */
  lemma NotDeliveryData(data: string, k: nat)
    requires k < |data| && k < 17 && data[k] != "confirm_delivery:"[k]
    ensures !StartsWith(data, "confirm_delivery:")
  {
  }

  /** No button of any keyboard the handlers send carries `confirm_delivery:`
      data, so nothing a user is offered reaches the delivery handler: only
      DealActions builds such a button. */
  lemma NoSentButtonConfirmsDelivery(dealId: int)
    ensures forall kb, b :: kb in SentKeyboards(dealId) && b in kb ==> !StartsWith(b.data, "confirm_delivery:")
  {
    forall kb, b | kb in SentKeyboards(dealId) && b in kb
      ensures !StartsWith(b.data, "confirm_delivery:")
    {
      if kb == MainMenu() || kb == DealTypeChoice() || kb == CurrencyChoice() {
        NotDeliveryData(b.data, 1);
      } else {
        if b.data == CallbackData(ConfirmCreationPrefix, dealId) {
          NotDeliveryData(b.data, 8);
        } else if b.data == CallbackData(ConfirmReceivedPrefix, dealId) {
          NotDeliveryData(b.data, 8);
        } else if b.data == CallbackData(CancelDealPrefix, dealId) {
          NotDeliveryData(b.data, 1);
        } else {
          NotDeliveryData(b.data, 0);
        }
      }
    }
  }

  /** Every deal-id button of these keyboards carries its deal's id back to
      the handler that reads it. */
  lemma KeyboardsCarryDealId(dealId: int)
    ensures forall b :: b in ConfirmDealCreation(dealId) ==> DealIdOf(b.data) == Some(dealId)
    ensures forall b :: b in PaymentConfirmationKeyboard(dealId) ==> DealIdOf(b.data) == Some(dealId)
    ensures forall b :: b in AdminConfirmationKeyboard(dealId) ==> DealIdOf(b.data) == Some(dealId)
    ensures forall b :: b in BuyerConfirmDeliveryKeyboard(dealId) ==> DealIdOf(b.data) == Some(dealId)
  {
    var prefixes := [ConfirmCreationPrefix, RejectCreationPrefix, PaymentSentPrefix, CancelDealPrefix,
                     AdminConfirmPrefix, AdminRejectPrefix, ConfirmReceivedPrefix];
    forall k | 0 <= k < |prefixes| ensures DealIdOf(CallbackData(prefixes[k], dealId)) == Some(dealId) {
      DealIdOfCallbackData(prefixes[k], dealId);
    }
    assert DealIdOf(CallbackData(prefixes[0], dealId)) == Some(dealId);
    assert DealIdOf(CallbackData(prefixes[1], dealId)) == Some(dealId);
    assert DealIdOf(CallbackData(prefixes[2], dealId)) == Some(dealId);
    assert DealIdOf(CallbackData(prefixes[3], dealId)) == Some(dealId);
    assert DealIdOf(CallbackData(prefixes[4], dealId)) == Some(dealId);
    assert DealIdOf(CallbackData(prefixes[5], dealId)) == Some(dealId);
    assert DealIdOf(CallbackData(prefixes[6], dealId)) == Some(dealId);
  }

  /** The callback filters the bot's routers register: exact matches and
      `startswith` prefixes. */
  const ExactRoutes: set<string> :=
    {"create_deal", "my_deals", "wallets", "profile", "back_main", "get_my_id"}
  const PrefixRoutes: seq<string> :=
    ["deal_role:", "currency:", "confirm_creation:", "reject_creation:", "confirm_delivery:",
     "cancel_deal:", "payment_sent:", "admin_confirm:", "admin_reject:"]

  predicate Routed(data: string) {
    data in ExactRoutes || exists i :: 0 <= i < |PrefixRoutes| && StartsWith(data, PrefixRoutes[i])
  }

  /** No registered filter accepts callback data that begins "confirm_received:". */
  lemma ConfirmReceivedUnrouted(data: string)
    requires StartsWith(data, "confirm_received:")
    ensures !Routed(data)
  {
    assert data[0] == 'c' && data[1] == 'o' && data[8] == 'r';
    forall e | e in ExactRoutes ensures data != e {
      assert |e| < 17;
    }
    forall i | 0 <= i < |PrefixRoutes|
      ensures !StartsWith(data, PrefixRoutes[i])
    {
      var p := PrefixRoutes[i];
      var k := if p[0] != 'c' then 0 else if p[1] != 'o' then 1 else 8;
      assert p[k] != data[k];
    }
  }

  /** The buyer's "goods received" button, sent after the admin confirms the
      transfer, carries a prefix that no handler is registered for: in
      particular it is not the `confirm_delivery:` the delivery handler
      expects, so pressing it never reaches the ledger. */
  lemma GoodsReceivedButtonUnrouted(dealId: int)
    ensures !Routed(BuyerConfirmDeliveryKeyboard(dealId)[0].data)
    ensures !StartsWith(BuyerConfirmDeliveryKeyboard(dealId)[0].data, "confirm_delivery:")
  {
    var data := BuyerConfirmDeliveryKeyboard(dealId)[0].data;
    assert data == "confirm_received:" + IntToString(dealId);
    assert StartsWith(data, "confirm_received:");
    ConfirmReceivedUnrouted(data);
    assert StartsWith(data, PrefixRoutes[4]) == StartsWith(data, "confirm_delivery:");
  }
}
