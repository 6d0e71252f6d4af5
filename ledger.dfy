/** The deal ledger of bot/database.py with its three tables held in memory:
    users, deals and the append-only event log. Row k of a table (counting
    from 0) carries id k + 1, as the tables' serial keys assign them; no row
    is ever deleted. The read-only queries are functions of the table
    contents; the statements that change rows are methods of `Ledger`. */
module Ledger {
  import opened Text
  import opened DealStatus
  import opened Seqs

  datatype Role = RegularUser | Administrator

  datatype User = User(
    userId: int,
    telegramId: int,
    username: string,
    role: Role,
    walletTon: Option<string>,
    walletBtc: Option<string>,
    totalDeals: int,      // stored column, never written by the modelled code
    successRate: real)    // stored column, never written by the modelled code

  /** `payment_status`; a new row holds the column default, which the code
      never names. */
  datatype PaymentStatus = PaymentPending | Paid | PaymentConfirmed

  datatype Deal = Deal(
    dealId: int,
    buyerId: int,
    sellerId: int,
    amount: real,
    currency: string,
    garantAddress: string,   // opaque escrow address text
    expiryTime: int,
    commission: real,
    status: Status,
    paymentStatus: PaymentStatus,
    creationConfirmed: bool,
    buyerConfirm: bool,
    sellerConfirm: bool)

  /** The `details` payload of an event; its JSON text is not modelled. */
  datatype Details =
    | UserRegistered(telegramId: int)
    | WalletUpdated(currency: string, wallet: string)
    | DealCreated(dealId: int, amount: real, currency: string)
    | DealRef(dealId: int)

  datatype LogEntry = LogEntry(initiator: int, action: string, details: Details)

  // ===================== users =====================

  predicate UsersKeyed(users: seq<User>) {
    forall i :: 0 <= i < |users| ==> users[i].userId == i + 1
  }

  predicate TelegramIdsUnique(users: seq<User>) {
    forall i, j :: 0 <= i < j < |users| ==> users[i].telegramId != users[j].telegramId
  }

  /** The row `INSERT INTO users (telegram_id, username, role)` creates. */
  function NewUser(userId: int, telegramId: int, username: string): User {
    User(userId, telegramId, username, RegularUser, None, None, 0, 0.0)
  }

  /** `SELECT * FROM users WHERE telegram_id = %s`. */
  function FindByTelegram(users: seq<User>, telegramId: int): (r: Option<User>)
    ensures r.Some? ==> r.value in users && r.value.telegramId == telegramId
    ensures r.None? <==> forall u :: u in users ==> u.telegramId != telegramId
    decreases |users|
  {
    if users == [] then None
    else if users[0].telegramId == telegramId then Some(users[0])
    else FindByTelegram(users[1..], telegramId)
  }

  /** `SELECT * FROM users WHERE user_id = %s` (get_user_by_id). */
  function UserById(users: seq<User>, userId: int): (r: Option<User>)
    requires UsersKeyed(users)
    ensures r.Some? ==> r.value in users && r.value.userId == userId
    ensures r.None? ==> forall u :: u in users ==> u.userId != userId
  {
    if 1 <= userId <= |users| then Some(users[userId - 1]) else None
  }

  /** The users table after get_or_create_user. */
  function Registered(users: seq<User>, telegramId: int, username: string): seq<User> {
    if FindByTelegram(users, telegramId).Some? then users
    else users + [NewUser(|users| + 1, telegramId, username)]
  }

  /** The row get_or_create_user returns. */
  function RegisteredUser(users: seq<User>, telegramId: int, username: string): User {
    match FindByTelegram(users, telegramId)
    case Some(u) => u
    case None => NewUser(|users| + 1, telegramId, username)
  }

  /** The events get_or_create_user appends. */
  function RegistrationLog(users: seq<User>, telegramId: int): seq<LogEntry> {
    if FindByTelegram(users, telegramId).Some? then []
    else [LogEntry(|users| + 1, "user_registered", UserRegistered(telegramId))]
  }

  lemma {:induction false} FindByTelegramUnique(users: seq<User>, u: User)
    requires TelegramIdsUnique(users)
    requires u in users
    ensures FindByTelegram(users, u.telegramId) == Some(u)
    decreases |users|
  {
    if users[0] != u {
      assert u in users[1..];
      var j :| 0 <= j < |users[1..]| && users[1..][j] == u;
      assert users[j + 1] == u;
      FindByTelegramUnique(users[1..], u);
    }
  }

  /** Getting or creating a user keeps the table keyed and the Telegram ids
      unique, keeps every existing row, and returns the one row that now
      carries the caller's Telegram id; a new row is a plain 'user' with the
      next id and no wallets. */
  lemma RegistrationSound(users: seq<User>, telegramId: int, username: string)
    requires UsersKeyed(users) && TelegramIdsUnique(users)
    ensures var r := Registered(users, telegramId, username);
            var u := RegisteredUser(users, telegramId, username);
            && UsersKeyed(r) && TelegramIdsUnique(r)
            && |users| <= |r| <= |users| + 1 && r[..|users|] == users
            && u in r && u.telegramId == telegramId
            && FindByTelegram(r, telegramId) == Some(u)
            && (|r| == |users| + 1 <==> FindByTelegram(users, telegramId).None?)
            && (|r| == |users| + 1 ==> u == NewUser(|users| + 1, telegramId, username))
  {
    var r := Registered(users, telegramId, username);
    var u := RegisteredUser(users, telegramId, username);
    assert u in r;
    FindByTelegramUnique(r, u);
  }

  /** A second contact with the same Telegram id changes nothing, logs
      nothing and returns the same row: the username is not refreshed. */
  lemma RegistrationIdempotent(users: seq<User>, telegramId: int, name: string, laterName: string)
    requires UsersKeyed(users) && TelegramIdsUnique(users)
    ensures var r := Registered(users, telegramId, name);
            && Registered(r, telegramId, laterName) == r
            && RegisteredUser(r, telegramId, laterName) == RegisteredUser(users, telegramId, name)
            && RegistrationLog(r, telegramId) == []
  {
    RegistrationSound(users, telegramId, name);
  }

  /** The wallet column update_wallet chooses: TON for "TON", BTC otherwise. */
  function WithWallet(u: User, currency: string, address: string): User {
    if currency == "TON" then u.(walletTon := Some(address)) else u.(walletBtc := Some(address))
  }

  /** The users table after update_wallet. */
  function WalletWritten(users: seq<User>, userId: int, currency: string, address: string): seq<User> {
    if 1 <= userId <= |users| then users[userId - 1 := WithWallet(users[userId - 1], currency, address)]
    else users
  }

  /** update_wallet writes the TON column for "TON" and the BTC column for any
      other currency, on the named user only, and leaves the other column. */
  lemma WalletWrittenEffect(users: seq<User>, userId: int, currency: string, address: string)
    requires UsersKeyed(users) && TelegramIdsUnique(users)
    ensures var r := WalletWritten(users, userId, currency, address);
            && UsersKeyed(r) && TelegramIdsUnique(r) && |r| == |users|
            && (forall k :: k != userId ==> UserById(r, k) == UserById(users, k))
            && (UserById(users, userId).None? ==> r == users)
            && (UserById(users, userId).Some? ==>
                  var before, after := UserById(users, userId).value, UserById(r, userId).value;
                  && after.(walletTon := before.walletTon, walletBtc := before.walletBtc) == before
                  && (currency == "TON" ==> after.walletTon == Some(address) && after.walletBtc == before.walletBtc)
                  && (currency != "TON" ==> after.walletBtc == Some(address) && after.walletTon == before.walletTon))
  {
  }

  /** A user has a payout address for a currency when the column the
      handlers consult (TON for "TON", BTC otherwise) is set and not empty. */
  predicate HasWallet(u: User, currency: string) {
    var w := if currency == "TON" then u.walletTon else u.walletBtc;
    w.Some? && w.value != ""
  }

  // ===================== deals =====================

  predicate DealsKeyed(deals: seq<Deal>) {
    forall i :: 0 <= i < |deals| ==> deals[i].dealId == i + 1
  }

  /** `SELECT * FROM deals WHERE deal_id = %s` (get_deal_by_id). */
  function DealById(deals: seq<Deal>, dealId: int): (r: Option<Deal>)
    requires DealsKeyed(deals)
    ensures r.Some? ==> r.value in deals && r.value.dealId == dealId
    ensures r.None? ==> forall d :: d in deals ==> d.dealId != dealId
  {
    if 1 <= dealId <= |deals| then Some(deals[dealId - 1]) else None
  }

  /** The row create_deal inserts: awaiting confirmation, commission one per
      cent of the amount, no flags set. */
  function NewDeal(dealId: int, buyerId: int, sellerId: int, amount: real, currency: string,
                   garantAddress: string, expiryTime: int): Deal {
    Deal(dealId, buyerId, sellerId, amount, currency, garantAddress, expiryTime, amount * 0.01,
         AwaitingConfirmation, PaymentPending, false, false, false)
  }

  /** The table with the row of id `dealId`, if there is one, replaced. */
  function Put(deals: seq<Deal>, dealId: int, row: Deal): (r: seq<Deal>)
    requires DealsKeyed(deals) && row.dealId == dealId
    ensures DealsKeyed(r) && |r| == |deals|
    ensures forall k :: k != dealId ==> DealById(r, k) == DealById(deals, k)
    ensures DealById(deals, dealId).None? ==> r == deals
    ensures DealById(deals, dealId).Some? ==> DealById(r, dealId) == Some(row)
  {
    if 1 <= dealId <= |deals| then deals[dealId - 1 := row] else deals
  }

  /** `UPDATE deals SET ... WHERE deal_id = %s`: the row with that id, if any,
      becomes f of itself; no other row changes. */
  function Updated(deals: seq<Deal>, dealId: int, f: Deal -> Deal): (r: seq<Deal>)
    requires DealsKeyed(deals)
    requires forall d :: f(d).dealId == d.dealId
    ensures DealsKeyed(r) && |r| == |deals|
    ensures forall k :: k != dealId ==> DealById(r, k) == DealById(deals, k)
    ensures DealById(deals, dealId).None? ==> r == deals
    ensures DealById(deals, dealId).Some? ==> DealById(r, dealId) == Some(f(DealById(deals, dealId).value))
  {
    match DealById(deals, dealId)
    case None => deals
    case Some(d) => Put(deals, dealId, f(d))
  }

  /** confirm_deal_creation's row update. */
  function ConfirmedCreation(d: Deal): Deal {
    d.(creationConfirmed := true, status := AwaitingPayment)
  }

  /** The row update of cancel_deal, update_deal_status and force_cancel_deal. */
  function WithStatus(d: Deal, s: Status): Deal {
    d.(status := s)
  }

  /** confirm_payment's row update. */
  function PaymentConfirmedDeal(d: Deal): Deal {
    d.(paymentStatus := Paid, status := PaymentReceived)
  }

  /** The first statement of confirm_delivery: one party's flag. */
  function FlagDelivery(d: Deal, isBuyer: bool): Deal {
    if isBuyer then d.(buyerConfirm := true) else d.(sellerConfirm := true)
  }

  predicate BothConfirmed(d: Deal) {
    d.buyerConfirm && d.sellerConfirm
  }

  /** confirm_delivery's whole effect on the row: set the caller's flag and,
      when both flags are then set, complete the deal. */
  function DeliveryConfirmed(d: Deal, isBuyer: bool): (r: Deal)
    ensures r.buyerConfirm == (d.buyerConfirm || isBuyer)
    ensures r.sellerConfirm == (d.sellerConfirm || !isBuyer)
    ensures r.status == (if BothConfirmed(r) then Completed else d.status)
    ensures r.paymentStatus == (if BothConfirmed(r) then PaymentConfirmed else d.paymentStatus)
    ensures r.(status := d.status, paymentStatus := d.paymentStatus, buyerConfirm := d.buyerConfirm,
               sellerConfirm := d.sellerConfirm) == d
  {
    var flagged := FlagDelivery(d, isBuyer);
    if BothConfirmed(flagged) then flagged.(status := Completed, paymentStatus := PaymentConfirmed)
    else flagged
  }

  /** Confirming twice from the same side leaves the row as the first call
      did (though the ledger logs the completion again, see ConfirmDelivery). */
  lemma DeliveryIdempotent(d: Deal, isBuyer: bool)
    ensures DeliveryConfirmed(DeliveryConfirmed(d, isBuyer), isBuyer) == DeliveryConfirmed(d, isBuyer)
  {
  }

  /** The two parties' confirmations complete the deal in either order,
      whatever its status was: nothing checks that the deal is paid, or
      that it has not been cancelled or expired. */
  lemma BothDeliveriesComplete(d: Deal)
    ensures DeliveryConfirmed(DeliveryConfirmed(d, true), false).status == Completed
    ensures DeliveryConfirmed(DeliveryConfirmed(d, false), true).status == Completed
  {
  }

  /** A completed status always goes with both delivery flags, under every
      row update the handlers make (they never write 'completed' directly). */
  predicate CompletionSound(d: Deal) {
    d.status == Completed ==> BothConfirmed(d)
  }

  predicate AllCompletionSound(deals: seq<Deal>) {
    forall i :: 0 <= i < |deals| ==> CompletionSound(deals[i])
  }

  /** expire_old_deals' row update. */
  function ExpiredAt(d: Deal, now: int): Deal {
    if d.status == AwaitingPayment && d.expiryTime < now then d.(status := Expired) else d
  }

  /** The deals table after expire_old_deals at time `now`. */
  function Sweep(deals: seq<Deal>, now: int): (r: seq<Deal>)
    ensures |r| == |deals|
    ensures forall i :: 0 <= i < |deals| ==>
              (r[i] != deals[i] <==> deals[i].status == AwaitingPayment && deals[i].expiryTime < now)
    ensures forall i :: 0 <= i < |deals| && r[i] != deals[i] ==> r[i] == deals[i].(status := Expired)
  {
    seq(|deals|, i requires 0 <= i < |deals| => ExpiredAt(deals[i], now))
  }

  /** The sweep changes exactly the payable deals whose expiry has passed,
      and only their status, to expired; it never touches a finished deal. */
  lemma SweepEffect(deals: seq<Deal>, now: int)
    ensures var r := Sweep(deals, now);
            forall i :: 0 <= i < |deals| ==>
              && (r[i] != deals[i] <==> deals[i].status == AwaitingPayment && deals[i].expiryTime < now)
              && r[i] == deals[i].(status := r[i].status)
              && (r[i] != deals[i] ==> r[i].status == Expired)
              && (deals[i].status in Finished ==> r[i] == deals[i])
  {
  }

  /** Running the sweep again with the same clock changes nothing. */
  lemma SweepIdempotent(deals: seq<Deal>, now: int)
    ensures Sweep(Sweep(deals, now), now) == Sweep(deals, now)
  {
  }

  // ===================== queries =====================

  datatype PartyRole = AsBuyer | AsSeller

  /** A row of get_user_deals: the deal and the computed `role` column. */
  datatype UserDeal = UserDeal(deal: Deal, role: PartyRole)

  predicate IsParty(d: Deal, userId: int) {
    d.buyerId == userId || d.sellerId == userId
  }

  predicate Selected(d: Deal, userId: int, filter: Option<Status>) {
    IsParty(d, userId) && (filter.None? || d.status == filter.value)
  }

  function Tagged(d: Deal, userId: int): UserDeal {
    UserDeal(d, if d.buyerId == userId then AsBuyer else AsSeller)
  }

  predicate NewestFirst(ds: seq<Deal>) {
    forall i, j :: 0 <= i < j < |ds| ==> ds[i].dealId > ds[j].dealId
  }

  lemma {:induction false} FilterNewestFirst(ds: seq<Deal>, p: Deal -> bool)
    requires NewestFirst(ds)
    ensures NewestFirst(Filter(ds, p))
    decreases |ds|
  {
    if ds != [] {
      FilterNewestFirst(ds[1..], p);
      var rest := Filter(ds[1..], p);
      forall j | 0 <= j < |rest| ensures rest[j].dealId < ds[0].dealId {
        assert rest[j] in rest;
        var k :| 0 <= k < |ds[1..]| && ds[1..][k] == rest[j];
        assert ds[k + 1] == rest[j];
      }
    }
  }

  /** get_all_deals: every deal, newest (highest id) first. */
  function AllDeals(deals: seq<Deal>): (r: seq<Deal>)
    requires DealsKeyed(deals)
    ensures |r| == |deals| && NewestFirst(r)
    ensures forall d :: d in r <==> d in deals
  {
    var r := Reverse(deals);
    assert forall d :: d in r ==> d in deals by {
      forall d | d in r ensures d in deals {
        var i :| 0 <= i < |r| && r[i] == d;
        assert deals[|deals| - 1 - i] == d;
      }
    }
    assert forall d :: d in deals ==> d in r by {
      forall d | d in deals ensures d in r {
        var i :| 0 <= i < |deals| && deals[i] == d;
        assert r[|deals| - 1 - i] == d;
      }
    }
    r
  }

  /** get_all_users: every user, highest id first. */
  function AllUsers(users: seq<User>): (r: seq<User>)
    requires UsersKeyed(users)
    ensures |r| == |users|
    ensures forall i :: 0 <= i < |r| ==> r[i] == users[|users| - 1 - i]
    ensures forall u :: u in r <==> u in users
    ensures forall i, j :: 0 <= i < j < |r| ==> r[i].userId > r[j].userId
  {
    var r := Reverse(users);
    assert forall u :: u in r ==> u in users by {
      forall u | u in r ensures u in users {
        var i :| 0 <= i < |r| && r[i] == u;
        assert users[|users| - 1 - i] == u;
      }
    }
    assert forall u :: u in users ==> u in r by {
      forall u | u in users ensures u in r {
        var i :| 0 <= i < |users| && users[i] == u;
        assert r[|users| - 1 - i] == u;
      }
    }
    r
  }

  /** get_user_deals: the deals the user is buyer or seller of, restricted
      to one status when a filter is given, newest first, each tagged with
      the user's side ('buyer' exactly when the user is the buyer). */
  function UserDeals(deals: seq<Deal>, userId: int, filter: Option<Status>): (r: seq<UserDeal>)
    requires DealsKeyed(deals)
    ensures |r| <= |deals|
    ensures forall x :: x in r ==> x.deal in deals && Selected(x.deal, userId, filter)
                                   && (x.role == AsBuyer <==> x.deal.buyerId == userId)
    ensures forall d :: d in deals && Selected(d, userId, filter) ==> Tagged(d, userId) in r
    ensures forall i, j :: 0 <= i < j < |r| ==> r[i].deal.dealId > r[j].deal.dealId
  {
    var picked := Filter(AllDeals(deals), d => Selected(d, userId, filter));
    FilterNewestFirst(AllDeals(deals), d => Selected(d, userId, filter));
    var r := seq(|picked|, i requires 0 <= i < |picked| => Tagged(picked[i], userId));
    assert forall x :: x in r ==> x.deal in picked && x == Tagged(x.deal, userId);
    assert forall d :: d in picked ==> Tagged(d, userId) in r by {
      forall d | d in picked ensures Tagged(d, userId) in r {
        var i :| 0 <= i < |picked| && picked[i] == d;
        assert r[i] == Tagged(d, userId);
      }
    }
    r
  }

  datatype SystemStats = SystemStats(
    totalUsers: nat,
    totalDeals: nat,
    completedDeals: nat,
    activeDeals: nat,
    totalVolume: real)

  function StatusIn(statuses: set<Status>): Deal -> bool {
    (d: Deal) => d.status in statuses
  }

  /** `SELECT COUNT(*) FROM deals WHERE status IN (...)`. */
  function CountStatus(deals: seq<Deal>, statuses: set<Status>): nat {
    |Filter(deals, StatusIn(statuses))|
  }

  function SumAmounts(ds: seq<Deal>): real
    decreases |ds|
  {
    if ds == [] then 0.0 else ds[0].amount + SumAmounts(ds[1..])
  }

  /** get_system_stats. SUM over no rows is NULL and then reported as 0,
      which is also the empty sum. */
  function Stats(users: seq<User>, deals: seq<Deal>): (s: SystemStats)
    ensures s.totalUsers == |users| && s.totalDeals == |deals|
    ensures s.completedDeals + s.activeDeals <= s.totalDeals
    ensures s.completedDeals > 0 <==> exists d :: d in deals && d.status == Completed
  {
    CountStatusUnion(deals, {Completed}, AdminActive);
    var completed := Filter(deals, StatusIn({Completed}));
    assert completed != [] ==> completed[0] in completed;
    SystemStats(|users|, |deals|, CountStatus(deals, {Completed}), CountStatus(deals, AdminActive),
                SumAmounts(Filter(deals, StatusIn({Completed}))))
  }

  lemma CountStatusUnion(deals: seq<Deal>, s: set<Status>, t: set<Status>)
    requires s !! t
    ensures CountStatus(deals, s) + CountStatus(deals, t) == CountStatus(deals, s + t)
  {
    FilterDisjointSize(deals, StatusIn(s), StatusIn(t), StatusIn(s + t));
  }

  lemma {:induction false} SumPositive(ds: seq<Deal>)
    requires forall d :: d in ds ==> d.amount > 0.0
    ensures ds == [] <==> SumAmounts(ds) == 0.0
    ensures SumAmounts(ds) >= 0.0
    decreases |ds|
  {
    if ds != [] {
      assert forall d :: d in ds[1..] ==> d in ds;
      SumPositive(ds[1..]);
    }
  }

  /** The statistics are consistent: completed and active deals are
      disjoint parts of all deals, and the volume is zero when no deal is
      completed; when every amount is positive (as the creation dialogue
      ensures) the volume is positive exactly when some deal is completed. */
  lemma StatsConsistent(users: seq<User>, deals: seq<Deal>)
    ensures var s := Stats(users, deals);
            && s.completedDeals + s.activeDeals <= s.totalDeals
            && (s.completedDeals == 0 ==> s.totalVolume == 0.0)
            && ((forall d :: d in deals ==> d.amount > 0.0) ==> (s.totalVolume > 0.0 <==> s.completedDeals > 0))
  {
    CountStatusUnion(deals, {Completed}, AdminActive);
    var completed := Filter(deals, StatusIn({Completed}));
    if completed == [] {
      assert SumAmounts(completed) == 0.0;
    }
    if forall d :: d in deals ==> d.amount > 0.0 {
      SumPositive(completed);
    }
  }

  // ===================== invariants across operations =====================

  /** Every existing user keeps its id and Telegram id (only wallets change). */
  predicate RowsKept(before: seq<User>, after: seq<User>) {
    && |before| <= |after|
    && forall i :: 0 <= i < |before| ==>
         after[i].userId == before[i].userId && after[i].telegramId == before[i].telegramId
  }

  lemma RegisteredRowsKept(users: seq<User>, telegramId: int, username: string)
    requires UsersKeyed(users) && TelegramIdsUnique(users)
    ensures RowsKept(users, Registered(users, telegramId, username))
  {
    RegistrationSound(users, telegramId, username);
  }

  /** Whoever could be found before can still be found, under the same id. */
  lemma {:induction false} RowsKeptFind(before: seq<User>, after: seq<User>, telegramId: int)
    requires RowsKept(before, after) && TelegramIdsUnique(after)
    requires FindByTelegram(before, telegramId).Some?
    ensures FindByTelegram(after, telegramId).Some?
    ensures FindByTelegram(after, telegramId).value.userId == FindByTelegram(before, telegramId).value.userId
  {
    var u := FindByTelegram(before, telegramId).value;
    var i :| 0 <= i < |before| && before[i] == u;
    FindByTelegramUnique(after, after[i]);
  }

  lemma RowsKeptById(before: seq<User>, after: seq<User>, userId: int)
    requires RowsKept(before, after) && UsersKeyed(before) && UsersKeyed(after)
    requires UserById(before, userId).Some?
    ensures UserById(after, userId).Some?
  {
  }

  /** Updating one row with a change that never produces an unsound
      completion keeps every row sound. */
  lemma UpdatedCompletionSound(deals: seq<Deal>, dealId: int, f: Deal -> Deal)
    requires DealsKeyed(deals) && AllCompletionSound(deals)
    requires forall d :: f(d).dealId == d.dealId
    requires forall d :: CompletionSound(d) ==> CompletionSound(f(d))
    ensures AllCompletionSound(Updated(deals, dealId, f))
  {
    var r := Updated(deals, dealId, f);
    forall i | 0 <= i < |r| ensures CompletionSound(r[i]) {
      assert DealById(r, i + 1) == Some(r[i]);
      if i + 1 != dealId {
        assert DealById(deals, i + 1) == Some(deals[i]);
      }
    }
  }

  /** Delivery confirmation, the sweep, creation confirmation and every
      status update other than to 'completed' keep completions sound. */
  lemma TransitionsKeepCompletionSound(d: Deal, isBuyer: bool, s: Status, now: int)
    requires CompletionSound(d) && s != Completed
    ensures CompletionSound(DeliveryConfirmed(d, isBuyer))
    ensures CompletionSound(ConfirmedCreation(d))
    ensures CompletionSound(WithStatus(d, s))
    ensures CompletionSound(PaymentConfirmedDeal(d))
    ensures CompletionSound(ExpiredAt(d, now))
  {
  }

  /** The converse of soundness fails: a completed deal that is cancelled
      afterwards keeps both flags but is no longer completed. */
  lemma FlagsOutliveCompletion(d: Deal)
    requires d.status == Completed && BothConfirmed(d)
    ensures BothConfirmed(WithStatus(d, Cancelled)) && WithStatus(d, Cancelled).status != Completed
  {
  }

  /** Every deal that was finished (completed, cancelled or expired)
      before is unchanged after. */
  predicate FinishedKept(before: seq<Deal>, after: seq<Deal>) {
    && |before| <= |after|
    && forall i :: 0 <= i < |before| && before[i].status in Finished ==> after[i] == before[i]
  }

  /** The sweep is one of the two operations that look at the status first:
      it never touches a finished deal. */
  lemma SweepKeepsFinished(deals: seq<Deal>, now: int)
    ensures FinishedKept(deals, Sweep(deals, now))
  {
  }

  /** The unguarded row updates do not keep finished deals: a status write
      reopens or rewrites any finished deal (cancelling a completed deal,
      moving a cancelled one under review or to payment received). */
  lemma {:induction false} StatusWriteRewritesFinished(deals: seq<Deal>, dealId: int, s: Status)
    requires DealsKeyed(deals) && DealById(deals, dealId).Some?
    requires DealById(deals, dealId).value.status in Finished && s != DealById(deals, dealId).value.status
    ensures !FinishedKept(deals, Put(deals, dealId, WithStatus(DealById(deals, dealId).value, s)))
  {
    var after := Put(deals, dealId, WithStatus(DealById(deals, dealId).value, s));
    assert after[dealId - 1].status == s;
  }

  /** Nor does delivery confirmation: a cancelled or expired deal whose
      other party had already confirmed becomes completed. */
  lemma {:induction false} DeliveryCompletesFinished(deals: seq<Deal>, dealId: int, isBuyer: bool)
    requires DealsKeyed(deals) && DealById(deals, dealId).Some?
    requires DealById(deals, dealId).value.status in {Cancelled, Expired}
    requires if isBuyer then DealById(deals, dealId).value.sellerConfirm else DealById(deals, dealId).value.buyerConfirm
    ensures !FinishedKept(deals, Put(deals, dealId, DeliveryConfirmed(DealById(deals, dealId).value, isBuyer)))
    ensures DeliveryConfirmed(DealById(deals, dealId).value, isBuyer).status == Completed
  {
    var after := Put(deals, dealId, DeliveryConfirmed(DealById(deals, dealId).value, isBuyer));
    assert after[dealId - 1].status == Completed;
  }

  // ===================== the ledger =====================

  class Ledger {
    var users: seq<User>
    var deals: seq<Deal>
    var log: seq<LogEntry>

    ghost predicate Valid()
      reads this
    {
      UsersKeyed(users) && TelegramIdsUnique(users) && DealsKeyed(deals)
    }

    constructor ()
      ensures Valid() && users == [] && deals == [] && log == []
    {
      users, deals, log := [], [], [];
    }

    /** log_event: appends one entry and never touches earlier ones. */
    method LogEvent(initiator: int, action: string, details: Details)
      modifies this
      ensures log == old(log) + [LogEntry(initiator, action, details)]
      ensures |log| == |old(log)| + 1 && log[..|old(log)|] == old(log)
      ensures users == old(users) && deals == old(deals)
    {
      log := log + [LogEntry(initiator, action, details)];
    }

    /** get_or_create_user. */
    method GetOrCreateUser(telegramId: int, username: string) returns (u: User)
      requires Valid()
      modifies this
      ensures Valid()
      ensures users == Registered(old(users), telegramId, username)
      ensures u == RegisteredUser(old(users), telegramId, username) && u in users
      ensures log == old(log) + RegistrationLog(old(users), telegramId)
      ensures deals == old(deals)
      ensures RowsKept(old(users), users)
    {
      RegistrationSound(users, telegramId, username);
      RegisteredRowsKept(users, telegramId, username);
      var found := FindByTelegram(users, telegramId);
      if found.Some? {
        u := found.value;
      } else {
        u := NewUser(|users| + 1, telegramId, username);
        users := users + [u];
        LogEvent(u.userId, "user_registered", UserRegistered(telegramId));
      }
    }

    /** update_wallet: the write happens only if the user exists, the event
        is logged either way. */
    method UpdateWallet(userId: int, currency: string, address: string)
      requires Valid()
      modifies this
      ensures Valid()
      ensures users == WalletWritten(old(users), userId, currency, address)
      ensures log == old(log) + [LogEntry(userId, "wallet_updated", WalletUpdated(currency, address))]
      ensures deals == old(deals)
      ensures RowsKept(old(users), users)
    {
      WalletWrittenEffect(users, userId, currency, address);
      users := WalletWritten(users, userId, currency, address);
      LogEvent(userId, "wallet_updated", WalletUpdated(currency, address));
    }

    /** create_deal: one new row with the next id; the buyer is logged as the
        initiator whoever created the deal. Nothing checks the parties or
        the amount here. */
    method CreateDeal(buyerId: int, sellerId: int, amount: real, currency: string,
                      garantAddress: string, expiryTime: int) returns (dealId: int)
      requires Valid()
      modifies this
      ensures Valid()
      ensures dealId == |old(deals)| + 1 && DealById(old(deals), dealId).None?
      ensures deals == old(deals) + [NewDeal(dealId, buyerId, sellerId, amount, currency, garantAddress, expiryTime)]
      ensures log == old(log) + [LogEntry(buyerId, "deal_created", DealCreated(dealId, amount, currency))]
      ensures users == old(users)
      ensures old(AllCompletionSound(deals)) ==> AllCompletionSound(deals)
    {
      dealId := |deals| + 1;
      deals := deals + [NewDeal(dealId, buyerId, sellerId, amount, currency, garantAddress, expiryTime)];
      LogEvent(buyerId, "deal_created", DealCreated(dealId, amount, currency));
    }

    /** confirm_deal_creation: whatever the deal's status. */
    method ConfirmDealCreation(dealId: int, userId: int)
      requires Valid()
      modifies this
      ensures Valid()
      ensures deals == Updated(old(deals), dealId, ConfirmedCreation)
      ensures log == old(log) + [LogEntry(userId, "deal_confirmed", DealRef(dealId))]
      ensures users == old(users)
      ensures old(AllCompletionSound(deals)) ==> AllCompletionSound(deals)
    {
      deals := Updated(deals, dealId, ConfirmedCreation);
      LogEvent(userId, "deal_confirmed", DealRef(dealId));
    }

    /** cancel_deal: whatever the deal's status. */
    method CancelDeal(dealId: int, userId: int)
      requires Valid()
      modifies this
      ensures Valid()
      ensures deals == Updated(old(deals), dealId, d => WithStatus(d, Cancelled))
      ensures log == old(log) + [LogEntry(userId, "deal_cancelled", DealRef(dealId))]
      ensures users == old(users)
      ensures old(AllCompletionSound(deals)) ==> AllCompletionSound(deals)
    {
      deals := Updated(deals, dealId, d => WithStatus(d, Cancelled));
      LogEvent(userId, "deal_cancelled", DealRef(dealId));
    }

    /** confirm_payment: whatever the deal's status; nothing is logged. */
    method ConfirmPayment(dealId: int)
      requires Valid()
      modifies this
      ensures Valid()
      ensures deals == Updated(old(deals), dealId, PaymentConfirmedDeal)
      ensures users == old(users) && log == old(log)
      ensures old(AllCompletionSound(deals)) ==> AllCompletionSound(deals)
    {
      deals := Updated(deals, dealId, PaymentConfirmedDeal);
    }

    /** confirm_delivery: set one flag, read both back, and complete the deal
        when both are set, logging the completion. A deal that is already
        completed is logged as completed again. For a missing deal the
        source fails on reading the flags back; nothing changes. */
    method ConfirmDelivery(dealId: int, userId: int, isBuyer: bool)
      requires Valid()
      modifies this
      ensures Valid()
      ensures deals == Updated(old(deals), dealId, d => DeliveryConfirmed(d, isBuyer))
      ensures log == old(log) + (if DealById(old(deals), dealId).Some?
                                    && BothConfirmed(DealById(deals, dealId).value)
                                 then [LogEntry(userId, "deal_completed", DealRef(dealId))] else [])
      ensures users == old(users)
      ensures old(AllCompletionSound(deals)) ==> AllCompletionSound(deals)
    {
      deals := Updated(deals, dealId, d => FlagDelivery(d, isBuyer));
      var row := DealById(deals, dealId);
      if row.Some? && BothConfirmed(row.value) {
        deals := Updated(deals, dealId, (d: Deal) => d.(status := Completed, paymentStatus := PaymentConfirmed));
        LogEvent(userId, "deal_completed", DealRef(dealId));
      }
      assert deals == Updated(old(deals), dealId, d => DeliveryConfirmed(d, isBuyer));
    }

    /** update_deal_status: any status, whatever the current one. */
    method UpdateDealStatus(dealId: int, status: Status)
      requires Valid()
      modifies this
      ensures Valid()
      ensures deals == Updated(old(deals), dealId, d => WithStatus(d, status))
      ensures users == old(users) && log == old(log)
      ensures status != Completed && old(AllCompletionSound(deals)) ==> AllCompletionSound(deals)
    {
      deals := Updated(deals, dealId, d => WithStatus(d, status));
    }

    /** force_cancel_deal: whatever the deal's status; nothing is logged. */
    method ForceCancelDeal(dealId: int)
      requires Valid()
      modifies this
      ensures Valid()
      ensures deals == Updated(old(deals), dealId, d => WithStatus(d, Cancelled))
      ensures users == old(users) && log == old(log)
      ensures old(AllCompletionSound(deals)) ==> AllCompletionSound(deals)
    {
      deals := Updated(deals, dealId, d => WithStatus(d, Cancelled));
    }

    /** expire_old_deals with the clock reading `now`. */
    method ExpireOldDeals(now: int)
      requires Valid()
      modifies this
      ensures Valid()
      ensures deals == Sweep(old(deals), now)
      ensures FinishedKept(old(deals), deals)
      ensures users == old(users) && log == old(log)
      ensures old(AllCompletionSound(deals)) ==> AllCompletionSound(deals)
    {
      var i := 0;
      while i < |deals|
        invariant 0 <= i <= |deals| == |old(deals)|
        invariant DealsKeyed(deals)
        invariant forall k :: 0 <= k < i ==> deals[k] == ExpiredAt(old(deals)[k], now)
        invariant forall k :: i <= k < |deals| ==> deals[k] == old(deals)[k]
        invariant users == old(users) && log == old(log)
      {
        if deals[i].status == AwaitingPayment && deals[i].expiryTime < now {
          deals := deals[i := deals[i].(status := Expired)];
        }
        i := i + 1;
      }
    }
  }
}
