/** The administrator's commands of bot/handlers/admin.py: the identity
    check, the three commands that change deals, and the read-only panels
    (statistics, listings, active deals). `callerTg` is the Telegram id of
    whoever sent the command or pressed the button. */
module AdminHandlers {
  import opened Text
  import opened DealStatus
  import opened Config
  import opened Ledger
  import opened Seqs
  import Keyboards

  /** is_admin: the one configured Telegram id, 757042486. */
  predicate IsAdmin(telegramId: int): (r: bool)
    ensures r <==> telegramId == 757042486
  {
    telegramId == AdminId
  }

  datatype AdminReply =
    | Denied          // not the administrator
    | BadFormat       // the command's id is not an integer
    | Failed          // the handler raised on callback data without an integer id
    | NotFound
    | AlreadyClosed   // the deal is completed, cancelled or expired
    | Done

  // ===================== commands that change deals =====================

  /** The command text the active-deal listing offers for a deal. */
  function CancelCommand(dealId: int): (r: string)
    ensures StartsWith(r, "/cancel_deal_")
  {
    "/cancel_deal_" + IntToString(dealId)
  }

  /** The id cmd_cancel_deal reads: `int(...)` of the text after the last '_'. */
  function CommandDealId(text: string): (r: Option<int>)
    ensures exists k :: 0 <= k <= |text| && r == ParseInt(text[k..]) && '_' !in text[k..]
                        && (k == 0 || text[k - 1] == '_')
  {
    ParseInt(LastField(text, '_'))
  }

  /** The offered command text leads back to its deal. */
  lemma {:induction false} CancelCommandRoundTrip(dealId: int)
    ensures CommandDealId(CancelCommand(dealId)) == Some(dealId)
  {
    var x := IntToString(dealId);
    IntToStringHasNo(dealId, '_');
    SplitNoSeparator(x, '_');
    SplitAtFirst("deal", '_', x);
    assert "deal" + ['_'] + x == "deal_" + x;
    SplitAtFirst("/cancel", '_', "deal_" + x);
    assert "/cancel" + ['_'] + ("deal_" + x) == CancelCommand(dealId);
    ParseIntToString(dealId);
  }

  /** cmd_cancel_deal: only the administrator; a malformed id, a missing
      deal and a finished deal are refused with nothing changed; any other
      deal is cancelled. Finished deals are never touched. */
  method CmdCancelDeal(ledger: Ledger, callerTg: int, text: string) returns (reply: AdminReply)
    requires ledger.Valid()
    modifies ledger
    ensures ledger.Valid() && ledger.users == old(ledger.users) && ledger.log == old(ledger.log)
    ensures FinishedKept(old(ledger.deals), ledger.deals)
    ensures old(AllCompletionSound(ledger.deals)) ==> AllCompletionSound(ledger.deals)
    ensures !IsAdmin(callerTg) ==> reply == Denied && unchanged(ledger)
    ensures IsAdmin(callerTg) && CommandDealId(text).None? ==> reply == BadFormat && unchanged(ledger)
    ensures IsAdmin(callerTg) && CommandDealId(text).Some? ==>
              var dealId := CommandDealId(text).value;
              match DealById(old(ledger.deals), dealId)
              case None => reply == NotFound && unchanged(ledger)
              case Some(d) =>
                if d.status in Finished then reply == AlreadyClosed && unchanged(ledger)
                else reply == Done && ledger.deals == Put(old(ledger.deals), dealId, WithStatus(d, Cancelled))
  {
    if !IsAdmin(callerTg) {
      return Denied;
    }
    var parsed := CommandDealId(text);
    if parsed.None? {
      return BadFormat;
    }
    var dealId := parsed.value;
    var deal := DealById(ledger.deals, dealId);
    if deal.None? {
      return NotFound;
    }
    if deal.value.status in Finished {
      return AlreadyClosed;
    }
    ledger.ForceCancelDeal(dealId);
    reply := Done;
  }

  /** admin_confirm_payment: the administrator marks any existing deal as
      paid, whatever its status (cancelled and completed deals included);
      the payment_status column is not written. */
  method AdminConfirmPayment(ledger: Ledger, callerTg: int, data: string) returns (reply: AdminReply)
    requires ledger.Valid()
    modifies ledger
    ensures ledger.Valid() && ledger.users == old(ledger.users) && ledger.log == old(ledger.log)
    ensures old(AllCompletionSound(ledger.deals)) ==> AllCompletionSound(ledger.deals)
    ensures !IsAdmin(callerTg) ==> reply == Denied && unchanged(ledger)
    ensures IsAdmin(callerTg) && Keyboards.DealIdOf(data).None? ==> reply == Failed && unchanged(ledger)
    ensures IsAdmin(callerTg) && Keyboards.DealIdOf(data).Some? ==>
              var dealId := Keyboards.DealIdOf(data).value;
              match DealById(old(ledger.deals), dealId)
              case None => reply == NotFound && unchanged(ledger)
              case Some(d) =>
                reply == Done && ledger.deals == Put(old(ledger.deals), dealId, WithStatus(d, PaymentReceived))
  {
    if !IsAdmin(callerTg) {
      return Denied;
    }
    var parsed := Keyboards.DealIdOf(data);
    if parsed.None? {
      return Failed;
    }
    if DealById(ledger.deals, parsed.value).None? {
      return NotFound;
    }
    ledger.UpdateDealStatus(parsed.value, PaymentReceived);
    reply := Done;
  }

  /** admin_reject_payment: the administrator marks any existing deal's
      payment as rejected, whatever its status. */
  method AdminRejectPayment(ledger: Ledger, callerTg: int, data: string) returns (reply: AdminReply)
    requires ledger.Valid()
    modifies ledger
    ensures ledger.Valid() && ledger.users == old(ledger.users) && ledger.log == old(ledger.log)
    ensures old(AllCompletionSound(ledger.deals)) ==> AllCompletionSound(ledger.deals)
    ensures !IsAdmin(callerTg) ==> reply == Denied && unchanged(ledger)
    ensures IsAdmin(callerTg) && Keyboards.DealIdOf(data).None? ==> reply == Failed && unchanged(ledger)
    ensures IsAdmin(callerTg) && Keyboards.DealIdOf(data).Some? ==>
              var dealId := Keyboards.DealIdOf(data).value;
              match DealById(old(ledger.deals), dealId)
              case None => reply == NotFound && unchanged(ledger)
              case Some(d) =>
                reply == Done && ledger.deals == Put(old(ledger.deals), dealId, WithStatus(d, PaymentRejected))
  {
    if !IsAdmin(callerTg) {
      return Denied;
    }
    var parsed := Keyboards.DealIdOf(data);
    if parsed.None? {
      return Failed;
    }
    if DealById(ledger.deals, parsed.value).None? {
      return NotFound;
    }
    ledger.UpdateDealStatus(parsed.value, PaymentRejected);
    reply := Done;
  }

  // ===================== read-only panels =====================

  /** What a panel shows: nothing to a non-administrator, an empty-table
      notice, or the rows. */
  datatype Panel<T> =
    | NoAccess
    | NothingToShow
    | Rows(total: nat, shown: seq<T>, more: Option<nat>)

  /** The first `cap` rows, and how many more there are when the list is
      longer than that. */
  function Truncated<T>(xs: seq<T>, cap: nat): (p: Panel<T>)
    ensures p.Rows? && p.total == |xs|
    ensures |p.shown| <= cap && |p.shown| <= |xs| && p.shown == xs[..|p.shown|]
    ensures |xs| <= cap ==> p.shown == xs && p.more.None?
    ensures |xs| > cap ==> |p.shown| == cap && p.more == Some(|xs| - cap)
  {
    Rows(|xs|, Take(xs, cap), if |xs| > cap then Some(|xs| - cap) else None)
  }

  /** cmd_users: at most 50 users, highest id first. */
  function UsersPanel(callerTg: int, users: seq<User>): (p: Panel<User>)
    requires UsersKeyed(users)
    ensures !IsAdmin(callerTg) <==> p.NoAccess?
    ensures IsAdmin(callerTg) && users == [] <==> p.NothingToShow?
    ensures p.Rows? ==> p.total == |users| && |p.shown| == (if |users| < 50 then |users| else 50)
                        && (p.more.Some? <==> |users| > 50)
                        && (p.more.Some? ==> |p.shown| + p.more.value == |users|)
                        && p.shown == AllUsers(users)[..|p.shown|]
                        && forall u :: u in p.shown ==> u in users
  {
    if !IsAdmin(callerTg) then NoAccess
    else if users == [] then NothingToShow
    else
      Truncated(AllUsers(users), 50)
  }

  /** cmd_deals: at most 30 deals, newest first. */
  function DealsPanel(callerTg: int, deals: seq<Deal>): (p: Panel<Deal>)
    requires DealsKeyed(deals)
    ensures !IsAdmin(callerTg) <==> p.NoAccess?
    ensures IsAdmin(callerTg) && deals == [] <==> p.NothingToShow?
    ensures p.Rows? ==> p.total == |deals| && |p.shown| == (if |deals| < 30 then |deals| else 30)
                        && (p.more.Some? <==> |deals| > 30)
                        && (p.more.Some? ==> |p.shown| + p.more.value == |deals|)
                        && p.shown == AllDeals(deals)[..|p.shown|]
                        && NewestFirst(p.shown) && forall d :: d in p.shown ==> d in deals
  {
    if !IsAdmin(callerTg) then NoAccess
    else if deals == [] then NothingToShow
    else Truncated(AllDeals(deals), 30)
  }

  /** cmd_active_deals: every deal in one of the four active statuses, in
      the listing's newest-first order, untruncated. */
  function ActiveDealsPanel(callerTg: int, deals: seq<Deal>): (p: Panel<Deal>)
    requires DealsKeyed(deals)
    ensures !IsAdmin(callerTg) <==> p.NoAccess?
    ensures IsAdmin(callerTg) && (forall d :: d in deals ==> d.status !in AdminActive) <==> p.NothingToShow?
    ensures p.Rows? ==> p.more.None? && p.total == |p.shown| <= |deals| && NewestFirst(p.shown)
                        && forall d :: d in p.shown <==> d in deals && d.status in AdminActive
  {
    if !IsAdmin(callerTg) then NoAccess
    else
      var active := Filter(AllDeals(deals), StatusIn(AdminActive));
      FilterNewestFirst(AllDeals(deals), StatusIn(AdminActive));
      if active == [] then NothingToShow
      else assert active[0] in active; Rows(|active|, active, None)
  }

  /** The figures of cmd_stats. */
  datatype DetailedStats = DetailedStats(
    system: SystemStats,
    cancelled: nat,
    expired: nat,
    completedTon: nat,
    completedBtc: nat,
    completedUsdt: nat)

  /** Completed deals in one of the given currencies. */
  function CompletedIn(currencies: set<string>): Deal -> bool {
    (d: Deal) => d.currency in currencies && d.status == Completed
  }

  /** cmd_stats: the system statistics and comprehension counts over the
      deal listing, which are the counts over the deals table. The three
      currencies' completed deals are among the completed deals, and the
      completed, active, cancelled and expired deals are disjoint parts of
      all deals. */
  function StatsPanel(callerTg: int, users: seq<User>, deals: seq<Deal>): (r: Option<DetailedStats>)
    requires DealsKeyed(deals)
    ensures r.Some? <==> IsAdmin(callerTg)
    ensures r.Some? ==>
              var s := r.value;
              && s.system == Stats(users, deals)
              && s.cancelled == CountStatus(deals, {Cancelled}) && s.expired == CountStatus(deals, {Expired})
              && s.completedTon == |Filter(deals, CompletedIn({"TON"}))|
              && s.completedBtc == |Filter(deals, CompletedIn({"BTC"}))|
              && s.completedUsdt == |Filter(deals, CompletedIn({"USDT"}))|
              && s.cancelled <= |deals| && s.expired <= |deals|
              && s.completedTon <= |deals| && s.completedBtc <= |deals| && s.completedUsdt <= |deals|
              && s.completedTon + s.completedBtc + s.completedUsdt <= s.system.completedDeals
              && s.system.completedDeals + s.system.activeDeals + s.cancelled + s.expired <= s.system.totalDeals
  {
    if !IsAdmin(callerTg) then None
    else
      var all := AllDeals(deals);
      assert all == Reverse(deals);
      CurrencyCountsBounded(deals);
      StatusCountsBounded(deals);
      FilterReverseSize(deals, StatusIn({Cancelled}));
      FilterReverseSize(deals, StatusIn({Expired}));
      FilterReverseSize(deals, CompletedIn({"TON"}));
      FilterReverseSize(deals, CompletedIn({"BTC"}));
      FilterReverseSize(deals, CompletedIn({"USDT"}));
      Some(DetailedStats(Stats(users, deals),
                         |Filter(all, StatusIn({Cancelled}))|, |Filter(all, StatusIn({Expired}))|,
                         |Filter(all, CompletedIn({"TON"}))|, |Filter(all, CompletedIn({"BTC"}))|,
                         |Filter(all, CompletedIn({"USDT"}))|))
  }

  /** The per-currency completed counts add up to at most the completed count. */
  lemma CurrencyCountsBounded(ds: seq<Deal>)
    ensures |Filter(ds, CompletedIn({"TON"}))| + |Filter(ds, CompletedIn({"BTC"}))|
            + |Filter(ds, CompletedIn({"USDT"}))| <= |Filter(ds, StatusIn({Completed}))|
  {
    FilterDisjointSize(ds, CompletedIn({"TON"}), CompletedIn({"BTC"}), CompletedIn({"TON", "BTC"}));
    FilterDisjointSize(ds, CompletedIn({"TON", "BTC"}), CompletedIn({"USDT"}), CompletedIn({"TON", "BTC", "USDT"}));
    FilterMonotone(ds, CompletedIn({"TON", "BTC", "USDT"}), StatusIn({Completed}));
  }

  /** Completed, active, cancelled and expired deals are disjoint parts of all deals. */
  lemma StatusCountsBounded(deals: seq<Deal>)
    ensures CountStatus(deals, {Completed}) + CountStatus(deals, AdminActive)
            + CountStatus(deals, {Cancelled}) + CountStatus(deals, {Expired}) <= |deals|
  {
    CountStatusUnion(deals, {Completed}, AdminActive);
    CountStatusUnion(deals, {Completed} + AdminActive, {Cancelled});
    CountStatusUnion(deals, {Completed} + AdminActive + {Cancelled}, {Expired});
  }

  /** cmd_admin: the system statistics, for the administrator only. */
  function AdminPanel(callerTg: int, users: seq<User>, deals: seq<Deal>): (r: Option<SystemStats>)
    ensures r.Some? <==> IsAdmin(callerTg)
    ensures r.Some? ==> r.value.completedDeals + r.value.activeDeals <= r.value.totalDeals == |deals|
                        && r.value.totalUsers == |users|
  {
    StatsConsistent(users, deals);
    if IsAdmin(callerTg) then Some(Stats(users, deals)) else None
  }
}
