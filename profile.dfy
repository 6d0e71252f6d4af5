/** The profile screen of bot/handlers/profile.py: the caller's deals split
    into active and completed ones, beside figures read from the stored
    user row. */
module Profile {
  import opened Text
  import opened DealStatus
  import opened Ledger
  import opened Seqs

  /** The figures the profile screen shows. */
  datatype Summary = Summary(
    userId: int,
    username: string,
    totalDeals: int,      // the stored column, not a count of deals
    completedCount: nat,
    activeCount: nat,
    successRate: real,    // the stored column
    walletTon: Option<string>,
    walletBtc: Option<string>)

  /** The profile's notion of an active deal: three statuses, a deal under
      the administrator's review not among them. */
  function ProfileActiveDeals(ds: seq<UserDeal>): seq<UserDeal> {
    Filter(ds, (x: UserDeal) => x.deal.status in ProfileActive)
  }

  function CompletedDeals(ds: seq<UserDeal>): seq<UserDeal> {
    Filter(ds, (x: UserDeal) => x.deal.status == Completed)
  }

  /** The active list holds exactly the deals in one of the three profile
      statuses, each of which the administrator also calls active, while a
      deal under review is active to the administrator only; the completed
      list holds exactly the completed deals; no deal is in both, and
      together they hold at most all the deals. */
  lemma ProfileListsPartition(ds: seq<UserDeal>)
    ensures forall x :: x in ProfileActiveDeals(ds) <==> x in ds && x.deal.status in ProfileActive
    ensures forall x :: x in ProfileActiveDeals(ds) ==>
                          x.deal.status in AdminActive && x.deal.status != AwaitingAdminConfirmation
    ensures forall x :: x in CompletedDeals(ds) <==> x in ds && x.deal.status == Completed
    ensures forall x :: !(x in ProfileActiveDeals(ds) && x in CompletedDeals(ds))
    ensures |ProfileActiveDeals(ds)| + |CompletedDeals(ds)| <= |ds|
  {
    var active := (x: UserDeal) => x.deal.status in ProfileActive;
    var completed := (x: UserDeal) => x.deal.status == Completed;
    var either := (x: UserDeal) => active(x) || completed(x);
    FilterDisjointSize(ds, active, completed, either);
  }

  /** show_profile and show_profile_callback for a given user row: the
      counts come from the user's deals, the total and the success rate
      from the row itself. */
  function ProfileSummary(user: User, deals: seq<Deal>): (s: Summary)
    requires DealsKeyed(deals)
    ensures s.completedCount + s.activeCount <= |UserDeals(deals, user.userId, None)|
    ensures s.totalDeals == user.totalDeals && s.successRate == user.successRate
    ensures s.userId == user.userId && s.walletTon == user.walletTon && s.walletBtc == user.walletBtc
  {
    var mine := UserDeals(deals, user.userId, None);
    ProfileListsPartition(mine);
    Summary(user.userId, user.username, user.totalDeals, |CompletedDeals(mine)|,
            |ProfileActiveDeals(mine)|, user.successRate, user.walletTon, user.walletBtc)
  }

  /** The counts are exactly those of the user's deals in the two classes. */
  lemma ProfileCountsMeaning(user: User, deals: seq<Deal>)
    requires DealsKeyed(deals)
    ensures var s := ProfileSummary(user, deals);
            var mine := UserDeals(deals, user.userId, None);
            && s.activeCount == |ProfileActiveDeals(mine)|
            && s.completedCount == |CompletedDeals(mine)|
            && (forall x :: x in ProfileActiveDeals(mine) ==> x.deal in deals && IsParty(x.deal, user.userId))
            && (forall d :: d in deals && IsParty(d, user.userId) && d.status == Completed ==>
                  Tagged(d, user.userId) in CompletedDeals(mine))
  {
    ProfileListsPartition(UserDeals(deals, user.userId, None));
  }

  /** Freshly registered users show a total of 0 and a success rate of 0
      however many deals they then complete, since nothing writes those
      columns. */
  lemma NewUserTotalsZero(users: seq<User>, telegramId: int, username: string, deals: seq<Deal>)
    requires FindByTelegram(users, telegramId).None? && DealsKeyed(deals)
    ensures var s := ProfileSummary(RegisteredUser(users, telegramId, username), deals);
            s.totalDeals == 0 && s.successRate == 0.0
  {
  }

  /** show_profile: registers the caller and shows the summary of the row
      get_or_create_user returned. */
  method ShowProfile(ledger: Ledger, callerTg: int, username: string) returns (s: Summary)
    requires ledger.Valid()
    modifies ledger
    ensures ledger.Valid() && RowsKept(old(ledger.users), ledger.users)
    ensures ledger.users == Registered(old(ledger.users), callerTg, username)
    ensures ledger.log == old(ledger.log) + RegistrationLog(old(ledger.users), callerTg)
    ensures ledger.deals == old(ledger.deals)
    ensures s == ProfileSummary(RegisteredUser(old(ledger.users), callerTg, username), ledger.deals)
  {
    var me := ledger.GetOrCreateUser(callerTg, username);
    s := ProfileSummary(me, ledger.deals);
  }
}
