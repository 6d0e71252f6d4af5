# Escrow deal ledger of the guarantor Telegram bot, in Dafny

The guarantor bot keeps an escrow ledger. Two Telegram users agree on a
deal: one is the buyer and the other the seller. The buyer transfers the
amount to an escrow address, the administrator confirms the transfer, and
both parties are meant to confirm delivery. This project models that ledger and the
guards in the bot's handlers that decide whether a ledger change happens
at all.

- **Ledger** (`ledger.dfy`). This models `bot/database.py`.
  - The three PostgreSQL tables (users, deals, event log) are `seq` fields of the class `Ledger.Ledger`.
  - Row k of a table carries id k + 1, because the serial keys count from 1 and no row is ever deleted.
  - The statements that change rows are methods, each stating the whole new state.
  - The queries are functions: lookups, a user's deals, all deals, all users and the statistics.
  - The row updates are functions on deals, with lemmas on how they compose.
- **Deal statuses** (`status.dfy`). The eight strings of the `status` column form a datatype.
- **Creation dialogue and deal buttons** (`wizard.dfy`, `deal_handlers.dfy`). These model `bot/states.py` and `bot/handlers/deals.py`.
  - The caller's dialogue state is a `Conversation` object.
  - Each handler is a method on the ledger and the conversation, guard by guard.
  - It returns a `Reply` summarising the message the user sees.
- **Wallet dialogue** (`wallet_handlers.dfy`). This models `bot/handlers/wallet.py`, with the length check and the wallet write.
- **Administrator commands** (`admin_handlers.dfy`). This models `bot/handlers/admin.py`.
  - The identity check.
  - The force-cancel command and the payment confirm and reject buttons.
  - The read-only panels: statistics, the truncated listings and the active-deal listing.
- **Profile screen** (`profile.dfy`). This models `bot/handlers/profile.py`.
- **Pure helpers** (`wallet_rules.dfy`, `keyboards.dfy`, `text.dfy`, `seqs.dfy`). These model:
  - the address format check of `bot/utils.py`;
  - the inline keyboards of `bot/keyboards/inline.py` and their `prefix:id` callback data;
  - Python's `split`, `strip`, `int()` and `str()` on the texts involved;
  - order-keeping filters.
- **Scenarios** (`scenarios.dfy`). These are two whole conversations on a fresh ledger, with their outcome proved from the handlers' contracts.

Inputs from outside the program are parameters:

- the caller's Telegram id and username;
- the clock reading `now`, in seconds;
- the timestamp text of the escrow address;
- the value `float()` reads from an amount text.

Amounts are exact reals.

The model follows the code rather than an idealised escrow. Most row
updates write a status without reading the current one. Only two places
look at the status first: the expiry sweep and the administrator's
force-cancel. `Ledger.FinishedKept` is proved for those two. Counterexamples
are proved for the others (`Ledger.StatusWriteRewritesFinished`,
`Ledger.DeliveryCompletesFinished`, `Scenarios.UnpaidDealExpires`).

Two invariants carry across handlers:

- **Completion soundness** (`Ledger.AllCompletionSound`). A completed deal has both delivery flags set. Every handler preserves it. The administrator's status writes preserve it because they never write 'completed'.
- **Partner check** (`DealHandlers.PartnerChecked`). This holds while a dialogue waits for the amount or the currency. The partner named in the dialogue is a registered user other than its owner. Users keep their ids, so whatever other users do in between keeps the check (`DealHandlers.PartnerCheckedStable`). With it, `DealHandlers.ChooseCurrency` proves that a "buyer" or "seller" dialogue opens a deal between two distinct registered users for a positive amount.

`Ledger.Ledger.ConfirmPayment` models database.confirm_payment, which no handler calls. The administrator's confirm button writes the status through update_deal_status instead (`AdminHandlers.AdminConfirmPayment`), so a deal's `payment_status` never becomes 'paid'. It goes from its default straight to 'confirmed' on completion.

The buyer's "goods received" button, sent after the administrator
confirms a transfer, carries `confirm_received:<id>`. No handler is
registered for that prefix. The delivery handler listens for
`confirm_delivery:`. So that button never reaches the ledger
(`Keyboards.GoodsReceivedButtonUnrouted`). The only builder of a
`confirm_delivery:` button is `deal_actions`, and no handler sends it: the
"my deals" screen sends the main menu. So no keyboard the bot sends reaches
the delivery handler (`Keyboards.NoSentButtonConfirmsDelivery`), and in the
code as written no deal can become completed. The delivery handler and the
completion it performs are still modelled. `Scenarios.BuyerOpensAndCompletes`
presses the button `deal_actions` would build, to show what the ledger would
do if that keyboard were sent.

## Model

| member | source | states |
|---|---|---|
| DealStatus.NameInjective | bot/handlers/deals.py:150-159 | the eight status strings are distinct, so comparing the column decides the status |
| Text.ParseIntToString | bot/handlers/deals.py:99 | reading back with `int()` the decimal text of any id gives the id |
| Text.FieldAfterPrefix | bot/handlers/deals.py:28 | for data starting `p:`, `split(':')[1]` exists and is the text after the first colon up to the next |
| Text.Strip | bot/handlers/wallet.py:38 | the result is a slice `s[i:j]` with only whitespace before `i` and from `j` on, and a non-empty result neither starts nor ends with whitespace, so exactly the whitespace at both ends is removed |
| Text.ParseInt | bot/handlers/deals.py:38-41 | on the texts modelled, `int()` succeeds exactly on an optional '+' or '-' followed by at least one ASCII digit; a negative value needs the '-'; `Text.ParseIntToString` reads any rendered id back |
| Text.LastField | bot/handlers/admin.py:199 | `split('_')[-1]` is the suffix after the last separator, or the whole text when there is none, and holds no separator |
| Seqs.Filter | bot/handlers/admin.py:123 | a comprehension keeps exactly the elements satisfying its condition and no more elements than the input |
| Seqs.FilterAppend | bot/handlers/admin.py:123 | filtering keeps the original order (commutes with concatenation) |
| Seqs.Take | bot/handlers/admin.py:57 | `xs[:n]` holds the first min(n, len) elements |
| Ledger.FindByTelegram | bot/database.py:19-23 | finds a row carrying the Telegram id exactly when one exists |
| Ledger.UserById | bot/database.py:57-63 | get_user_by_id returns the row with that id, or nothing when no row has it |
| Ledger.RegistrationSound | bot/database.py:14-37 | get_or_create_user keeps existing rows and the keys unique; an unknown Telegram id adds exactly one plain user with the next id; the returned row is the one carrying the Telegram id |
| Ledger.RegistrationIdempotent | bot/database.py:19-37 | a second call with a known Telegram id changes nothing, logs nothing and returns the stored row, whose username is not refreshed |
| Ledger.WalletWrittenEffect | bot/database.py:41-50 | update_wallet writes wallet_ton for "TON" and wallet_btc for any other currency, on that user only, leaving the other column |
| Ledger.DealById | bot/database.py:198-204 | get_deal_by_id returns the row with that id, or nothing when no row has it |
| Ledger.Put | bot/database.py:116-118 | replacing one row keeps the table keyed and every other row unchanged; a missing id changes nothing |
| Ledger.Updated | bot/database.py:100-105 | `UPDATE ... WHERE deal_id` applies the change to the named row only, whatever its status; a missing id changes nothing |
| Ledger.DeliveryConfirmed | bot/database.py:145-163 | sets the caller's flag; completes the deal, with payment confirmed, exactly when both flags are then set; nothing else changes |
| Ledger.DeliveryIdempotent | bot/database.py:145-163 | confirming twice from the same side leaves the row as once did |
| Ledger.BothDeliveriesComplete | bot/database.py:145-163 | both parties' confirmations complete the deal in either order, whatever its status |
| Ledger.Sweep | bot/database.py:245-252 | the deals table after the sweep: a row changes exactly when it is awaiting payment past its expiry, and then only its status becomes expired |
| Ledger.SweepEffect | bot/database.py:245-251 | the sweep changes exactly the payable deals past their expiry, only their status, to expired |
| Ledger.SweepIdempotent | bot/database.py:245-251 | a second sweep with the same clock changes nothing |
| Ledger.SweepKeepsFinished | bot/database.py:246-249 | the sweep never touches a completed, cancelled or expired deal |
| Ledger.StatusWriteRewritesFinished | bot/database.py:213-216 | an unguarded status write does change a finished deal |
| Ledger.DeliveryCompletesFinished | bot/database.py:157-163 | delivery confirmation turns a cancelled or expired deal completed when the other party had confirmed |
| Ledger.AllDeals | bot/database.py:273-288 | get_all_deals returns every deal once, highest id first |
| Ledger.AllUsers | bot/database.py:262-269 | get_all_users returns the users table in reverse order: every user and nothing else, highest id first |
| Ledger.UserDeals | bot/database.py:170-194 | exactly the deals the user is a party to (of the given status, if any), newest first, tagged 'buyer' exactly when the user is the buyer |
| Ledger.Stats | bot/database.py:292-326 | the user and deal totals are the table sizes; completed + active <= total deals; the completed count is positive exactly when some deal is completed |
| Ledger.CountStatusUnion | bot/database.py:306-311 | counts over disjoint status sets add up |
| Ledger.StatsConsistent | bot/database.py:292-323 | completed + active <= total deals; the volume is 0 without completed deals, and positive exactly when some deal is completed if all amounts are positive |
| Ledger.RowsKeptFind | bot/database.py:19-23 | a user found before any ledger change is found afterwards under the same id |
| Ledger.UpdatedCompletionSound | bot/database.py:100-105 | a one-row update that never produces an unsound completion keeps every row sound |
| Ledger.TransitionsKeepCompletionSound | bot/database.py:157-163 | every row update other than a write of 'completed' keeps a completed deal's flags set |
| Ledger.FlagsOutliveCompletion | bot/database.py:116-118 | cancelling a completed deal keeps both flags: completion soundness has no converse |
| Ledger.Ledger.LogEvent | bot/database.py:223-236 | appends exactly one entry; earlier entries and the tables are unchanged |
| Ledger.Ledger.GetOrCreateUser | bot/database.py:14-39 | the users table and log after get_or_create_user, and the row it returns |
| Ledger.Ledger.UpdateWallet | bot/database.py:41-55 | the wallet column written and one 'wallet_updated' entry logged, even for a missing user |
| Ledger.Ledger.CreateDeal | bot/database.py:69-93 | one new deal with a fresh id, awaiting confirmation, commission amount x 0.01, no flags; logged with the buyer as initiator |
| Ledger.Ledger.ConfirmDealCreation | bot/database.py:95-109 | the named deal becomes awaiting payment with creation confirmed, whatever its status; logged |
| Ledger.Ledger.CancelDeal | bot/database.py:111-123 | the named deal becomes cancelled, whatever its status; logged |
| Ledger.Ledger.ConfirmPayment | bot/database.py:125-138 | the named deal becomes payment received with payment paid, whatever its status; nothing logged |
| Ledger.Ledger.ConfirmDelivery | bot/database.py:140-168 | the row becomes DeliveryConfirmed of itself; one 'deal_completed' entry exactly when both flags are then set, again on every repeat |
| Ledger.Ledger.UpdateDealStatus | bot/database.py:208-219 | the named deal takes the given status, whatever its current one |
| Ledger.Ledger.ForceCancelDeal | bot/database.py:328-339 | the named deal becomes cancelled, whatever its status; nothing logged |
| Ledger.Ledger.ExpireOldDeals | bot/database.py:240-258 | the deals table becomes the sweep of the old one at `now`; finished deals are kept |
| WalletRules.ValidateWalletAddress | bot/utils.py:17-23 | an accepted address is TON starting "UQ" or BTC starting "bc1", longer than 40 characters |
| WalletRules.WellFormedAddressAccepted | bot/utils.py:19-22 | conversely every such address is accepted |
| WalletRules.ValidAddressNotTooShort | bot/utils.py:20-22 | every accepted address has at least 41 characters, so it passes the wallet dialogue's length check |
| WalletRules.UsdtAddressRefused | bot/utils.py:23 | no USDT address is accepted |
| Keyboards.DealIdOfCallbackData | bot/keyboards/inline.py:31-32 | `prefix:id` read back with `int(split(':')[1])` gives the id |
| Keyboards.DealIdOf | bot/handlers/deals.py:99 | `int(data.split(':')[1])` fails on data without a ':'; with `Keyboards.DealIdOfCallbackData` every button's data reads back its id |
| Keyboards.DealActions | bot/keyboards/inline.py:35-53 | one or two buttons, the last always "back to my deals" |
| Keyboards.DealActionsOffers | bot/keyboards/inline.py:39-51 | delivery button iff payment_received or awaiting_delivery; cancel button iff awaiting_confirmation or awaiting_payment; never both |
| Keyboards.StoredStatusDeliveryButton | bot/keyboards/inline.py:39 | for a stored status the delivery button appears iff the deal is payment received |
| Keyboards.KeyboardsCarryDealId | bot/keyboards/inline.py:28-79 | every deal button of the creation, payment, admin and goods-received keyboards carries its deal's id |
| Keyboards.ConfirmReceivedUnrouted | bot/handlers/deals.py:216 | no registered callback filter accepts data starting `confirm_received:` |
| Keyboards.GoodsReceivedButtonUnrouted | bot/keyboards/inline.py:75-79 | the goods-received button is unrouted and not the `confirm_delivery:` prefix |
| Keyboards.NoSentButtonConfirmsDelivery | bot/keyboards/inline.py:3-79 | no button of the seven keyboards the handlers send (main menu, role, currency, creation, payment, admin, goods received) carries `confirm_delivery:` data |
| Wizard.Conversation.Clear | bot/handlers/deals.py:94 | leaves the dialogue and forgets every answer |
| DealHandlers.PartiesFromRole | bot/handlers/deals.py:83-84 | "buyer" makes the caller buyer and the partner seller, "seller" the reverse, distinct when caller and partner differ; another role makes the partner both |
| DealHandlers.GarantAddress | bot/handlers/deals.py:85 | the escrow address starts "GARANT_" |
| DealHandlers.PartnerCheckedStable | bot/handlers/deals.py:43-53 | the partner check survives other users' ledger changes |
| DealHandlers.StartDealCreation | bot/handlers/deals.py:16-24 | enters the role step, keeping earlier answers |
| DealHandlers.ChooseRole | bot/handlers/deals.py:26-34 | stores the text after the first ':' as role, registers the caller, asks for the partner |
| DealHandlers.EnterPartnerId | bot/handlers/deals.py:36-53 | non-integer text, an unknown id and the caller's own id are refused at the same step; only then is a distinct existing partner stored and the amount asked; the caller is registered only after the lookup succeeds |
| DealHandlers.EnterAmount | bot/handlers/deals.py:55-66 | only a positive amount is stored and advances to the currency step; otherwise nothing changes |
| DealHandlers.ChooseCurrency | bot/handlers/deals.py:68-95 | a seller without a wallet for the currency gets no deal; otherwise one deal with parties by role, expiring now + 2 h; the dialogue is cleared either way; with the partner check, buyer != seller, both registered, amount > 0 |
| DealHandlers.ConfirmCreation | bot/handlers/deals.py:97-125 | malformed data raises, a missing deal is refused unchanged; otherwise any caller confirms, whatever the status |
| DealHandlers.RejectCreation | bot/handlers/deals.py:127-139 | a missing deal is refused unchanged; otherwise any caller cancels, whatever the status |
| DealHandlers.ConfirmDeliveryCallback | bot/handlers/deals.py:216-234 | the caller counts as buyer iff its user id is the buyer id (a non-party counts as seller); the completion reply iff the status afterwards is completed |
| DealHandlers.CompletionReplyLogged | bot/handlers/deals.py:224-233 | while completions are sound, the completion reply comes exactly with a logged completion |
| DealHandlers.CancelDealCallback | bot/handlers/deals.py:236-242 | any caller cancels any deal, completed ones included, with no existence check; the cancellation is logged regardless |
| DealHandlers.PaymentSent | bot/handlers/deals.py:245-293 | a missing deal is refused unchanged; a caller other than the buyer is refused with the deal unchanged; the buyer moves the deal under admin review from any status |
| WalletHandlers.ChooseWalletCurrency | bot/handlers/wallet.py:28-34 | stores the chosen currency and waits for the address |
| WalletHandlers.SaveWalletAddress | bot/handlers/wallet.py:36-47 | a stripped address under 20 characters is refused, nothing written and the dialogue kept; otherwise the caller's column for the stored currency gets the address, unvalidated, and the dialogue is cleared |
| WalletHandlers.SavedAddressMayFailFormat | bot/handlers/wallet.py:41 | addresses of 20 to 40 characters are saved although the format check refuses them |
| AdminHandlers.IsAdmin | bot/handlers/admin.py:12-14 | exactly Telegram user 757042486 is the administrator |
| AdminHandlers.CommandDealId | bot/handlers/admin.py:198-202 | the id read from any command text is `int()` of the part after its last '_', or of the whole text when it has none; it is refused exactly when that part is not an integer |
| AdminHandlers.CancelCommand | bot/handlers/admin.py:149 | the offered cancel command starts "/cancel_deal_" |
| AdminHandlers.CancelCommandRoundTrip | bot/handlers/admin.py:199 | the id after the last '_' of the offered command is the deal's id |
| AdminHandlers.CmdCancelDeal | bot/handlers/admin.py:191-250 | non-admins refused; a bad id, a missing deal and a completed, cancelled or expired deal refused unchanged; otherwise cancelled; finished deals are kept |
| AdminHandlers.AdminConfirmPayment | bot/handlers/admin.py:253-318 | non-admins refused; any existing deal becomes payment received whatever its status |
| AdminHandlers.AdminRejectPayment | bot/handlers/admin.py:321-364 | non-admins refused; any existing deal becomes payment rejected whatever its status |
| AdminHandlers.Truncated | bot/handlers/admin.py:57-66 | shows the first `cap` rows, and the number left over only when the list is longer |
| AdminHandlers.UsersPanel | bot/handlers/admin.py:42-68 | non-admins get nothing; the first min(50, len) users of get_all_users, highest id first; "len - 50 more" only beyond 50 |
| AdminHandlers.DealsPanel | bot/handlers/admin.py:70-112 | non-admins get nothing; the first min(30, len) deals of get_all_deals, newest first; "len - 30 more" only beyond 30 |
| AdminHandlers.ActiveDealsPanel | bot/handlers/admin.py:114-152 | non-admins get nothing; exactly the deals in the four active statuses, newest first, none left out; "nothing to show" iff there is no such deal |
| AdminHandlers.StatsPanel | bot/handlers/admin.py:154-189 | admin only; the system figures of get_system_stats; cancelled and expired are the counts of deals in those statuses, and the TON, BTC and USDT figures the counts of completed deals in each currency; the currency figures sum to at most the completed count; completed, active, cancelled and expired together at most all deals |
| AdminHandlers.CurrencyCountsBounded | bot/handlers/admin.py:165-167 | TON, BTC and USDT completed counts together at most the completed count |
| AdminHandlers.StatusCountsBounded | bot/handlers/admin.py:170-171 | completed, active, cancelled and expired counts together at most all deals |
| AdminHandlers.AdminPanel | bot/handlers/admin.py:16-40 | statistics for the admin only, completed + active <= total |
| Profile.ProfileListsPartition | bot/handlers/profile.py:12-13 | active = the three profile statuses (never one under admin review), completed = 'completed'; disjoint; together at most the user's deals |
| Profile.ProfileSummary | bot/handlers/profile.py:9-33 | total deals and success rate come from the stored row; the two counts fit within the user's deals |
| Profile.ProfileCountsMeaning | bot/handlers/profile.py:11-13 | the counts are those of the user's own deals in each class; every completed deal of the user is counted |
| Profile.NewUserTotalsZero | bot/handlers/profile.py:23-26 | a newly registered user shows total 0 and rate 0 whatever deals exist |
| Profile.ShowProfile | bot/handlers/profile.py:35-58 | registers the caller and shows the summary of its row |
| Scenarios.BuyerOpensAndCompletes | bot/handlers/deals.py:26-261 | the full dialogue and button sequence ends completed with commission 1 on 100 when both parties press the delivery button `deal_actions` would build; the buyer's confirmation alone does not complete it |
| Scenarios.UnpaidDealExpires | bot/database.py:240-258 | an unpaid deal expires after two hours; a second sweep changes nothing; the admin command refuses it; the cancel button still rewrites it |

## Left out

- Telegram I/O is not modelled: sending and editing messages, alerts, parse modes, the emoji and status-name display maps, and the text of replies. A `Reply` stands for the message. Notifications to the other party and the administrator are no-ops. In choose_currency, payment_sent, cmd_cancel_deal and the two admin payment buttons a failed notification is caught and changes nothing.
- Messages sent without a guard are not modelled either. confirm_creation and reject_creation notify the buyer without one, and confirm_delivery_callback edits its message and notifies the other party without one (bot/handlers/deals.py:228-231). A failure there, or a missing buyer row, raises after the ledger has changed and skips the final answer to the button. The model keeps the change and drops the raise.
- The display-only handlers (show_my_deals, manage_wallets, start.py) are not modelled. Their ledger effect is get_or_create_user, as `Profile.ShowProfile` shows for the profile.
- The PDF document generator is not modelled. It is a foreign rendering library.
- The scheduler and polling loop are plumbing. The sweep is `ExpireOldDeals(now)`.
- Connections, commits and SQL text are replaced by sequences. Concurrency is out of scope: the sweep racing a user action, or two users registering at once.
- Floating point is not modelled. Amounts and the 1 % commission are exact reals, and `:.2f` formatting is left out.
- DealHandlers.EnterAmount: takes the value `float()` reads from the text with ',' replaced by '.', not the text. Float parsing, and the acceptance of `inf` and `nan`, are not modelled.
- Text.ParseInt: models `int()` on an optional sign and ASCII digits only. Python also accepts surrounding whitespace, '_' separators and non-ASCII digits.
- Text.Strip: removes the ten ASCII characters Python counts as whitespace (tab to carriage return, 0x1C to 0x1F, space). The non-ASCII whitespace Python also strips, such as U+0085 and U+00A0, is kept.
- A non-text message reaching the partner, amount or wallet step raises in the code. It is not modelled; the text is always a string.
- Ledger.Ledger.LogEvent: the store never fails, so the code's swallowing of a failed log insert is not modelled. The JSON `details` text is a `Details` value.
- Ledger.Ledger.ConfirmDelivery: for a missing deal the code raises on reading the flags back. The model changes nothing and returns. The handler checks existence first.
- Time is seconds since an arbitrary origin, passed as `now`. Wall-clock reads are parameters.
- Users' `reg_date`, `full_name` and password hash are not modelled. The escrow address is an opaque string; its uniqueness is not guaranteed by the code and not claimed.
- The `payment_status` column default is not named by the code. New rows get `PaymentPending`. The `total_deals` and `success_rate` defaults are taken as 0, and no modelled code writes them.
- `get_user_deals` orders by `date_created`. The model orders by id, which creation order follows. The username join of `get_all_deals` is not modelled.
- Routing is modelled by preconditions:
  - ChooseRole and ChooseCurrency require their dialogue step and prefix.
  - ChooseWalletCurrency requires that the deal dialogue is not in its currency step, since the deals router is registered first.
  - Text messages sent during a dialogue step go to that step's handler, with exceptions. The start router is registered first and has no state filter, so it takes /start and the four reply-keyboard texts (bot/handlers/start.py:11 and 68-90) in every step. Those handlers are not modelled.
- Keyboards.DealActions: only the buttons and their callback data are modelled. Their labels are not.
- hash_password, format_datetime and generate_garant_address in bot/utils.py are not modelled. None of them is called by the modelled handlers.
