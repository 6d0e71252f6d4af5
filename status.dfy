/** The closed set of deal statuses that the ledger stores in its `status`
    column, and the sets of them that the bot's screens and guards name. */
module DealStatus {

  datatype Status =
    | AwaitingConfirmation
    | AwaitingPayment
    | AwaitingAdminConfirmation
    | PaymentReceived
    | PaymentRejected
    | Completed
    | Cancelled
    | Expired

  /** The string stored in the `status` column. */
  function Name(s: Status): string {
    match s
    case AwaitingConfirmation => "awaiting_confirmation"
    case AwaitingPayment => "awaiting_payment"
    case AwaitingAdminConfirmation => "awaiting_admin_confirmation"
    case PaymentReceived => "payment_received"
    case PaymentRejected => "payment_rejected"
    case Completed => "completed"
    case Cancelled => "cancelled"
    case Expired => "expired"
  }

  /** Distinct statuses are stored as distinct strings, so the handlers'
      string comparisons on the column decide the status itself. */
  lemma NameInjective(s: Status, t: Status)
    ensures Name(s) == Name(t) <==> s == t
  {
  }

  /** Statuses that the admin force-cancel command refuses to touch
      (admin.py's list at the cancel command). */
  const Finished: set<Status> := {Completed, Cancelled, Expired}

  /** The four statuses that the system statistics and the admin's
      active-deal listing call active. */
  const AdminActive: set<Status> :=
    {AwaitingConfirmation, AwaitingPayment, AwaitingAdminConfirmation, PaymentReceived}

  /** The three statuses that the user's profile screen calls active. */
  const ProfileActive: set<Status> := {AwaitingConfirmation, AwaitingPayment, PaymentReceived}
}
