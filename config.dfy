/** The two configuration constants the modelled code reads. */
module Config {
  /** The Telegram id of the single administrator. */
  const AdminId: int := 757042486

  /** How long a new deal stays payable. */
  const DealExpiryHours: int := 2

  /** Time is counted in seconds. */
  const SecondsPerHour: int := 3600
}
