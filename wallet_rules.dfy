/** The wallet-address rules: the format check of bot/utils.py and the
    length check that the wallet dialogue applies before saving. */
module WalletRules {
  import opened Text

  /** The wallet dialogue refuses a stripped address shorter than this. */
  const MinAddressLength: nat := 20

  /** True when a saved address would be refused by the wallet dialogue. */
  predicate TooShort(address: string) {
    |address| < MinAddressLength
  }

  /** The format check: a TON address starts with "UQ", a BTC address with
      "bc1", and both are longer than 40 characters; any other currency,
      USDT among them, is refused. */
  function ValidateWalletAddress(address: string, currency: string): (ok: bool)
    ensures ok ==> currency == "TON" || currency == "BTC"
    ensures ok ==> |address| > 40
    ensures ok && currency == "TON" ==> address[..2] == "UQ"
    ensures ok && currency == "BTC" ==> address[..3] == "bc1"
  {
    if currency == "TON" then StartsWith(address, "UQ") && |address| > 40
    else if currency == "BTC" then StartsWith(address, "bc1") && |address| > 40
    else false
  }

  /** The converse: a long enough address with the currency's prefix passes. */
  lemma WellFormedAddressAccepted(address: string, currency: string)
    requires |address| > 40
    requires (currency == "TON" && address[..2] == "UQ") || (currency == "BTC" && address[..3] == "bc1")
    ensures ValidateWalletAddress(address, currency)
  {
  }

  /** Every address the format check accepts is also long enough for the
      wallet dialogue, so the dialogue's check is the weaker of the two. */
  lemma ValidAddressNotTooShort(address: string, currency: string)
    requires ValidateWalletAddress(address, currency)
    ensures |address| >= 41 && !TooShort(address)
  {
  }

  lemma UsdtAddressRefused(address: string)
    ensures !ValidateWalletAddress(address, "USDT")
  {
  }
}
