/** Shaping the balances of an account from its XRP balance and its trust
    lines, and choosing the ledger version (src/api/ledger/balances.js). */
module Balances {
  import opened Base
  import opened Trustlines

  /** A balance in one currency; XRP carries no counterparty. */
  datatype Balance = Balance(currency: string, counterparty: Option<string>, value: string)

  /** The merged answers of the two sub-queries. */
  datatype RawBalances = RawBalances(xrp: string, trustlines: seq<Trustline>)

  /** getTrustlineBalanceAmount: the balance carries exactly the line's
      currency, counterparty and balance, so of the modelled fields only the
      limit is left out; it always names a counterparty, unlike the XRP balance. */
  function TrustlineBalanceAmount(trustline: Trustline): (b: Balance)
    ensures b.counterparty.Some?
    ensures Trustline(TrustlineSpecification(b.currency, b.counterparty.value, trustline.specification.limit),
                      TrustlineState(b.value)) == trustline
  {
    Balance(trustline.specification.currency, Some(trustline.specification.counterparty),
            trustline.state.balance)
  }

  /** The XRP balance is listed unless the caller filters by counterparty or
      by a currency other than XRP. */
  predicate IncludesXrp(options: TrustlinesOptions): (included: bool)
    ensures included <==> !Truthy(options.counterparty) &&
                          (CurrencyOption(options).None? || CurrencyOption(options).value == "XRP")
  {
    !(Truthy(options.counterparty) || (Truthy(options.currency) && options.currency.value != "XRP"))
  }

  /** Where the trust-line balances start in the untruncated list. */
  function XrpOffset(options: TrustlinesOptions): nat {
    if IncludesXrp(options) then 1 else 0
  }

  /** `options.limit` is truthy. */
  predicate HasLimit(options: TrustlinesOptions) {
    options.limit.Some? && options.limit.value != 0
  }

  /** The list before truncation, written as one expression: the optional
      XRP balance followed by the trust-line balances. */
  function AllBalances(options: TrustlinesOptions, balances: RawBalances): (all: seq<Balance>)
    ensures |all| == |balances.trustlines| + XrpOffset(options)
  {
    (if IncludesXrp(options) then [Balance("XRP", None, balances.xrp)] else []) +
    seq(|balances.trustlines|, i requires 0 <= i < |balances.trustlines| =>
      TrustlineBalanceAmount(balances.trustlines[i]))
  }

  /** formatBalances: one balance per trust line in the server's order,
      the XRP balance put in front when no filter excludes it, and the tail
      cut so that at most `limit` entries remain. */
  method FormatBalances(options: TrustlinesOptions, balances: RawBalances) returns (result: seq<Balance>)
    ensures result <= AllBalances(options, balances)
    ensures |result| ==
              var untruncated := |balances.trustlines| + XrpOffset(options);
              if HasLimit(options) && untruncated > options.limit.value then options.limit.value
              else untruncated
    ensures IncludesXrp(options) ==> |result| >= 1 && result[0] == Balance("XRP", None, balances.xrp)
    ensures forall i :: XrpOffset(options) <= i < |result| ==>
              result[i] == TrustlineBalanceAmount(balances.trustlines[i - XrpOffset(options)])
    ensures forall i :: 0 <= i < |result| && (i > 0 || !IncludesXrp(options)) ==>
              result[i].counterparty.Some?
  {
    var lines := balances.trustlines;
    result := seq(|lines|, i requires 0 <= i < |lines| => TrustlineBalanceAmount(lines[i]));
    if IncludesXrp(options) {
      var xrpBalance := Balance("XRP", None, balances.xrp);
      result := [xrpBalance] + result;
    }
    if HasLimit(options) && |result| > options.limit.value {
      var toRemove := |result| - options.limit.value;
      result := result[..|result| - toRemove];
    }
  }

  /** getLedgerVersionHelper: an explicit version (anything but `null` or
      `undefined`, so also 0) is used as given; otherwise the answer of the
      remote's current-ledger query, error included. */
  function LedgerVersionHelper<E>(optionValue: Option<int>, currentLedger: Result<int, E>): (r: Result<int, E>)
    ensures optionValue.Some? ==> r == Ok(optionValue.value)
    ensures optionValue.None? ==> r == currentLedger
  {
    if optionValue.Some? then Ok(optionValue.value) else currentLedger
  }

  /** An explicit version does not depend on what the remote would answer. */
  lemma ExplicitVersionIgnoresRemote<E>(v: int, a: Result<int, E>, b: Result<int, E>)
    ensures LedgerVersionHelper(Some(v), a) == LedgerVersionHelper(Some(v), b) == Ok(v)
  {
  }
}
