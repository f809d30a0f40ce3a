/** Shaping one page of the account_lines answer into trust lines, and the
    request record for that page (src/api/ledger/trustlines.js). */
module Trustlines {
  import opened Base

  /** The parts of a parsed trust line this layer reads (currency,
      counterparty and balance), plus `limit`, which is kept so that a
      balance can be shown to lose exactly the limit. The parser that builds
      them from the wire record is a parameter of the model. */
  datatype TrustlineSpecification = TrustlineSpecification(currency: string, counterparty: string, limit: string)
  datatype TrustlineState = TrustlineState(balance: string)
  datatype Trustline = Trustline(specification: TrustlineSpecification, state: TrustlineState)

  /** The caller's options for getTrustlines and getBalances. */
  datatype TrustlinesOptions = TrustlinesOptions(
    currency: Option<string>,
    counterparty: Option<string>,
    limit: Option<nat>,
    ledgerVersion: Option<int>)

  /** One page as the server answers it: the continuation marker and the
      wire records, of type `W`. */
  datatype AccountLinesPage<W> = AccountLinesPage(marker: Option<string>, lines: seq<W>)

  /** One formatted page: the marker passed through and the kept trust lines. */
  datatype TrustlinesPage = TrustlinesPage(marker: Option<string>, results: seq<Trustline>)

  /** The smallest and largest page size sent to the server. */
  const MinPageSize: int := 10
  const MaxPageSize: int := 400

  /** currencyFilter: no filter (`null`) accepts every line; a filter
      accepts exactly the lines in its currency. */
  predicate CurrencyFilter(currency: Option<string>, trustline: Trustline): (accepted: bool)
    ensures currency.None? ==> accepted
    ensures currency.Some? ==> (accepted <==> trustline.specification.currency == currency.value)
  {
    currency.None? || trustline.specification.currency == currency.value
  }

  /** `trustlines.filter(currencyFilter)`: exactly the accepted lines, in order. */
  function FilterByCurrency(currency: Option<string>, trustlines: seq<Trustline>): (r: seq<Trustline>)
    ensures IsSubsequence(r, trustlines)
    ensures forall t :: t in r ==> CurrencyFilter(currency, t)
    ensures forall t :: t in trustlines && CurrencyFilter(currency, t) ==> t in r
    ensures forall t :: CurrencyFilter(currency, t) ==> multiset(r)[t] == multiset(trustlines)[t]
    ensures currency.None? ==> r == trustlines
    decreases |trustlines|
  {
    if trustlines == [] then []
    else
      var rest := FilterByCurrency(currency, trustlines[1..]);
      assert trustlines == [trustlines[0]] + trustlines[1..];
      if CurrencyFilter(currency, trustlines[0]) then
        assert ([trustlines[0]] + rest)[1..] == rest;
        [trustlines[0]] + rest
      else
        rest
  }

  /** `lines.map(parseAccountTrustline)`. */
  function ParseLines<W>(parse: W -> Trustline, lines: seq<W>): (r: seq<Trustline>)
    ensures |r| == |lines|
    ensures forall i :: 0 <= i < |lines| ==> r[i] == parse(lines[i])
  {
    seq(|lines|, i requires 0 <= i < |lines| => parse(lines[i]))
  }

  /** The currency filter formatResponse applies: `options.currency || null`. */
  function CurrencyOption(options: TrustlinesOptions): (c: Option<string>)
    ensures c.None? <==> !Truthy(options.currency)
    ensures c.Some? ==> c == options.currency
  {
    if Truthy(options.currency) then options.currency else None
  }

  /** formatResponse: the marker passes through; the results are the parsed
      lines in the wanted currency, in the server's order. */
  function FormatResponse<W>(options: TrustlinesOptions, data: AccountLinesPage<W>,
                             parse: W -> Trustline): (r: TrustlinesPage)
    ensures r.marker == data.marker
    ensures IsSubsequence(r.results, ParseLines(parse, data.lines))
    ensures |r.results| <= |data.lines|
    ensures !Truthy(options.currency) ==> r.results == ParseLines(parse, data.lines)
    ensures Truthy(options.currency) ==>
              forall t :: t in r.results ==> t.specification.currency == options.currency.value
    ensures forall i :: 0 <= i < |data.lines| && CurrencyFilter(CurrencyOption(options), parse(data.lines[i])) ==>
              parse(data.lines[i]) in r.results
    ensures forall t :: CurrencyFilter(CurrencyOption(options), t) ==>
              multiset(r.results)[t] == multiset(ParseLines(parse, data.lines))[t]
    ensures forall t :: !CurrencyFilter(CurrencyOption(options), t) ==> multiset(r.results)[t] == 0
  {
    var parsed := ParseLines(parse, data.lines);
    var results := FilterByCurrency(CurrencyOption(options), parsed);
    SubsequenceNotLonger(results, parsed);
    TrustlinesPage(data.marker, results)
  }

  /** The request record for one page. */
  datatype AccountLinesRequest = AccountLinesRequest(
    account: string,
    ledger: int,
    marker: Option<string>,
    limit: int,
    peer: Option<string>)

  /** utils.clamp, by its plain meaning: the nearest value in [min, max]. */
  function Clamp(value: int, min: int, max: int): (r: int)
    requires min <= max
    ensures min <= r <= max
    ensures min <= value <= max ==> r == value
    ensures value < min ==> r == min
    ensures value > max ==> r == max
  {
    if value < min then min else if value > max then max else value
  }

  /** The record getAccountLines sends: the caller's account, ledger and
      marker as given, the counterparty as `peer`, and the page size clamped
      into [10, 400]. */
  function AccountLinesRequestFor(address: string, ledgerVersion: int, options: TrustlinesOptions,
                                  marker: Option<string>, limit: int): (r: AccountLinesRequest)
    ensures r.account == address && r.ledger == ledgerVersion && r.marker == marker
    ensures r.peer == options.counterparty
    ensures MinPageSize <= r.limit <= MaxPageSize
    ensures MinPageSize <= limit <= MaxPageSize ==> r.limit == limit
    ensures limit < MinPageSize ==> r.limit == MinPageSize
    ensures limit > MaxPageSize ==> r.limit == MaxPageSize
  {
    AccountLinesRequest(address, ledgerVersion, marker, Clamp(limit, MinPageSize, MaxPageSize), options.counterparty)
  }
}
