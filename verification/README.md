# ripple-lib read path: balances and trust lines

This project is a Dafny model of the deterministic core behind the ripple-lib
API calls `getBalances` and `getTrustlines`. It covers three pieces of code.

- The shared helpers in `src/api/common/utils.js`:
  - conversion between drops and XRP;
  - the wire form of an amount;
  - the error-first callback combinators `composeAsync`, `convertErrors` and `convertExceptions`;
  - the rewriting of snake_case response keys into camelCase.
- The shaping of an `account_lines` page in `src/api/ledger/trustlines.js`:
  the currency filter, `formatResponse`, and the request record built for each page.
- The shaping of the balance list in `src/api/ledger/balances.js`, and the
  choice of ledger version.

Modules, one per source file:

- `Base` (base.dfy): optional values, results, JavaScript truthiness of optional
  strings, and the subsequence relation.
- `Utils` (utils.dfy): the helpers of `utils.js`.
  - Decimal amounts are exact rationals (`real`).
  - Callback payloads are values of a small JavaScript value type, `Json`.
  - Errors are objects of class `ErrorObject`. `convertErrors` overwrites their
    `data` field in place.
  - `convertKeysFromSnakeCaseToCamelCase` is a method whose loop fills the
    accumulator one property at a time. It is proved equal to the function
    `CamelKeys`, and the properties of the conversion are lemmas about that function.
- `Trustlines` (trustlines.dfy): `currencyFilter`, `formatResponse` and the page request.
- `Balances` (balances.dfy): `getTrustlineBalanceAmount`, `formatBalances` and
  `getLedgerVersionHelper`.
  - `formatBalances` is a method that reassigns a local list, as the source's
    `unshift` and `splice` change the array in place.

Calls to the server and to collaborators outside this model become parameters:

- the current-ledger answer of `remote.getLedgerSequence`;
- the page answer of `remote.requestAccountLines`;
- the trust-line parser `parseAccountTrustline`;
- the function and arguments given to `convertExceptions`;
- the wrapper given to `composeAsync`.

## Model

| member | source | states |
|---|---|---|
| `Utils.DropsToXrp` | src/api/common/utils.js:12-14 | The XRP value times 10^6 is exactly the drop count. |
| `Utils.XrpToDrops` | src/api/common/utils.js:16-18 | The drop count is never above the exact product xrp × 10^6, and is less than one drop below it. |
| `Utils.XrpToDropsIsFloor` | src/api/common/utils.js:16-18 | The drop count is the only integer with that property, so it is the floor. |
| `Utils.DropsRoundTrip` | src/api/common/utils.js:12-18 | `xrpToDrops(dropsToXrp(d)) == d` for every whole drop count d. |
| `Utils.XrpRoundTripLoss` | src/api/common/utils.js:12-18 | Converting XRP to drops and back never gains value, and loses less than one drop. |
| `Utils.XrpToDropsMonotonic` | src/api/common/utils.js:16-18 | A larger XRP value never gives fewer drops. |
| `Utils.ToRippledAmount` | src/api/common/utils.js:20-30 | XRP gives the drop conversion of the value. Any other currency keeps its currency and value. The issuer is a truthy counterparty, else a truthy issuer, else absent, and it is never the empty string. |
| `Utils.XrpAmountFromDrops` | src/api/common/utils.js:20-23 | An XRP amount written from d drops goes to the wire as exactly d drops, whatever its issuer fields. |
| `Utils.Put` | src/api/common/utils.js:107 | Assigning a property keeps keys distinct. An existing key keeps its place. A new key is appended. The assigned key then holds the new value, and every other property is unchanged. |
| `Utils.PutAll` | src/api/common/utils.js:102-109 | The accumulator after successive `result[newKey] = …` assignments into `{}`. It ensures its keys are distinct. `PutAllAppend`, `PutAllKeys` and `PutAllDistinct` state the rest. |
| `Utils.PutAllAppend` | src/api/common/utils.js:107 | One more assignment after a run of assignments is `Put` on the object built so far. |
| `Utils.PutAllKeys` | src/api/common/utils.js:102-109 | An object filled by successive assignments has exactly the assigned keys. |
| `Utils.PutAllDistinct` | src/api/common/utils.js:102-109 | Assigning distinct keys one after the other yields exactly those properties, in that order. |
| `Utils.ToUpperAscii` | src/api/common/utils.js:105 | `toUpperCase` on a matched letter: the result is upper case, an upper-case letter is kept, and a lower-case letter becomes the upper-case letter at the same place in the alphabet. |
| `Utils.HasSnake` | src/api/common/utils.js:104 | `FINDSNAKE.test(key)`: some index starts a letter, `_`, letter match. It has no contract of its own. `NoSnakeKeyUnchanged`, `SnakeKeyShortened` and `CamelCaseKeyUnchangedIff` state what it decides. |
| `Utils.CamelCaseKey` | src/api/common/utils.js:98-105 | The rewritten key is never longer than the original. |
| `Utils.NoSnakeKeyUnchanged` | src/api/common/utils.js:104-106 | A key without a letter `_` letter match is not changed. |
| `Utils.SnakeKeyShortened` | src/api/common/utils.js:105 | A key with a match loses at least one character. |
| `Utils.CamelCaseKeyUnchangedIff` | src/api/common/utils.js:104-106 | A key is unchanged exactly when `FINDSNAKE.test` fails on it. |
| `Utils.CamelCaseKeyNotIdempotent` | src/api/common/utils.js:98-105 | Matches do not overlap: `a_b_c` becomes `aB_c`, and a second pass turns that into `aBC`. |
| `Utils.NatToString` | src/api/common/utils.js:102 | The key `_.reduce` gives an array index: at least one character, all of them decimal digits, and at least two from 10 on. |
| `Utils.NatToStringInjective` | src/api/common/utils.js:102 | Different indices give different keys, so an array's keys never collide. |
| `Utils.IndexKeyUnchanged` | src/api/common/utils.js:102-106 | An index key has no `FINDSNAKE` match and is left unchanged by the rewriting. |
| `Utils.ArrayBecomesIndexedObject` | src/api/common/utils.js:100-109 | An array is reduced into an object keyed by its decimal indices, in order, with converted values. |
| `Utils.CamelKeys` | src/api/common/utils.js:99-112 | The value `convertKeysFromSnakeCaseToCamelCase` computes. It has no contract of its own. Its properties are the lemmas `CamelKeysOfScalars`, `CamelKeysKeys`, `CamelKeysInOrder`, `ArrayBecomesIndexedObject` and `AlreadyCamelUnchanged`. The loop method is proved equal to it. |
| `Utils.CamelPairs` | src/api/common/utils.js:102-108 | The first n assignments `_.reduce` makes: n pairs, pair i being converted key i with recursively converted value i. |
| `Utils.ConvertKeysFromSnakeCaseToCamelCase` | src/api/common/utils.js:99-112 | The accumulator loop computes `CamelKeys` of its input. |
| `Utils.CamelKeysOfScalars` | src/api/common/utils.js:100-111 | Values that are not objects come back unchanged, and `null` becomes `{}`. |
| `Utils.CamelKeysKeys` | src/api/common/utils.js:102-109 | The converted object has exactly the converted keys of the original. Keys that collide are kept once. |
| `Utils.CamelKeysInOrder` | src/api/common/utils.js:102-109 | Without collisions, the result's properties are the converted entries in the original order: property i is converted key i with recursively converted value i. |
| `Utils.AlreadyCamelUnchanged` | src/api/common/utils.js:99-112 | A tree of objects and scalars with no match in any key is returned unchanged. |
| `Utils.ComposeAsync` | src/api/common/utils.js:55-70 | An incoming error is forwarded with its data. On success the callback gets `(null, wrapper(data))`. If the wrapper throws, the callback gets that exception and no data. No error is ever delivered with a wrapper result. |
| `Utils.ComposeAsyncBypassesWrapper` | src/api/common/utils.js:57-60 | When an error comes in, the wrapper has no influence on the outcome. |
| `Utils.Normalized` | src/api/common/utils.js:72-86 | No error stays no error. A domain error keeps its class, message and remote message. Any other error becomes a RippleError whose message is `remote.error_message` when present, else its own message. The data is attached in every case. |
| `Utils.NormalizedIdempotent` | src/api/common/utils.js:72-86 | Normalizing twice equals normalizing once with the last data: the kind and message are never lost or wrapped twice. |
| `Utils.ConvertErrors` | src/api/common/utils.js:72-86 | The callback's error is `Normalized` of the incoming one. A domain error is the same object with its `data` overwritten. A foreign error is replaced by a fresh object and left untouched. |
| `Utils.ConvertExceptions` | src/api/common/utils.js:88-96 | f's normal result is passed through. A throw becomes a fresh ApiError with the thrown message. |
| `Base.SubsequenceNotLonger` | src/api/ledger/trustlines.js:24-25 | A subsequence is never longer than its source, and holds only elements of it. `FormatResponse` takes its length bound from this lemma. |
| `Trustlines.CurrencyFilter` | src/api/ledger/trustlines.js:17-19 | No filter (`null`) accepts every line. A filter accepts a line exactly when the line's currency equals it. `FilterByCurrency` and `FormatResponse` state their results in terms of this predicate. |
| `Trustlines.FilterByCurrency` | src/api/ledger/trustlines.js:17-25 | The kept lines are an order-preserving subsequence. Every kept line passes the filter, and every passing line is kept as often as it occurs. No filter keeps all lines. |
| `Trustlines.ParseLines` | src/api/ledger/trustlines.js:24 | One parsed trust line per wire record, in order: entry i is the parser applied to record i. `FormatResponse` states its results as a subsequence of this list. |
| `Trustlines.CurrencyOption` | src/api/ledger/trustlines.js:25 | A missing or empty currency means no filter; otherwise the filter is the given currency. |
| `Trustlines.FormatResponse` | src/api/ledger/trustlines.js:21-27 | The marker is copied. The results are an order-preserving subsequence of the parsed lines, never longer than the page. Without a currency they are all parsed lines. With one, every result has that currency. Every parsed line in that currency appears as often as it does among the parsed lines, and no other line appears. |
| `Trustlines.Clamp` | src/api/ledger/trustlines.js:36 | The result lies in [min, max] and is the nearest value there to the input. |
| `Trustlines.AccountLinesRequestFor` | src/api/ledger/trustlines.js:32-38 | Account, ledger and marker are as given, and the peer is the counterparty option. The page size is clamped into [10, 400]: in-range kept, smaller becomes 10, larger becomes 400. |
| `Balances.TrustlineBalanceAmount` | src/api/ledger/balances.js:23-29 | The balance carries exactly the line's currency, counterparty and balance, and it always names a counterparty. Of the modelled trust-line fields, only `limit` is left out: the balance plus the line's limit rebuilds the modelled trust line. `FormatBalances` states its entries after the XRP one in terms of this function. |
| `Balances.IncludesXrp` | src/api/ledger/balances.js:33-35 | The XRP balance is listed exactly when the counterparty option is falsy and the effective currency filter is absent or `XRP`. `FormatBalances` puts XRP at index 0 exactly under this condition. |
| `Balances.AllBalances` | src/api/ledger/balances.js:32-41 | The list after `map` and the conditional `unshift`: its length is the number of trust lines plus one when XRP is included. `FormatBalances` states its result as a prefix of this list. |
| `Balances.FormatBalances` | src/api/ledger/balances.js:31-47 | The result is a prefix of the untruncated list: the XRP balance (when included), then one balance per trust line in order. XRP sits at index 0 exactly when no counterparty and no non-XRP currency filter is set, and then it survives truncation. The length is min(limit, untruncated length) when the limit is truthy, else the untruncated length. Only the XRP entry lacks a counterparty. |
| `Balances.LedgerVersionHelper` | src/api/ledger/balances.js:57-65 | An explicit version, 0 included, is returned as given. Without one, the result is the remote's answer, error included. |
| `Balances.ExplicitVersionIgnoresRemote` | src/api/ledger/balances.js:60-61 | With an explicit version, the remote's answer does not matter. |

## Left out

- Promise and callback glue is not modelled: `wrapCatch`, `promisify`, `getTrustlinesAsync`, and the `getBalances` and `getTrustlines` promise wrappers. They carry no logic of their own.
- The `async.parallel` fan-out in `getBalancesAsync` is not modelled. It is concurrency, and which error surfaces first depends on the race.
- The marker pager `utils.getRecursive` is not part of this model, nor is `getLedgerOptionsWithLedgerVersion`.
- The validators `validate.*` are not part of this model. So the limit option is a `nat`, since validation rejects negative limits.
- `parseAccountTrustline` is not part of this model; it is a parameter of `FormatResponse`. A trust line keeps the fields this layer reads (currency, counterparty and balance) plus `limit`. The limit is kept only so that `TrustlineBalanceAmount`'s contract can rebuild the line from its balance.
- The parsed trust line's other fields are not modelled. `getTrustlineBalanceAmount` drops them too, and nothing in this layer reads them.
- `utils.clamp` is not part of this model. `Clamp` gives it its plain min/max meaning.
- Network calls become parameters: `remote.requestAccountLines`, `remote.getLedgerSequence` and `utils.getXRPBalance`.
- In `getAccountLines`, the remote's answer passes through `composeAsync(formatResponse)` and `convertErrors`. That wiring is not modelled as one member; each piece is modelled on its own.
- `generateAddress` is not modelled. It wraps key generation and randomness.
- BigNumber parsing and printing of decimal strings, and its rounding of divisions to 20 decimal places, are not modelled. Amounts are exact rationals.
- The errors module is not part of this model. `ErrorClass.Domain` stands for the classes that derive from RippleError, ApiError among them.
- Errors are error objects or absent. A thrown value that is not an object, or a falsy error such as `0` or `''`, is not modelled.
- Objects are property lists in JavaScript enumeration order, and the result is built by appending each new key. That matches the order JavaScript gives the result. Integer-like keys of the result come only from array indices and from integer-like keys of the input, which the conversion leaves unchanged (`IndexKeyUnchanged`). `_.reduce` visits those first and in ascending order. A rewritten key contains letters, so it is never integer-like.
- Functions and other `typeof 'object'` values besides null, arrays and plain objects are not modelled.
- `CamelKeys`: a plain object whose `length` property is a valid array length is not treated as array-like. `_.reduce` walks only indices `0..length-1` of such an object, so `{length: 1, a_b: 5}` becomes `{"0": undefined}` in the source. The model converts every property of every plain object.
- `Put`: a `__proto__` key is treated as an ordinary property. In the source, `result['__proto__'] = v` sets the accumulator's prototype, and the key does not appear in the result.
- The global regular expression's `lastIndex` state is not modelled. `replace` resets it, so `test` always starts at the beginning of a key.
- Callback payloads have one type, `Json`, for the wrapper's input and output alike. The source is untyped, so data of any shape flows through unchanged.
