# Coingi adapter and paper trader, modelled in Dafny

This project models two parts of a trading bot's exchange layer.

The **Coingi exchange adapter** (`exchanges/coingi.js`) covers three things:

- how a raw error is classified as worth retrying or fatal, by matching its message against a fixed list of transient-condition patterns;
- how every transport reply is pre-processed before its callback sees it;
- how each operation's callback reshapes the data it receives: ticker, portfolio, trade history, order placement, order lookup, order check.

It also models the request each operation hands to the transport and the retry policy each operation runs under.

The **paper trader** (`plugins/paperTrader/paperTrader.js`) is a local stand-in for an exchange. It keeps a simulated portfolio and derives a fee factor from its configuration. It truncates fees to eight decimal places and emits `trade` and `portfolioUpdate` events.

Files:

- `options.dfy`: the `Option` type, which stands for JavaScript's `undefined`/`null`.
- `text.dfy`: ASCII case conversion, `charAt(0).toUpperCase() + slice(1)`, and substring search proved equal to "the pattern occurs somewhere". An unanchored regular expression made of literal alternatives matches exactly when one alternative occurs.
- `numbers.dfy`: JavaScript numbers as the shortest decimal that names them. `String(x)` is modelled, with a parser proved to read every printed number back.
- `coingi.dfy`: the adapter.
- `paper_trader.dfy`: the paper trader.

Modelling choices:

- Timestamps are integer milliseconds. `moment(ms).unix()` is `ms / 1000`, which floors for the non-negative divisor. `moment.unix(s)` is `s * 1000`.
- The transport and the retry helper are not modelled. Each callback is a function, or a method with a loop, of the error and data it is handed.
- A callback that would throw a `TypeError` returns `TypeError` in two modelled cases: the ticker callback on an order book with an empty side, and the order-placement callback on a null or undefined reply. Every other reply is taken to have the shape its callback reads (see "## Left out").
- The paper trader's configuration is passed to its constructor. Emitted events are appended to its `events` field. A portfolio copy (`_.clone`) is a datatype value, so it is equal in value to the portfolio and cannot alias it.

Behaviour kept as the code has it:

- `addOrder` encodes side 0 exactly when the lower-cased side is "sell". Every other side, "hold" included, is placed as a buy and not refused (`Coingi.UnknownSideBuys`).
- `getOrder` never calls its callback when the order is null (`Coingi.ReadOrder` returns `None`). The caller is never told that the order was not found.
- The currency is not upper-cased, because the result of `toUpperCase()` is discarded (exchanges/coingi.js:19). The asset is upper-cased.
- A `since` of 0 is falsy. It means "no cutoff", both in the filter and in the request route.
- `getOrder` sends the order id under the key `ordeId`, while `checkOrder` and `cancelOrder` use `orderId`.
- `getPortfolio` reads each record's `availale` field. The entry's amount is undefined whenever a record has no field of that name.
- The paper trader's `price` is never assigned, so every balance it computes is NaN (`PaperTrading.PaperTrader.Valid`).

## Model

| member | source | states |
|---|---|---|
| `Text.Contains` | exchanges/coingi.js:44 | substring search returns true exactly when the pattern occurs somewhere in the message |
| `Text.ContainsAny` | exchanges/coingi.js:37 | a message matches the alternation exactly when one of the literal alternatives occurs in it |
| `Text.UpperIsUpper` | exchanges/coingi.js:94 | an upper-cased name holds no lower-case letter, and upper-casing is idempotent |
| `Text.UpperFirst` | plugins/paperTrader/paperTrader.js:11 | only the first character is upper-cased, the rest is kept, and an empty string stays empty |
| `JsNumber.ParseToString` | exchanges/coingi.js:119-120 | the string form of a number reads back as that same number, so `String(amount)` is exact |
| `JsNumber.ToString` | exchanges/coingi.js:119-120 | `String(x)` is never empty and starts with a minus sign exactly when the number is negative |
| `JsNumber.OneAndAHalf` | exchanges/coingi.js:153 | the number 1.5 prints as the string "1.5" |
| `JsNumber.ToStringInjective` | exchanges/coingi.js:153 | two different numbers never print to the same string |
| `Coingi.ProcessError` | exchanges/coingi.js:40-51 | a falsy error gives no error; otherwise a RetryError iff one of the 11 patterns occurs in the message, else an AbortError; the message is "[coingi.js] " + the original |
| `Coingi.NoDataMatchesNoPattern` | exchanges/coingi.js:37 | none of the 11 recoverable patterns occurs in "NO DATA WAS RETURNED" |
| `Coingi.NoDataIsFatal` | exchanges/coingi.js:57 | the error made up for an empty body is classified as an abort |
| `Coingi.EmptyMessageIsFatal` | exchanges/coingi.js:57 | an error built from a missing `body.error` (empty message) is classified as an abort |
| `Coingi.SocketTimeoutIsRecoverable` | exchanges/coingi.js:37 | a socket timeout message is classified as retryable |
| `Coingi.IsEmpty` | exchanges/coingi.js:57 | `lodash.isEmpty`: undefined, null, booleans and numbers are always empty; a string, array or object is empty exactly when it has no characters, items or keys |
| `Coingi.Truthy` | exchanges/coingi.js:56-58 | JavaScript truthiness, used by the corrected pre-processor for `body.error`: null and undefined are falsy, every array and object is truthy, a number is truthy iff non-zero, a string iff non-empty |
| `Coingi.Property` | exchanges/coingi.js:57 | reading a property throws on null/undefined, gives the field's value on an object that has it, and, for the two names the adapter reads (`error` here and `result` at line 147), gives `undefined` for a missing field or a read from a string, number, boolean or array |
| `Coingi.Stringify` | exchanges/coingi.js:57 | `String(v)`: "undefined", "null", "true"/"false", a string as itself, a number as its `ToString` form (which reads back as that number), an array as its items joined with ",", an object as "[object Object]" |
| `Coingi.JoinItems` | exchanges/coingi.js:57 | `Array.prototype.join(",")`: from each index on, the result is a comma (except before the first item), the item's `String` form (nothing for null or undefined), then the join of the rest; nothing past the end |
| `Coingi.ErrorMessage` | exchanges/coingi.js:57 | the message of `new Error(v)` is "" for undefined, "null" for null, the string itself for a string, and the number's `ToString` form for a number |
| `Coingi.HandleResponse` | exchanges/coingi.js:53-62 | the body is forwarded unchanged; a transport error is classified; with no transport error, an empty body gives the "NO DATA WAS RETURNED" abort and a non-empty body gives the classification of `new Error(body.error)` |
| `Coingi.DataReplyIsAborted` | exchanges/coingi.js:56-58 | as written, a successful non-empty reply with no `error` field still reaches its callback as an abort error |
| `Coingi.OrderPlacedIsAborted` | exchanges/coingi.js:56-58 | a concrete order-placement reply `{result: "a1b2"}` is turned into an abort |
| `Coingi.HandleResponseIntended` | exchanges/coingi.js:53-62 | corrected pre-processor: no error iff the transport succeeded and the body is non-empty and carries no truthy `error`; otherwise the same error as written |
| `Coingi.SetTicker` | exchanges/coingi.js:65-72 | an error is passed on; otherwise the ticker is the first ask and first bid, and a TypeError is thrown when either side of the book is empty |
| `Coingi.EntryOf` | exchanges/coingi.js:94 | a portfolio line's name is the record's currency name upper-cased (no lower-case letter left, same length); its amount is the record's `availale` value, and undefined exactly when the record has no such field |
| `Coingi.SetBalance` | exchanges/coingi.js:85-97 | an error is passed on; otherwise one portfolio line per balance record, in the same order |
| `Coingi.StartTs` | exchanges/coingi.js:106 | the cutoff is absent exactly when `since` is absent or zero (falsy), and is `since` otherwise |
| `Coingi.TradeFields` | exchanges/coingi.js:116-122 | type 0 maps to "sell" and any other type to "buy"; `date` is the timestamp in whole seconds, rounded down; amount and price are `String` of the original numbers and read back as them; `tid` is the timestamp |
| `Coingi.ParseAll` | exchanges/coingi.js:114-124 | one parsed trade per input trade, position by position |
| `Coingi.ReverseIndex` | exchanges/coingi.js:126 | reversal keeps the length and puts element k at position n-1-k |
| `Coingi.ReverseInPlace` | exchanges/coingi.js:126 | `reverse()` on the pushed prefix of the array leaves it equal to the reversal of its old contents, and the rest unchanged |
| `Coingi.CollectTrades` | exchanges/coingi.js:113-124 | the loop pushes exactly the mapped form of the trades the filter keeps, in input order |
| `Coingi.ProcessResults` | exchanges/coingi.js:108-128 | an error is passed on; otherwise the filtered and mapped trades in input order when ascending, and their exact reverse otherwise |
| `Coingi.Kept` | exchanges/coingi.js:115 | every trade the filter keeps is strictly later than the cutoff, when there is one |
| `Coingi.KeptExactly` | exchanges/coingi.js:115 | the filter keeps each trade strictly later than the cutoff, as often as it appears, and no other trade |
| `Coingi.KeptLength` | exchanges/coingi.js:115 | the output never exceeds the input length, and without a cutoff every trade is kept |
| `Coingi.KeptAscending` | exchanges/coingi.js:114-124 | filtering keeps the input's time order and only yields trades of the input |
| `Coingi.TradesInRequestedOrder` | exchanges/coingi.js:126 | for a time-ordered input, the output runs forward in time when ascending and backward otherwise |
| `Coingi.CutoffExample` | exchanges/coingi.js:105-128 | trades at 10, 20 and 30 with cutoff 15 come back, descending, as 30 then 20 |
| `Coingi.SetOrder` | exchanges/coingi.js:143-151 | an error is passed on; otherwise the reply's `result` field is the order id; a reply without `result`, or one that is a string, number or array, delivers `undefined` as the id; a TypeError is thrown on a null or undefined reply |
| `Coingi.ReadOrder` | exchanges/coingi.js:161-175 | an error is passed on; a found order gives its price, base amount and date in milliseconds; a null order never reaches the callback |
| `Coingi.CheckOrderResult` | exchanges/coingi.js:194-203 | an error is passed on; otherwise the result is delivered, and it is true iff the order is non-null with status 2 |
| `Coingi.RetryFor` | exchanges/coingi.js:33-35 | placement and lookups of orders use the bounded policy (10 retries); all other operations use the unbounded one |
| `Coingi.Trader.constructor` | exchanges/coingi.js:10-30 | the asset is upper-cased, the currency keeps its case, and the pair is asset + "-" + currency; for a configuration that is not an object, every field is undefined and the pair is "undefined-undefined" |
| `Coingi.Trader.Request` | exchanges/coingi.js:153 | each operation's endpoint and parameters, as built at lines 74, 99, 130-135, 153, 177, 205 and 212; an order placement carries the adapter's pair, type 0 iff the lower-cased side is "sell" else 1, the price, and the volume `amount.toString()`, which reads back as the amount |
| `Coingi.OrderVolumeExample` | exchanges/coingi.js:153 | an order placement for 1.5 units is sent with the volume string "1.5" |
| `Coingi.Trader.Buy` | exchanges/coingi.js:183-185 | `buy` is an order placement with side "buy", encoded as 1 |
| `Coingi.Trader.Sell` | exchanges/coingi.js:188-190 | `sell` is an order placement with side "sell", encoded as 0 |
| `Coingi.UnknownSideBuys` | exchanges/coingi.js:153 | an unrecognised side such as "hold" is placed as a buy, and "SELL" as a sale |
| `PaperTrading.FeeKey` | plugins/paperTrader/paperTrader.js:11 | the fee key is "fee" followed by `feeUsing` with its first character upper-cased |
| `PaperTrading.MakerAndTakerKeys` | plugins/paperTrader/paperTrader.js:11 | "maker" selects `feeMaker` and "taker" selects `feeTaker` |
| `PaperTrading.FeeFactor` | plugins/paperTrader/paperTrader.js:11 | the factor exists iff the fee key is configured; (1 − factor) × 100 equals fee + slippage; the factor lies in [0, 1] iff fee + slippage lies in [0, 100] |
| `PaperTrading.BalanceAt` | plugins/paperTrader/paperTrader.js:40 | the balance is NaN exactly when the price is undefined, and otherwise currency + price × asset |
| `PaperTrading.ActionFor` | plugins/paperTrader/paperTrader.js:28-34 | "short" maps to "sell", "long" maps to "buy", and any other recommendation gives no action |
| `PaperTrading.TradeEventFor` | plugins/paperTrader/paperTrader.js:36-42 | a trade event exists iff there is an action; it carries that action, price = candle close, date = candle start, a value-equal portfolio copy and its balance |
| `PaperTrading.LongAdviceExample` | plugins/paperTrader/paperTrader.js:23-43 | a long advice at close 100 gives one "buy" event at 100, dated at the candle's start, with a NaN balance |
| `PaperTrading.TruncationIsUnique` | plugins/paperTrader/paperTrader.js:47-53 | at most one multiple of 1e-8 lies within 1e-8 at or below a value, so the fee contract fixes the result |
| `PaperTrading.PaperTrader.constructor` | plugins/paperTrader/paperTrader.js:9-20 | the fee factor is taken from the configuration; the portfolio holds the configured simulation balance with balance `false`; nothing has been emitted yet |
| `PaperTrading.PaperTrader.RelayTrade` | plugins/paperTrader/paperTrader.js:23-43 | the portfolio is unchanged; for long/short exactly one trade event is appended, otherwise nothing; its balance is NaN |
| `PaperTrading.PaperTrader.RelayPortfolio` | plugins/paperTrader/paperTrader.js:44-46 | appends one portfolio update equal in value to the portfolio and changes nothing else |
| `PaperTrading.PaperTrader.ExtractFee` | plugins/paperTrader/paperTrader.js:47-53 | the result is at most amount × fee and less than 1e-8 below it; it is a multiple of 1e-8; it is non-negative for non-negative inputs; it is NaN iff the fee factor is NaN |
| `PaperTrading.PaperTrader.SetStartBalance` | plugins/paperTrader/paperTrader.js:54-57 | only the portfolio's `balance` field changes, to currency + price × asset, and the portfolio is then emitted |
| `PaperTrading.ExtractFeeExample` | plugins/paperTrader/paperTrader.js:47-53 | with a fee factor of 0.998, an amount of 1 comes back as exactly 0.998 |

## Left out

- The Coingi client library and every call into it: the transport's reply is an input to each callback, and the request each operation builds is a value (`Coingi.Trader.Request`).
- The retry helper (`util.retryCustom`), its backoff and its attempt counting: its source is not part of this model. Only its two settings records are kept, as data (`Coingi.RetryCritical`, `Coingi.RetryForever`).
- Logging: `log.debug` and `log.error` only write diagnostics. The operation name passed to `ProcessError` and `HandleResponse` only feeds them.
- `getFee`: it reports a constant rate and has no logic. The rate is kept as `Coingi.FeeRate`.
- `getCapabilities`: a constant metadata table with no behaviour.
- `cancelOrder`: it passes the reply straight to its caller with no reshaping. Only its request is modelled.
- `moment` parsing of dates that are not integer milliseconds, and `parseFloat` in `getOrder`: `since`, timestamps and prices are taken as already numeric.
- Case conversion is modelled for ASCII letters only. JavaScript's full Unicode case mapping is not modelled.
- `JsNumber.ToString` prints plain decimal notation only. JavaScript's exponent form (at 1e21 and above, below 1e-6), NaN, Infinity and negative zero are not modelled.
- `Coingi.Body` holds JSON-like values only, with no functions, symbols or dates. An order lookup result that is `undefined` rather than `null` is not modelled.
- The event emitter plumbing (`util.makeEventEmitter`) and global configuration loading (`util.getConfig`, `gekkoEnv`): configuration is a constructor argument, and emission is an append to `events`.
- `PaperTrading.PaperTrader.ExtractFee`: computed over exact reals, so IEEE-754 rounding of the products is not modelled. The same holds for the balance arithmetic.
- `Coingi.Trader.constructor`: an object configuration without `currency` throws a TypeError at exchanges/coingi.js:19, and one without `asset` at line 21. `Coingi.Config` always holds both strings, so this error path is not modelled. A missing `key` or `secret` is not modelled either.
- `PaperTrading.PaperTrader.SetStartBalance`: as written, `setStartBalance` is attached to `PaperTrade`, a name that is never declared (plugins/paperTrader/paperTrader.js:54). Loading the file throws a ReferenceError there, so the paper trader never exists. The model has the working `PaperTrader` method that was evidently meant.
- `Coingi.SetTicker`, `Coingi.SetBalance`, `Coingi.ProcessResults`, `Coingi.SetOrder`, `Coingi.ReadOrder`, `Coingi.CheckOrderResult`, `Coingi.Kept`: `coingi.js` calls `_.bind` (lines 75, 100, 136, 156, 179, 207 and 214) and `_.isNull` (line 115), but binds lodash only as `lodash`. Unless `_` is a global, each operation throws a ReferenceError before any request is sent. The model assumes `_` is lodash.
- `Coingi.SetTicker`, `Coingi.SetBalance`, `Coingi.ProcessResults`, `Coingi.ReadOrder`, `Coingi.CheckOrderResult`: each callback takes a reply of the datatype's shape (`OrderBook`, a sequence of `BalanceRecord`, a sequence of `RawTrade`, an `OrderRecord`). The TypeErrors of replies of another shape are not modelled: a ticker reply without `asks` or `bids` (exchanges/coingi.js:69), a null or non-array portfolio reply (line 93, `data.length`), a balance record without `currency` or `currency.name` (line 94), and an order or trade record missing the fields it reads.
- A NaN slippage or simulation balance is not modelled. Only a missing fee key makes the fee factor NaN.

## Findings

| source | as written | input that shows it | evidently intended | confidence | as-written member | corrected member |
|---|---|---|---|---|---|---|
| exchanges/coingi.js:56-58 | when the transport reports no error, an error is always made up, from `body.error` even when the body has no such field | reply `{result: "a1b2"}` with no transport error: the callback receives AbortError("[coingi.js] ") and the order id is never delivered | make up an error only for an empty body or a body with a truthy `error` field, and pass no error otherwise | high; not executed | `Coingi.DataReplyIsAborted` | `Coingi.HandleResponseIntended` |

The callbacks (`SetTicker`, `SetBalance`, `ProcessResults`, `SetOrder`, `ReadOrder`, `CheckOrderResult`) are stated for whatever error they are handed. Their contracts hold under either pre-processor. Under the pre-processor as written, the "no error" branch of each callback is never reached.
