/**
 * The Coingi exchange adapter: the error classifier, the response
 * pre-processor, the request each operation hands to the transport, and the
 * callbacks that reshape what the transport returned into the application's
 * ticker, portfolio, trade list, order id and order status.
 *
 * The transport (the Coingi client library) and the retry helper sit between
 * a request and its callback and are not part of this model: each callback is
 * modelled as a function or method of the error and data it is handed.
 * Timestamps are integer milliseconds.
 */
module Coingi {
  import opened Options
  import opened Text
  import JsNumber

  type Number = JsNumber.Number

  // ---------------------------------------------------------------- retry settings

  /** Settings handed to the retry helper; `retries` is absent for the policy that never gives up. */
  datatype RetrySettings = RetrySettings(retries: Option<nat>, forever: bool, factor: real, minTimeout: nat, maxTimeout: nat)

  /** Bounded policy, used where a repeated call has effects on the exchange. */
  const RetryCritical := RetrySettings(Some(10), false, 1.2, 1000, 30000)

  /** Unbounded policy with short delays, used for queries. */
  const RetryForever := RetrySettings(None, true, 1.2, 10, 30)

  /** The fee rate `getFee` reports, without calling the exchange. */
  const FeeRate: real := 0.002

  // ---------------------------------------------------------------- errors

  /** The alternatives of the pattern that marks an error as transient. */
  const RecoverablePatterns: seq<string> := [
    "SOCKETTIMEDOUT", "TIMEDOUT", "CONNRESET", "CONNREFUSED", "NOTFOUND",
    "API:Invalid nonce", "Service:Unavailable", "Request timed out",
    "Response code 520", "Response code 504", "Response code 502"
  ]

  const Tag := "[coingi.js] "
  const NoData := "NO DATA WAS RETURNED"

  /** An `Error` object as the transport or the pre-processor builds it. */
  datatype TransportError = TransportError(message: string)

  /** What the classifier hands to the retry helper: try again, or stop. */
  datatype ClassifiedError = RetryError(message: string) | AbortError(message: string)

  /**
   * Classifies an error; an absent (falsy) error stays absent. `funcName` only
   * appears in the log line, which is not modelled.
   */
  function ProcessError(funcName: string, error: Option<TransportError>): (r: Option<ClassifiedError>)
    ensures r.None? <==> error.None?
    ensures error.Some? ==> r.value.message == Tag + error.value.message
    ensures error.Some? ==>
      (r.value.RetryError? <==> exists k :: 0 <= k < |RecoverablePatterns| && Occurs(error.value.message, RecoverablePatterns[k]))
  {
    match error
    case None => None
    case Some(e) =>
      if !ContainsAny(e.message, RecoverablePatterns) then Some(AbortError(Tag + e.message))
      else Some(RetryError(Tag + e.message))
  }

  /** Every recoverable pattern holds a character that the made-up "no data" message lacks. */
  lemma NoDataMatchesNoPattern()
    ensures forall k :: 0 <= k < |RecoverablePatterns| ==> !Occurs(NoData, RecoverablePatterns[k])
  {
    forall k | 0 <= k < |RecoverablePatterns|
      ensures !Occurs(NoData, RecoverablePatterns[k])
    {
      var p := RecoverablePatterns[k];
      if k == 0 {
        assert p[3] == 'K';
        MissingCharacter(NoData, p, 'K');
      } else if k == 1 {
        assert p[1] == 'I';
        MissingCharacter(NoData, p, 'I');
      } else if k <= 3 {
        assert p[0] == 'C';
        MissingCharacter(NoData, p, 'C');
      } else if k == 4 {
        assert p[3] == 'F';
        MissingCharacter(NoData, p, 'F');
      } else if k == 5 {
        assert p[1] == 'P';
        MissingCharacter(NoData, p, 'P');
      } else {
        assert p[1] == 'e';
        MissingCharacter(NoData, p, 'e');
      }
    }
  }

  /** An error made up because the body was empty is never retried. */
  lemma NoDataIsFatal(funcName: string)
    ensures ProcessError(funcName, Some(TransportError(NoData))) == Some(AbortError(Tag + NoData))
  {
    NoDataMatchesNoPattern();
  }

  /** A transport timeout is retried. */
  lemma SocketTimeoutIsRecoverable(funcName: string)
    ensures ProcessError(funcName, Some(TransportError("ESOCKETTIMEDOUT"))) == Some(RetryError(Tag + "ESOCKETTIMEDOUT"))
  {
    assert OccursAt("ESOCKETTIMEDOUT", RecoverablePatterns[0], 1);
  }

  // ---------------------------------------------------------------- response bodies

  /** A decoded response body. */
  datatype Body =
    | Undefined
    | Null
    | Bool(b: bool)
    | Num(n: Number)
    | Str(s: string)
    | Arr(items: seq<Body>)
    | Obj(fields: map<string, Body>)

  /** `lodash.isEmpty`: true for null, undefined, booleans, numbers and empty strings, arrays and objects. */
  function IsEmpty(b: Body): (r: bool)
    ensures b.Undefined? || b.Null? || b.Bool? || b.Num? ==> r
    ensures b.Str? ==> (r <==> b.s == [])
    ensures b.Arr? ==> (r <==> b.items == [])
    ensures b.Obj? ==> (r <==> b.fields == map[])
  {
    match b
    case Str(s) => |s| == 0
    case Arr(xs) => |xs| == 0
    case Obj(m) => |m| == 0
    case _ => true
  }

  /** Reading a property: a TypeError (None) on null and undefined, `undefined` when it is missing. */
  function Property(b: Body, name: string): (r: Option<Body>)
    ensures r.None? <==> b.Undefined? || b.Null?
    ensures b.Obj? && name in b.fields ==> r == Some(b.fields[name])
    ensures !(b.Undefined? || b.Null?) && !(b.Obj? && name in b.fields) ==> r == Some(Undefined)
  {
    match b
    case Undefined => None
    case Null => None
    case Obj(m) => Some(if name in m then m[name] else Undefined)
    case _ => Some(Undefined)
  }

  /** JavaScript truthiness: every array and object is truthy, even an empty one. */
  function Truthy(b: Body): (r: bool)
    ensures r ==> !(b.Undefined? || b.Null?)
    ensures b.Arr? || b.Obj? ==> r
    ensures b.Bool? ==> r == b.b
    ensures b.Num? ==> (r <==> b.n.units != 0)
    ensures b.Str? ==> (r <==> b.s != [])
  {
    match b
    case Undefined => false
    case Null => false
    case Bool(x) => x
    case Num(n) => n.units != 0
    case Str(s) => s != []
    case _ => true
  }

  /** `String(v)`. */
  function Stringify(v: Body): (r: string)
    ensures v.Undefined? ==> r == "undefined"
    ensures v.Null? ==> r == "null"
    ensures v.Str? ==> r == v.s
    ensures v.Bool? ==> r == (if v.b then "true" else "false")
    ensures v.Num? ==> r == JsNumber.ToString(v.n) && JsNumber.Parse(r) == Some(v.n)
    ensures v.Arr? ==> r == JoinItems(v, 0)
    ensures v.Obj? ==> r == "[object Object]"
    decreases v, 1
  {
    match v
    case Undefined => "undefined"
    case Null => "null"
    case Bool(x) => if x then "true" else "false"
    case Num(n) => JsNumber.ParseToString(n); JsNumber.ToString(n)
    case Str(s) => s
    case Arr(_) => JoinItems(v, 0)
    case Obj(_) => "[object Object]"
  }

  /** `Array.prototype.join(",")` from index `i` on; null and undefined items print as nothing. */
  function JoinItems(v: Body, i: nat): (r: string)
    requires v.Arr?
    ensures i >= |v.items| ==> r == ""
    ensures 0 < i < |v.items| ==> |r| > 0 && r[0] == ','
    ensures i < |v.items| ==> |r| + (if i == 0 then 1 else 0) >= |v.items| - i
    ensures i < |v.items| ==>
      r == (if i > 0 then "," else "")
           + (if v.items[i].Undefined? || v.items[i].Null? then "" else Stringify(v.items[i]))
           + JoinItems(v, i + 1)
    decreases v, 0, |v.items| - i
  {
    if i >= |v.items| then ""
    else
      var item := v.items[i];
      (if i > 0 then "," else "")
      + (if item.Undefined? || item.Null? then "" else Stringify(item))
      + JoinItems(v, i + 1)
  }

  /** The message of `new Error(v)`: empty for undefined, `String(v)` otherwise. */
  function ErrorMessage(v: Body): (r: string)
    ensures v.Undefined? ==> r == ""
    ensures v.Null? ==> r == "null"
    ensures v.Str? ==> r == v.s
    ensures v.Num? ==> r == JsNumber.ToString(v.n) && JsNumber.Parse(r) == Some(v.n)
  {
    if v.Undefined? then "" else Stringify(v)
  }

  /** What the pre-processor passes on: the classified error and the body, untouched. */
  datatype Reply = Reply(error: Option<ClassifiedError>, body: Body)

  /**
   * The pre-processor wrapped around every transport callback, as written: when
   * the transport reports no error it makes one up, from the empty body or from
   * the body's `error` field, even when that field is missing.
   */
  function HandleResponse(funcName: string, error: Option<TransportError>, body: Body): (r: Reply)
    ensures r.body == body
    ensures error.Some? ==> r.error == ProcessError(funcName, error)
    ensures error.None? && IsEmpty(body) ==> r.error == Some(AbortError(Tag + NoData))
    ensures error.None? && !IsEmpty(body) ==>
      r.error == ProcessError(funcName, Some(TransportError(ErrorMessage(Property(body, "error").value))))
  {
    var e := if error.Some? then error
             else if IsEmpty(body) then Some(TransportError(NoData))
             else Some(TransportError(ErrorMessage(Property(body, "error").value)));
    NoDataIsFatal(funcName);
    Reply(ProcessError(funcName, e), body)
  }

  /**
   * As written, a successful call whose body carries data and no `error` field
   * still reaches its callback with an abort error whose message is the bare tag.
   */
  lemma DataReplyIsAborted(funcName: string, body: Body)
    requires !IsEmpty(body) && Property(body, "error") == Some(Undefined)
    ensures HandleResponse(funcName, None, body).error == Some(AbortError(Tag))
  {
    assert ErrorMessage(Property(body, "error").value) == "";
    EmptyMessageIsFatal(funcName);
  }

  /** An error with an empty message is never retried. */
  lemma EmptyMessageIsFatal(funcName: string)
    ensures ProcessError(funcName, Some(TransportError(""))) == Some(AbortError(Tag))
  {
    forall k | 0 <= k < |RecoverablePatterns|
      ensures !Occurs("", RecoverablePatterns[k])
    {
      var p := RecoverablePatterns[k];
      assert |p| > 0;
      MissingCharacter("", p, p[0]);
    }
    assert Tag + "" == Tag;
  }

  /** The body of a successful order placement, as the exchange sends it. */
  lemma OrderPlacedIsAborted()
    ensures HandleResponse("addOrder", None, Obj(map["result" := Str("a1b2")])).error == Some(AbortError(Tag))
  {
    DataReplyIsAborted("addOrder", Obj(map["result" := Str("a1b2")]));
  }

  /** The body carries an error of its own: a truthy `error` field. */
  predicate CarriesError(body: Body)
  {
    body.Obj? && "error" in body.fields && Truthy(body.fields["error"])
  }

  /**
   * The pre-processor as evidently intended: an error is made up only for an
   * empty body or a body carrying an `error` field.
   */
  function HandleResponseIntended(funcName: string, error: Option<TransportError>, body: Body): (r: Reply)
    ensures r.body == body
    ensures r.error.None? <==> error.None? && !IsEmpty(body) && !CarriesError(body)
    ensures error.Some? ==> r.error == HandleResponse(funcName, error, body).error
    ensures error.None? && (IsEmpty(body) || CarriesError(body)) ==> r.error == HandleResponse(funcName, error, body).error
  {
    if error.Some? || IsEmpty(body) || CarriesError(body) then
      var r := HandleResponse(funcName, error, body);
      assert r.error.Some?;
      r
    else
      Reply(None, body)
  }

  // ---------------------------------------------------------------- callbacks

  /** What a callback hands to the application: a value, the error it was given, or a TypeError it throws. */
  datatype Outcome<T> = Delivered(value: T) | Failed(error: ClassifiedError) | TypeError

  datatype PriceLevel = PriceLevel(price: Number)
  datatype OrderBook = OrderBook(asks: seq<PriceLevel>, bids: seq<PriceLevel>)
  datatype Ticker = Ticker(ask: Number, bid: Number)

  /** `getTicker`'s callback: the first ask and the first bid of the order book. */
  function SetTicker(err: Option<ClassifiedError>, data: OrderBook): (r: Outcome<Ticker>)
    ensures err.Some? ==> r == Failed(err.value)
    ensures err.None? ==> (r.Delivered? <==> |data.asks| > 0 && |data.bids| > 0)
    ensures err.None? && !r.Delivered? ==> r.TypeError?
    ensures r.Delivered? ==> r.value.ask == data.asks[0].price && r.value.bid == data.bids[0].price
  {
    if err.Some? then Failed(err.value)
    else if |data.asks| == 0 || |data.bids| == 0 then TypeError
    else Delivered(Ticker(data.asks[0].price, data.bids[0].price))
  }

  /** One balance record: the currency's name and its numeric fields. */
  datatype BalanceRecord = BalanceRecord(currencyName: string, fields: map<string, Number>)

  /** One portfolio line; `amount` is undefined when the record has no `availale` field. */
  datatype PortfolioEntry = PortfolioEntry(name: string, amount: Option<Number>)

  /** The portfolio line built from one balance record: upper-cased name, the `availale` field. */
  function EntryOf(rec: BalanceRecord): (e: PortfolioEntry)
    ensures e.name == ToUpper(rec.currencyName)
    ensures NoLowerCase(e.name) && |e.name| == |rec.currencyName|
    ensures e.amount.Some? <==> "availale" in rec.fields
    ensures "availale" in rec.fields ==> e.amount == Some(rec.fields["availale"])
  {
    UpperIsUpper(rec.currencyName);
    PortfolioEntry(ToUpper(rec.currencyName), if "availale" in rec.fields then Some(rec.fields["availale"]) else None)
  }

  /** `getPortfolio`'s callback: one line per balance record, in order. */
  method SetBalance(err: Option<ClassifiedError>, data: seq<BalanceRecord>) returns (r: Outcome<seq<PortfolioEntry>>)
    ensures err.Some? ==> r == Failed(err.value)
    ensures err.None? ==> r.Delivered? && |r.value| == |data|
    ensures err.None? ==> forall i :: 0 <= i < |data| ==> r.value[i] == EntryOf(data[i])
  {
    if err.Some? {
      return Failed(err.value);
    }
    var portfolio: seq<PortfolioEntry> := [];
    var i := 0;
    while i < |data|
      invariant 0 <= i <= |data|
      invariant |portfolio| == i
      invariant forall j :: 0 <= j < i ==> portfolio[j] == EntryOf(data[j])
    {
      portfolio := portfolio + [EntryOf(data[i])];
      i := i + 1;
    }
    return Delivered(portfolio);
  }

  /** One trade as the exchange lists it. */
  datatype RawTrade = RawTrade(tradeType: int, timestamp: int, amount: Number, price: Number)

  /** One trade as the application receives it. */
  datatype ParsedTrade = ParsedTrade(side: string, date: int, amount: string, price: string, tid: int)

  /** `since ? moment(since).valueOf() : null`: a zero `since` is falsy and means no cutoff. */
  function StartTs(since: Option<int>): (r: Option<int>)
    ensures r.None? <==> since.None? || since.value == 0
    ensures r.Some? ==> r == since
  {
    if since.Some? && since.value != 0 then since else None
  }

  /** The filter of `getTrades`: no cutoff, or strictly later than it. */
  predicate After(startTs: Option<int>, t: RawTrade)
  {
    startTs.None? || startTs.value < t.timestamp
  }

  /** The trades the filter keeps, in their original order. */
  function Kept(startTs: Option<int>, trades: seq<RawTrade>): (r: seq<RawTrade>)
    ensures forall i :: 0 <= i < |r| ==> After(startTs, r[i])
  {
    if trades == [] then []
    else
      var last := trades[|trades| - 1];
      Kept(startTs, trades[..|trades| - 1]) + (if After(startTs, last) then [last] else [])
  }

  /** The field mapping of `getTrades`. */
  function ParseTrade(t: RawTrade): ParsedTrade
  {
    ParsedTrade(if t.tradeType == 0 then "sell" else "buy", t.timestamp / 1000,
                JsNumber.ToString(t.amount), JsNumber.ToString(t.price), t.timestamp)
  }

  /** Type 0 is a sale and anything else a purchase, the date is in whole seconds, and the strings keep the numbers exactly. */
  lemma TradeFields(t: RawTrade)
    ensures ParseTrade(t).side == (if t.tradeType == 0 then "sell" else "buy")
    ensures ParseTrade(t).date * 1000 <= t.timestamp < ParseTrade(t).date * 1000 + 1000
    ensures ParseTrade(t).amount == JsNumber.ToString(t.amount) && JsNumber.Parse(ParseTrade(t).amount) == Some(t.amount)
    ensures ParseTrade(t).price == JsNumber.ToString(t.price) && JsNumber.Parse(ParseTrade(t).price) == Some(t.price)
    ensures ParseTrade(t).tid == t.timestamp
  {
    JsNumber.ParseToString(t.amount);
    JsNumber.ParseToString(t.price);
  }

  function ParseAll(trades: seq<RawTrade>): (r: seq<ParsedTrade>)
    ensures |r| == |trades| && forall i :: 0 <= i < |trades| ==> r[i] == ParseTrade(trades[i])
  {
    seq(|trades|, i requires 0 <= i < |trades| => ParseTrade(trades[i]))
  }

  function Reverse<T>(s: seq<T>): seq<T>
  {
    if s == [] then [] else [s[|s| - 1]] + Reverse(s[..|s| - 1])
  }

  lemma {:induction false} ReverseIndex<T>(s: seq<T>, k: int)
    requires 0 <= k < |s|
    ensures |Reverse(s)| == |s|
    ensures Reverse(s)[k] == s[|s| - 1 - k]
  {
    ReverseLength(s);
    if k > 0 {
      ReverseIndex(s[..|s| - 1], k - 1);
    }
  }

  lemma {:induction false} ReverseLength<T>(s: seq<T>)
    ensures |Reverse(s)| == |s|
  {
    if s != [] {
      ReverseLength(s[..|s| - 1]);
    }
  }

  /** Reverses the first `n` elements of `a` in place, as `Array.prototype.reverse` does. */
  method ReverseInPlace<T>(a: array<T>, n: nat)
    requires n <= a.Length
    modifies a
    ensures a[..n] == Reverse(old(a[..n]))
    ensures a[n..] == old(a[n..])
  {
    var i := 0;
    while i < n / 2
      invariant 0 <= i <= n / 2
      invariant forall k :: 0 <= k < i ==> a[k] == old(a[n - 1 - k]) && a[n - 1 - k] == old(a[k])
      invariant forall k :: i <= k < n - i ==> a[k] == old(a[k])
      invariant forall k :: n <= k < a.Length ==> a[k] == old(a[k])
    {
      a[i], a[n - 1 - i] := a[n - 1 - i], a[i];
      i := i + 1;
    }
    ghost var before := old(a[..n]);
    ReverseLength(before);
    forall k | 0 <= k < n
      ensures a[..n][k] == Reverse(before)[k]
    {
      ReverseIndex(before, k);
    }
  }

  /** One more trade read by the loop adds its mapped form exactly when the filter keeps it. */
  lemma CollectStep(startTs: Option<int>, trades: seq<RawTrade>, i: nat)
    requires i < |trades|
    ensures ParseAll(Kept(startTs, trades[..i + 1])) ==
            ParseAll(Kept(startTs, trades[..i])) + (if After(startTs, trades[i]) then [ParseTrade(trades[i])] else [])
  {
    assert trades[..i + 1][..i] == trades[..i];
    var kept := Kept(startTs, trades[..i]);
    if After(startTs, trades[i]) {
      assert Kept(startTs, trades[..i + 1]) == kept + [trades[i]];
      assert ParseAll(kept + [trades[i]]) == ParseAll(kept) + [ParseTrade(trades[i])];
    } else {
      assert Kept(startTs, trades[..i + 1]) == kept;
    }
  }

  /** The loop of `getTrades`'s callback: pushes the mapped form of every trade the filter keeps. */
  method CollectTrades(startTs: Option<int>, trades: seq<RawTrade>) returns (parsed: array<ParsedTrade>, n: nat)
    ensures fresh(parsed) && n <= parsed.Length
    ensures parsed[..n] == ParseAll(Kept(startTs, trades))
  {
    parsed := new ParsedTrade[|trades|];
    n := 0;
    var i := 0;
    while i < |trades|
      invariant 0 <= n <= i <= |trades| == parsed.Length
      invariant parsed[..n] == ParseAll(Kept(startTs, trades[..i]))
    {
      CollectStep(startTs, trades, i);
      if After(startTs, trades[i]) {
        parsed[n] := ParseTrade(trades[i]);
        assert parsed[..n + 1] == parsed[..n] + [parsed[n]];
        n := n + 1;
      }
      i := i + 1;
    }
    assert trades[..i] == trades;
  }

  /** `getTrades`'s callback: filter, map, then reverse unless ascending order was asked for. */
  method ProcessResults(startTs: Option<int>, err: Option<ClassifiedError>, trades: seq<RawTrade>, ascending: bool)
    returns (r: Outcome<seq<ParsedTrade>>)
    ensures err.Some? ==> r == Failed(err.value)
    ensures err.None? && ascending ==> r == Delivered(ParseAll(Kept(startTs, trades)))
    ensures err.None? && !ascending ==> r == Delivered(Reverse(ParseAll(Kept(startTs, trades))))
  {
    if err.Some? {
      return Failed(err.value);
    }
    var parsed, n := CollectTrades(startTs, trades);
    if !ascending {
      ReverseInPlace(parsed, n);
    }
    return Delivered(parsed[..n]);
  }

  /** The filter keeps exactly the trades later than the cutoff, each as often as it was listed. */
  lemma {:induction false} KeptExactly(startTs: Option<int>, trades: seq<RawTrade>, t: RawTrade)
    ensures multiset(Kept(startTs, trades))[t] == if After(startTs, t) then multiset(trades)[t] else 0
  {
    if trades != [] {
      var init := trades[..|trades| - 1];
      KeptExactly(startTs, init, t);
      assert trades == init + [trades[|trades| - 1]];
    }
  }

  /** Without a cutoff every trade is kept; with one the list never grows. */
  lemma {:induction false} KeptLength(startTs: Option<int>, trades: seq<RawTrade>)
    ensures |Kept(startTs, trades)| <= |trades|
    ensures startTs.None? ==> Kept(startTs, trades) == trades
  {
    if trades != [] {
      var init := trades[..|trades| - 1];
      var last := trades[|trades| - 1];
      KeptLength(startTs, init);
      var kept := Kept(startTs, init) + (if After(startTs, last) then [last] else []);
      assert Kept(startTs, trades) == kept;
      assert |kept| <= |init| + 1;
      if startTs.None? {
        assert kept == init + [last];
        assert trades == init + [last];
      }
    }
  }

  predicate Ascending(trades: seq<RawTrade>)
  {
    forall i, j :: 0 <= i < j < |trades| ==> trades[i].timestamp <= trades[j].timestamp
  }

  /** Filtering keeps the relative order of the trades. */
  lemma {:induction false} KeptAscending(startTs: Option<int>, trades: seq<RawTrade>)
    requires Ascending(trades)
    ensures Ascending(Kept(startTs, trades))
    ensures forall t :: t in Kept(startTs, trades) ==> t in trades
  {
    if trades != [] {
      var init := trades[..|trades| - 1];
      var last := trades[|trades| - 1];
      KeptAscending(startTs, init);
      var k := Kept(startTs, init);
      assert Kept(startTs, trades) == k + (if After(startTs, last) then [last] else []);
      forall t | t in k
        ensures t.timestamp <= last.timestamp && t in trades
      {
        var i :| 0 <= i < |init| && init[i] == t;
        assert trades[i] == t;
      }
    }
  }

  /**
   * For a trade list the exchange gives in time order, the callback's list runs
   * forward in time when ascending order was asked for and backward otherwise.
   */
  lemma TradesInRequestedOrder(startTs: Option<int>, trades: seq<RawTrade>)
    requires Ascending(trades)
    ensures var out := ParseAll(Kept(startTs, trades));
            forall i, j :: 0 <= i < j < |out| ==> out[i].tid <= out[j].tid
    ensures var out := Reverse(ParseAll(Kept(startTs, trades)));
            forall i, j :: 0 <= i < j < |out| ==> out[i].tid >= out[j].tid
  {
    KeptAscending(startTs, trades);
    var fwd := ParseAll(Kept(startTs, trades));
    var out := Reverse(fwd);
    ReverseLength(fwd);
    forall i, j | 0 <= i < j < |out|
      ensures out[i].tid >= out[j].tid
    {
      ReverseIndex(fwd, i);
      ReverseIndex(fwd, j);
    }
  }

  /** Trades at 10, 20 and 30 ms with a cutoff of 15 ms come back as 30 then 20. */
  lemma CutoffExample(a: Number, p: Number)
    ensures var trades := [RawTrade(1, 10, a, p), RawTrade(0, 20, a, p), RawTrade(1, 30, a, p)];
            var out := Reverse(ParseAll(Kept(StartTs(Some(15)), trades)));
            |out| == 2 && out[0].tid == 30 && out[1].tid == 20 && out[0].side == "buy" && out[1].side == "sell"
  {
    var trades := [RawTrade(1, 10, a, p), RawTrade(0, 20, a, p), RawTrade(1, 30, a, p)];
    assert trades[..2][..1] == [trades[0]];
    assert trades[..2] == [trades[0], trades[1]];
    assert Kept(Some(15), [trades[0]]) == [];
    assert Kept(Some(15), trades[..2]) == [trades[1]];
    assert Kept(Some(15), trades) == [trades[1], trades[2]];
    var fwd := ParseAll([trades[1], trades[2]]);
    ReverseIndex(fwd, 0);
    ReverseIndex(fwd, 1);
  }

  /** `addOrder`'s callback: the `result` field of the reply is the order id. */
  function SetOrder(err: Option<ClassifiedError>, data: Body): (r: Outcome<Body>)
    ensures err.Some? ==> r == Failed(err.value)
    ensures err.None? && (data.Undefined? || data.Null?) ==> r.TypeError?
    ensures err.None? && data.Obj? && "result" in data.fields ==> r == Delivered(data.fields["result"])
    ensures err.None? && !(data.Undefined? || data.Null?) ==> r == Delivered(Property(data, "result").value)
    ensures err.None? && !(data.Undefined? || data.Null?) && !(data.Obj? && "result" in data.fields) ==> r == Delivered(Undefined)
  {
    if err.Some? then Failed(err.value)
    else match Property(data, "result")
      case None => TypeError
      case Some(uuid) => Delivered(uuid)
  }

  /** An order as the exchange reports it; `timestamp` is in seconds. */
  datatype OrderRecord = OrderRecord(price: Number, baseAmount: Number, timestamp: int, status: int)

  /** What `getOrder` delivers; `date` is in milliseconds. */
  datatype OrderDetails = OrderDetails(price: Number, amount: Number, date: int)

  /**
   * `getOrder`'s callback. A null order is only logged: the callback is never
   * called, which is the `None` result.
   */
  function ReadOrder(err: Option<ClassifiedError>, order: Option<OrderRecord>): (r: Option<Outcome<OrderDetails>>)
    ensures r.None? <==> err.None? && order.None?
    ensures err.Some? ==> r == Some(Failed(err.value))
    ensures err.None? && order.Some? ==>
      r == Some(Delivered(OrderDetails(order.value.price, order.value.baseAmount, order.value.timestamp * 1000)))
  {
    if err.Some? then Some(Failed(err.value))
    else if order.None? then None
    else Some(Delivered(OrderDetails(order.value.price, order.value.baseAmount, order.value.timestamp * 1000)))
  }

  /** The status code the exchange uses for a filled order. */
  const Filled := 2

  /** `checkOrder`'s callback: filled means found with status 2; a null order is not an error. */
  function CheckOrderResult(err: Option<ClassifiedError>, order: Option<OrderRecord>): (r: Outcome<bool>)
    ensures err.Some? ==> r == Failed(err.value)
    ensures err.None? ==> r.Delivered?
    ensures r == Delivered(true) <==> err.None? && order.Some? && order.value.status == Filled
  {
    if err.Some? then Failed(err.value)
    else Delivered(order.Some? && order.value.status == Filled)
  }

  // ---------------------------------------------------------------- the adapter object

  datatype Config = Config(key: string, secret: string, currency: string, asset: string)

  /** How an absent field prints when concatenated into a string. */
  function Shown(v: Option<string>): string
  {
    if v.Some? then v.value else "undefined"
  }

  /** The operations of the adapter that reach the transport. */
  datatype Operation =
    | GetTicker
    | GetPortfolio
    | GetTrades(since: Option<int>)
    | AddOrder(tradeType: string, amount: Number, price: Number)
    | GetOrder(orderId: string)
    | CheckOrder(orderId: string)
    | CancelOrder(orderId: string)

  datatype Params =
    | Route(path: string)
    | Currencies(list: string)
    | NewOrder(currencyPair: string, orderType: int, price: Number, volume: string)
    | OrderRef(field: string, orderId: string)

  /** One call handed to the transport: the endpoint and its parameters. */
  datatype ApiCall = ApiCall(endpoint: string, params: Params)

  /** Which retry policy each operation runs under: bounded exactly for the order operations. */
  function RetryFor(op: Operation): (s: RetrySettings)
    ensures s == RetryCritical || s == RetryForever
    ensures s.retries.Some? <==> op.AddOrder? || op.GetOrder? || op.CheckOrder?
  {
    match op
    case AddOrder(_, _, _) => RetryCritical
    case GetOrder(_) => RetryCritical
    case CheckOrder(_) => RetryCritical
    case _ => RetryForever
  }

  class Trader {
    var key: Option<string>
    var secret: Option<string>
    var currency: Option<string>
    var asset: Option<string>
    var pair: string
    var name: string
    var since: Option<int>

    /**
     * Builds the adapter from its configuration; `None` stands for a
     * configuration that is not an object. The asset is upper-cased; the
     * currency's upper-cased copy is discarded, so it keeps its case.
     */
    constructor (config: Option<Config>)
      ensures config.Some? ==>
        key == Some(config.value.key) && secret == Some(config.value.secret) &&
        currency == Some(config.value.currency) && asset == Some(ToUpper(config.value.asset))
      ensures config.None? ==> key == None && secret == None && currency == None && asset == None
      ensures pair == Shown(asset) + "-" + Shown(currency)
      ensures name == "coingi" && since == None
    {
      var a, c := None, None;
      if config.Some? {
        key := Some(config.value.key);
        secret := Some(config.value.secret);
        c := Some(config.value.currency);
        a := Some(ToUpper(config.value.asset));
      } else {
        key, secret := None, None;
      }
      currency, asset := c, a;
      pair := Shown(a) + "-" + Shown(c);
      name := "coingi";
      since := None;
    }

    /** The request each operation hands to the transport. */
    function Request(op: Operation): (c: ApiCall)
      reads this
      ensures op.GetTicker? ==> c == ApiCall("order-book", Route("/" + pair + "/1/1/1"))
      ensures op.GetPortfolio? ==> c == ApiCall("balance", Currencies(Shown(asset) + "," + Shown(currency)))
      ensures op.GetTrades? && StartTs(op.since).None? ==> c == ApiCall("transactions", Route("/" + pair + "/512"))
      ensures op.GetTrades? && StartTs(op.since).Some? ==>
        c == ApiCall("transactions", Route("/" + pair + "/512/" + JsNumber.ToString(JsNumber.Whole(op.since.value))))
      ensures op.AddOrder? ==>
        c.endpoint == "add-order" && c.params.NewOrder? &&
        c.params.currencyPair == pair && c.params.price == op.price &&
        (c.params.orderType == 0 <==> ToLower(op.tradeType) == "sell") &&
        (c.params.orderType == 0 || c.params.orderType == 1) &&
        c.params.volume == JsNumber.ToString(op.amount) &&
        JsNumber.Parse(c.params.volume) == Some(op.amount)
      ensures op.GetOrder? ==> c == ApiCall("get-order", OrderRef("ordeId", op.orderId))
      ensures op.CheckOrder? ==> c == ApiCall("get-order", OrderRef("orderId", op.orderId))
      ensures op.CancelOrder? ==> c == ApiCall("cancel-order", OrderRef("orderId", op.orderId))
    {
      match op
      case GetTicker => ApiCall("order-book", Route("/" + pair + "/1/1/1"))
      case GetPortfolio => ApiCall("balance", Currencies(Shown(asset) + "," + Shown(currency)))
      case GetTrades(since) =>
        var startTs := StartTs(since);
        var optionalSince := if startTs.Some? then "/" + JsNumber.ToString(JsNumber.Whole(startTs.value)) else "";
        assert "/" + pair + "/512" + "" == "/" + pair + "/512";
        assert startTs.Some? ==> "/" + pair + "/512" + optionalSince == "/" + pair + "/512/" + JsNumber.ToString(JsNumber.Whole(startTs.value));
        ApiCall("transactions", Route("/" + pair + "/512" + optionalSince))
      case AddOrder(tradeType, amount, price) =>
        JsNumber.ParseToString(amount);
        ApiCall("add-order", NewOrder(pair, if ToLower(tradeType) == "sell" then 0 else 1, price, JsNumber.ToString(amount)))
      case GetOrder(orderId) => ApiCall("get-order", OrderRef("ordeId", orderId))
      case CheckOrder(orderId) => ApiCall("get-order", OrderRef("orderId", orderId))
      case CancelOrder(orderId) => ApiCall("cancel-order", OrderRef("orderId", orderId))
    }

    /** `buy`: an order placement with side "buy", encoded as 1. */
    function Buy(amount: Number, price: Number): (c: ApiCall)
      reads this
      ensures c == Request(AddOrder("buy", amount, price))
      ensures c.params.NewOrder? && c.params.orderType == 1
    {
      assert ToLower("buy") != "sell";
      Request(AddOrder("buy", amount, price))
    }

    /** `sell`: an order placement with side "sell", encoded as 0. */
    function Sell(amount: Number, price: Number): (c: ApiCall)
      reads this
      ensures c == Request(AddOrder("sell", amount, price))
      ensures c.params.NewOrder? && c.params.orderType == 0
    {
      assert ToLower("sell") == "sell";
      Request(AddOrder("sell", amount, price))
    }
  }

  /** Any side other than "sell", in any case, is placed as a purchase rather than refused. */
  lemma UnknownSideBuys(t: Trader, amount: Number, price: Number)
    ensures t.Request(AddOrder("hold", amount, price)).params.orderType == 1
    ensures t.Request(AddOrder("SELL", amount, price)).params.orderType == 0
  {
    assert ToLower("hold") != "sell" by {
      assert ToLower("hold")[0] == 'h';
    }
    var s := ToLower("SELL");
    assert s[0] == 's' && s[1] == 'e' && s[2] == 'l' && s[3] == 'l';
    assert s == "sell";
  }

  /** An order for one and a half units carries the volume string "1.5". */
  lemma OrderVolumeExample(t: Trader, price: Number)
    ensures t.Request(AddOrder("sell", JsNumber.Decimal(15, 1), price)).params.volume == "1.5"
  {
    JsNumber.OneAndAHalf();
  }
}
