/**
 * The stock-data Lambda: a read-through cache of stock records in a
 * DynamoDB table, in front of the Alpha Vantage market-data provider.
 *
 * The Lambda's world is a `World`: the table's items, keyed by symbol, and
 * the log of every input/output operation it performs (table reads, table
 * writes, provider calls), in order. Everything the Lambda cannot see or
 * control (whether the table is configured, whether a table operation
 * throws, what the provider answers, how `parseFloat` reads a string) is an
 * oracle in `Env`. Time is integer milliseconds, one reading per request.
 *
 * The spec functions (`ReadCache` … `Respond`) say what each step does to
 * the world; the class `StockLambda` performs the same steps imperatively
 * and is proved to agree with them.
 */
module StockData {
  import opened Common

  /** isCacheFresh's window: fifteen minutes, in milliseconds. */
  const FreshnessWindowMs: int := 15 * 60 * 1000

  /** The symbols of the popular list, in the order they are visited. */
  const PopularSymbols: seq<string> := ["AAPL", "MSFT", "GOOGL", "AMZN", "TSLA"]

  // Member names of the provider's JSON bodies.
  const ErrorMessageKey: string := "Error Message"
  const GlobalQuoteKey: string := "Global Quote"
  const PriceKey: string := "05. price"
  const ChangeKey: string := "09. change"
  const ChangePercentKey: string := "10. change percent"
  const NameKey: string := "Name"
  const IndustryKey: string := "Industry"
  const DescriptionKey: string := "Description"
  const PERatioKey: string := "PERatio"
  const MarketCapKey: string := "MarketCapitalization"

  /** The two provider functions the Lambda queries. */
  datatype Endpoint = GlobalQuote | Overview

  /** A member of a provider body: a string, or a flat object of strings. */
  datatype Value = Str(s: string) | Obj(fields: map<string, string>)

  /** A provider body, as parsed from JSON. */
  type Payload = map<string, Value>

  /**
   * A cached stock record. The detail path builds `Full` records (quote and
   * company overview); the popular list builds quote-only `Partial` ones.
   * `lastUpdated` is the time the record was built, in milliseconds.
   */
  datatype Record =
    | Full(symbol: string, price: real, change: real, changePercent: string,
           companyName: string, industry: string, description: string,
           pe: real, marketCap: string, lastUpdated: int)
    | Partial(symbol: string, price: real, change: real, changePercent: string,
              lastUpdated: int)

  /**
   * What lies outside the Lambda. `tableConfigured` is "STOCKS_TABLE is set";
   * `readFails` and `writeFails` say which keys' `get` and `put` throw;
   * `upstream` is the provider (`None` when the HTTP request itself fails);
   * `parse` is `parseFloat`, `None` standing for NaN.
   */
  datatype Env = Env(
    tableConfigured: bool,
    readFails: string -> bool,
    writeFails: string -> bool,
    upstream: (Endpoint, string) -> Option<Payload>,
    parse: string -> Option<real>)

  /** One input/output operation of the Lambda. */
  datatype Event =
    | StoreGet(key: string)
    | StorePut(record: Record)
    | Call(endpoint: Endpoint, symbol: string)

  datatype World = World(store: map<string, Record>, log: seq<Event>)

  /** Every cached record is stored under its own symbol, the table's key. */
  predicate StoreKeyed(store: map<string, Record>) {
    forall k :: k in store ==> store[k].symbol == k
  }

  /** `after` is `before` with further operations appended. */
  predicate LogExtends(before: seq<Event>, after: seq<Event>) {
    |before| <= |after| && after[..|before|] == before
  }

  datatype Body = Stock(record: Record) | Stocks(stocks: seq<Record>) | Message(text: string)

  /** An API Gateway response: the status code and the value serialised as the body. */
  datatype Response = Response(status: int, body: Body)

  /** The parts of an API Gateway event the Lambda reads. */
  datatype Request = Request(httpMethod: string, pathSymbol: Option<string>)

  /** What the provider call answered: the body, or the error that was thrown. */
  datatype FetchResult = Fetched(payload: Payload) | TransportError | ProviderError(message: Value)

  // ---------------------------------------------------------------------
  // Freshness

  /** isCacheFresh: a record is fresh while its age is under fifteen minutes. */
  function IsCacheFresh(lastUpdated: int, now: int): (inWindow: bool)
    ensures now - lastUpdated == FreshnessWindowMs ==> !inWindow
    ensures now - lastUpdated == FreshnessWindowMs - 1 ==> inWindow
    ensures lastUpdated >= now ==> inWindow
  {
    now - lastUpdated < FreshnessWindowMs
  }

  // ---------------------------------------------------------------------
  // Reading provider bodies

  /** JavaScript truthiness of a member read: absent and "" are falsy, any object is truthy. */
  predicate Truthy(v: Option<Value>) {
    v.Some? && (v.value.Obj? || v.value.s != "")
  }

  /** fetchAlphaVantageData's check: a failed request or a truthy 'Error Message' member is an error. */
  function CheckReply(reply: Option<Payload>): (r: FetchResult)
    ensures r.Fetched? <==> reply.Some? && !Truthy(Lookup(reply.value, ErrorMessageKey))
    ensures r.Fetched? ==> r.payload == reply.value
    ensures r.TransportError? <==> reply.None?
    ensures r.ProviderError? ==> ErrorMessageKey in reply.value && reply.value[ErrorMessageKey] == r.message
  {
    match reply
    case None => TransportError
    case Some(p) => if Truthy(Lookup(p, ErrorMessageKey)) then ProviderError(p[ErrorMessageKey]) else Fetched(p)
  }

  /**
   * `body['Global Quote']` as the record literals read it. An absent member
   * makes the following property read throw (`None`); a string member reads
   * as an object without any quote field.
   */
  function QuoteFields(p: Payload): (q: Option<map<string, string>>)
    ensures q.None? <==> GlobalQuoteKey !in p
    ensures q.Some? && p[GlobalQuoteKey].Obj? ==> q.value == p[GlobalQuoteKey].fields
    ensures q.Some? && p[GlobalQuoteKey].Str? ==> q.value == map[]
  {
    if GlobalQuoteKey !in p then None
    else match p[GlobalQuoteKey]
      case Obj(fields) => Some(fields)
      case Str(_) => Some(map[])
  }

  /** An overview member read as a string; a missing member or an object reads as absent. */
  function StrMember(p: Payload, k: string): Option<string> {
    if k in p && p[k].Str? then Some(p[k].s) else None
  }

  /** `parseFloat(x) || 0`: the parsed number, or 0 when x is missing or not a number. */
  function NumberOrZero(parse: string -> Option<real>, x: Option<string>): real {
    if x.Some? && parse(x.value).Some? then parse(x.value).value else 0.0
  }

  /** `x || d` on a string: the string when present and non-empty, the default otherwise. */
  function TextOr(x: Option<string>, d: string): string {
    if x.Some? && x.value != "" then x.value else d
  }

  // ---------------------------------------------------------------------
  // Building records

  /** The quote-only record literal of the popular list. */
  function BuildPartial(symbol: string, quote: map<string, string>, parse: string -> Option<real>, now: int): (r: Record)
    ensures r.Partial? && r.symbol == symbol && r.lastUpdated == now
    ensures r.price == (if PriceKey in quote && parse(quote[PriceKey]).Some? then parse(quote[PriceKey]).value else 0.0)
    ensures r.change == (if ChangeKey in quote && parse(quote[ChangeKey]).Some? then parse(quote[ChangeKey]).value else 0.0)
    ensures r.changePercent == (if ChangePercentKey in quote && quote[ChangePercentKey] != "" then quote[ChangePercentKey] else "0%")
    ensures r.changePercent != ""
  {
    Partial(symbol,
            NumberOrZero(parse, Lookup(quote, PriceKey)),
            NumberOrZero(parse, Lookup(quote, ChangeKey)),
            TextOr(Lookup(quote, ChangePercentKey), "0%"),
            now)
  }

  /** The quote fields of a record, as a quote-only record. */
  function QuoteOnly(r: Record): Record {
    Partial(r.symbol, r.price, r.change, r.changePercent, r.lastUpdated)
  }

  /** The full record literal of the detail path: the quote read as in BuildPartial, plus the overview. */
  function BuildFull(symbol: string, quote: map<string, string>, overview: Payload,
                     parse: string -> Option<real>, now: int): (r: Record)
    ensures r.Full? && r.symbol == symbol && r.lastUpdated == now
    ensures QuoteOnly(r) == BuildPartial(symbol, quote, parse, now)
    ensures r.companyName == (if NameKey in overview && overview[NameKey].Str? then overview[NameKey].s else "")
    ensures r.industry == (if IndustryKey in overview && overview[IndustryKey].Str? then overview[IndustryKey].s else "")
    ensures r.description == (if DescriptionKey in overview && overview[DescriptionKey].Str? then overview[DescriptionKey].s else "")
    ensures r.pe == (if PERatioKey in overview && overview[PERatioKey].Str? && parse(overview[PERatioKey].s).Some?
                     then parse(overview[PERatioKey].s).value else 0.0)
    ensures r.marketCap == (if MarketCapKey in overview && overview[MarketCapKey].Str? && overview[MarketCapKey].s != ""
                            then overview[MarketCapKey].s else "0")
    ensures r.marketCap != "" && r.changePercent != ""
  {
    var q := BuildPartial(symbol, quote, parse, now);
    Full(symbol, q.price, q.change, q.changePercent,
         TextOr(StrMember(overview, NameKey), ""),
         TextOr(StrMember(overview, IndustryKey), ""),
         TextOr(StrMember(overview, DescriptionKey), ""),
         NumberOrZero(parse, StrMember(overview, PERatioKey)),
         TextOr(StrMember(overview, MarketCapKey), "0"),
         now)
  }

  // ---------------------------------------------------------------------
  // The steps of a request, as functions of the world

  /** getCachedStockData: no table or a failing read is a miss. */
  function ReadCache(env: Env, w: World, symbol: string): (r: (Option<Record>, World))
    ensures r.0.Some? <==> env.tableConfigured && !env.readFails(symbol) && symbol in w.store
    ensures r.0.Some? ==> r.0.value == w.store[symbol]
    ensures r.1.store == w.store
    ensures r.1.log == w.log + (if env.tableConfigured then [StoreGet(symbol)] else [])
  {
    if !env.tableConfigured then (None, w)
    else
      var w' := World(w.store, w.log + [StoreGet(symbol)]);
      if env.readFails(symbol) then (None, w') else (Lookup(w.store, symbol), w')
  }

  /** cacheStockData: no table or a failing write leaves the table as it was; nothing is reported. */
  function WriteCache(env: Env, w: World, rec: Record): (w': World)
    ensures env.tableConfigured && !env.writeFails(rec.symbol) ==> w'.store == w.store[rec.symbol := rec]
    ensures !env.tableConfigured || env.writeFails(rec.symbol) ==> w'.store == w.store
    ensures w'.log == w.log + (if env.tableConfigured then [StorePut(rec)] else [])
    ensures StoreKeyed(w.store) ==> StoreKeyed(w'.store)
  {
    if !env.tableConfigured then w
    else
      var store := if env.writeFails(rec.symbol) then w.store else w.store[rec.symbol := rec];
      World(store, w.log + [StorePut(rec)])
  }

  /** fetchAlphaVantageData: one provider call, logged. */
  function CallProvider(env: Env, w: World, endpoint: Endpoint, symbol: string): (r: (FetchResult, World))
    ensures r.1 == World(w.store, w.log + [Call(endpoint, symbol)])
  {
    (CheckReply(env.upstream(endpoint, symbol)), World(w.store, w.log + [Call(endpoint, symbol)]))
  }

  function NotFound(symbol: string): Response {
    Response(404, Message("Stock data for " + symbol + " not found"))
  }

  /** getStockDataForSymbol: quote, then overview, then build, write back and answer 200; any throw is 404. */
  function FetchSymbol(env: Env, w: World, symbol: string, now: int): (r: (Response, World))
    ensures r.0.status == 200 || r.0 == NotFound(symbol)
    ensures r.0.status == 200 ==> r.0.body.Stock? && r.0.body.record.Full?
                                  && r.0.body.record.symbol == symbol && r.0.body.record.lastUpdated == now
    ensures r.0.status != 200 ==> r.1.store == w.store
    ensures StoreKeyed(w.store) ==> StoreKeyed(r.1.store)
    ensures forall k :: k != symbol ==> Lookup(r.1.store, k) == Lookup(w.store, k)
  {
    var (quote, w1) := CallProvider(env, w, GlobalQuote, symbol);
    if !quote.Fetched? then (NotFound(symbol), w1)
    else
      var (company, w2) := CallProvider(env, w1, Overview, symbol);
      if !company.Fetched? then (NotFound(symbol), w2)
      else match QuoteFields(quote.payload)
        case None => (NotFound(symbol), w2)
        case Some(q) =>
          var rec := BuildFull(symbol, q, company.payload, env.parse, now);
          (Response(200, Stock(rec)), WriteCache(env, w2, rec))
  }

  /** The handler's symbol branch: a fresh cached record is the answer, anything else is fetched. */
  function ResolveSymbol(env: Env, w: World, symbol: string, now: int): (r: (Response, World))
    ensures r.0.status == 200 || r.0 == NotFound(symbol)
    ensures StoreKeyed(w.store) && r.0.status == 200 ==> r.0.body.Stock? && r.0.body.record.symbol == symbol
    ensures StoreKeyed(w.store) ==> StoreKeyed(r.1.store)
    ensures forall k :: k != symbol ==> Lookup(r.1.store, k) == Lookup(w.store, k)
  {
    var (cached, w1) := ReadCache(env, w, symbol);
    if cached.Some? && IsCacheFresh(cached.value.lastUpdated, now) then (Response(200, Stock(cached.value)), w1)
    else FetchSymbol(env, w1, symbol, now)
  }

  /** One iteration of getPopularStocks: the record it pushes, if any, and the world after it. */
  function VisitPopular(env: Env, w: World, symbol: string, now: int): (r: (Option<Record>, World))
    ensures StoreKeyed(w.store) && r.0.Some? ==> r.0.value.symbol == symbol
    ensures StoreKeyed(w.store) ==> StoreKeyed(r.1.store)
    ensures forall k :: k != symbol ==> Lookup(r.1.store, k) == Lookup(w.store, k)
    ensures LogExtends(w.log, r.1.log)
  {
    var (cached, w1) := ReadCache(env, w, symbol);
    if cached.Some? && IsCacheFresh(cached.value.lastUpdated, now) then (cached, w1)
    else
      var (quote, w2) := CallProvider(env, w1, GlobalQuote, symbol);
      if !quote.Fetched? then (None, w2)
      else match QuoteFields(quote.payload)
        case None => (None, w2)
        case Some(q) =>
          var rec := BuildPartial(symbol, q, env.parse, now);
          (Some(rec), WriteCache(env, w2, rec))
  }

  function OptionToSeq(o: Option<Record>): seq<Record> {
    if o.Some? then [o.value] else []
  }

  /** The rest of getPopularStocks' loop: `stocks` pushed so far, `symbols` still to visit. */
  function PopularFrom(env: Env, w: World, stocks: seq<Record>, symbols: seq<string>, now: int): (r: (seq<Record>, World))
    ensures StoreKeyed(w.store) ==> StoreKeyed(r.1.store)
    decreases |symbols|
  {
    if symbols == [] then (stocks, w)
    else
      var (entry, w1) := VisitPopular(env, w, symbols[0], now);
      PopularFrom(env, w1, stocks + OptionToSeq(entry), symbols[1..], now)
  }

  /** getPopularStocks: always 200, with the records the loop pushed. */
  function PopularList(env: Env, w: World, now: int): (r: (Response, World))
    ensures r.0.status == 200 && r.0.body.Stocks?
  {
    var (stocks, w1) := PopularFrom(env, w, [], PopularSymbols, now);
    (Response(200, Stocks(stocks)), w1)
  }

  /** The upper-cased path symbol, "" when there is none. */
  function PathSymbol(req: Request): (symbol: string)
    ensures symbol == "" <==> req.pathSymbol.None? || req.pathSymbol.value == ""
    ensures req.pathSymbol.Some? ==> |symbol| == |req.pathSymbol.value| && ToUpper(symbol) == symbol
  {
    if req.pathSymbol.Some? then ToUpperIdempotent(req.pathSymbol.value); ToUpper(req.pathSymbol.value) else ""
  }

  /** handler: the popular list, the symbol path, or 400. */
  function Respond(env: Env, w: World, req: Request, now: int): (r: (Response, World))
    ensures r.0.status in {200, 400, 404}
    ensures r.0.status == 400 <==> PathSymbol(req) == "" && req.httpMethod != "GET"
    ensures r.0.status == 400 ==> r.1 == w
    ensures r.0.status == 404 ==> PathSymbol(req) != ""
    ensures PathSymbol(req) == "" && req.httpMethod == "GET" ==> r == PopularList(env, w, now)
    ensures PathSymbol(req) != "" ==> r == ResolveSymbol(env, w, PathSymbol(req), now)
    ensures StoreKeyed(w.store) ==> StoreKeyed(r.1.store)
  {
    var symbol := PathSymbol(req);
    if symbol == "" && req.httpMethod == "GET" then PopularList(env, w, now)
    else if symbol != "" then ResolveSymbol(env, w, symbol, now)
    else (Response(400, Message("Invalid request")), w)
  }

  // ---------------------------------------------------------------------
  // The Lambda, step by step

  class StockLambda {
    var store: map<string, Record>
    var log: seq<Event>

    ghost predicate Valid()
      reads this
    {
      StoreKeyed(store)
    }

    function State(): World
      reads this
    {
      World(store, log)
    }

    constructor (items: map<string, Record>)
      requires StoreKeyed(items)
      ensures Valid() && store == items && log == []
    {
      store := items;
      log := [];
    }

    method GetCachedStockData(env: Env, symbol: string) returns (cached: Option<Record>)
      requires Valid()
      modifies this
      ensures Valid()
      ensures (cached, State()) == ReadCache(env, old(State()), symbol)
    {
      if !env.tableConfigured {
        return None;
      }
      log := log + [StoreGet(symbol)];
      if env.readFails(symbol) {
        return None;
      }
      cached := if symbol in store then Some(store[symbol]) else None;
    }

    method CacheStockData(env: Env, rec: Record)
      requires Valid()
      modifies this
      ensures Valid()
      ensures State() == WriteCache(env, old(State()), rec)
    {
      if !env.tableConfigured {
        return;
      }
      log := log + [StorePut(rec)];
      if !env.writeFails(rec.symbol) {
        store := store[rec.symbol := rec];
      }
    }

    method FetchAlphaVantageData(env: Env, endpoint: Endpoint, symbol: string) returns (r: FetchResult)
      requires Valid()
      modifies this
      ensures Valid()
      ensures (r, State()) == CallProvider(env, old(State()), endpoint, symbol)
    {
      log := log + [Call(endpoint, symbol)];
      r := CheckReply(env.upstream(endpoint, symbol));
    }

    method GetStockDataForSymbol(env: Env, symbol: string, now: int) returns (resp: Response)
      requires Valid()
      modifies this
      ensures Valid()
      ensures (resp, State()) == FetchSymbol(env, old(State()), symbol, now)
    {
      var quote := FetchAlphaVantageData(env, GlobalQuote, symbol);
      if !quote.Fetched? {
        return NotFound(symbol);
      }
      var company := FetchAlphaVantageData(env, Overview, symbol);
      if !company.Fetched? {
        return NotFound(symbol);
      }
      var q := QuoteFields(quote.payload);
      if q.None? {
        return NotFound(symbol);
      }
      var rec := BuildFull(symbol, q.value, company.payload, env.parse, now);
      CacheStockData(env, rec);
      resp := Response(200, Stock(rec));
    }

    /** One iteration of getPopularStocks' loop: the record to push for `symbol`, if any. */
    method VisitPopularSymbol(env: Env, symbol: string, now: int) returns (entry: Option<Record>)
      requires Valid()
      modifies this
      ensures Valid()
      ensures (entry, State()) == VisitPopular(env, old(State()), symbol, now)
    {
      var cached := GetCachedStockData(env, symbol);
      if cached.Some? && IsCacheFresh(cached.value.lastUpdated, now) {
        return cached;
      }
      var quote := FetchAlphaVantageData(env, GlobalQuote, symbol);
      if !quote.Fetched? {
        return None;
      }
      var q := QuoteFields(quote.payload);
      if q.None? {
        return None;
      }
      var rec := BuildPartial(symbol, q.value, env.parse, now);
      CacheStockData(env, rec);
      entry := Some(rec);
    }

    method GetPopularStocks(env: Env, now: int) returns (resp: Response)
      requires Valid()
      modifies this
      ensures Valid()
      ensures (resp, State()) == PopularList(env, old(State()), now)
    {
      var stocks: seq<Record> := [];
      var i := 0;
      while i < |PopularSymbols|
        invariant 0 <= i <= |PopularSymbols|
        invariant Valid()
        invariant PopularFrom(env, State(), stocks, PopularSymbols[i..], now)
               == PopularFrom(env, old(State()), [], PopularSymbols, now)
      {
        ghost var pushed := stocks;
        var entry := VisitPopularSymbol(env, PopularSymbols[i], now);
        if entry.Some? {
          stocks := stocks + [entry.value];
        }
        assert stocks == pushed + OptionToSeq(entry);
        assert PopularSymbols[i..][1..] == PopularSymbols[i + 1..];
        i := i + 1;
      }
      resp := Response(200, Stocks(stocks));
    }

    method Handler(env: Env, req: Request, now: int) returns (resp: Response)
      requires Valid()
      modifies this
      ensures Valid()
      ensures (resp, State()) == Respond(env, old(State()), req, now)
    {
      var symbol := if req.pathSymbol.Some? then ToUpper(req.pathSymbol.value) else "";
      if symbol == "" && req.httpMethod == "GET" {
        resp := GetPopularStocks(env, now);
        return;
      }
      if symbol != "" {
        var cached := GetCachedStockData(env, symbol);
        if cached.Some? && IsCacheFresh(cached.value.lastUpdated, now) {
          return Response(200, Stock(cached.value));
        }
        resp := GetStockDataForSymbol(env, symbol, now);
        return;
      }
      resp := Response(400, Message("Invalid request"));
    }
  }
}
