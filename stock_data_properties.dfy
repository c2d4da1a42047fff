/**
 * What the stock-data Lambda promises, proved of the spec functions in
 * StockData (and so, through their contracts, of the StockLambda methods).
 */
module StockDataProperties {
  import opened Common
  import opened StockData

  /** The table answers for `symbol` at `now`: configured, readable, present and fresh. */
  predicate FreshHit(env: Env, store: map<string, Record>, symbol: string, now: int) {
    env.tableConfigured && !env.readFails(symbol) && symbol in store
    && IsCacheFresh(store[symbol].lastUpdated, now)
  }

  function ReadEvents(env: Env, symbol: string): seq<Event> {
    if env.tableConfigured then [StoreGet(symbol)] else []
  }

  // ---------------------------------------------------------------------
  // Freshness

  /** The window is strict, and a record stays fresh at every earlier time. */
  lemma FreshnessWindow(lastUpdated: int, now: int, earlier: int)
    requires earlier <= now
    ensures IsCacheFresh(lastUpdated, now) <==> now - lastUpdated < 900000
    ensures IsCacheFresh(lastUpdated, now) ==> IsCacheFresh(lastUpdated, earlier)
  {
  }

  // ---------------------------------------------------------------------
  // Building records

  /** Empty bodies build the all-defaults record: building never fails on missing data. */
  lemma EmptyBodiesBuildDefaults(symbol: string, parse: string -> Option<real>, now: int)
    ensures BuildFull(symbol, map[], map[], parse, now)
         == Full(symbol, 0.0, 0.0, "0%", "", "", "", 0.0, "0", now)
    ensures BuildPartial(symbol, map[], parse, now) == Partial(symbol, 0.0, 0.0, "0%", now)
  {
  }

  /** A missing or unparsable price, change or P/E ratio is 0, whatever else the bodies hold. */
  lemma UnparsableNumbersAreZero(symbol: string, quote: map<string, string>, overview: Payload,
                                 parse: string -> Option<real>, now: int)
    ensures PriceKey !in quote || parse(quote[PriceKey]).None? ==>
              BuildFull(symbol, quote, overview, parse, now).price == 0.0
    ensures ChangeKey !in quote || parse(quote[ChangeKey]).None? ==>
              BuildFull(symbol, quote, overview, parse, now).change == 0.0
    ensures PERatioKey !in overview || overview[PERatioKey].Obj? || parse(overview[PERatioKey].s).None? ==>
              BuildFull(symbol, quote, overview, parse, now).pe == 0.0
  {
  }

  // ---------------------------------------------------------------------
  // The table wrappers

  /** A successful write is what the next successful read returns. */
  lemma WriteThenRead(env: Env, w: World, rec: Record)
    requires env.tableConfigured && !env.writeFails(rec.symbol) && !env.readFails(rec.symbol)
    ensures ReadCache(env, WriteCache(env, w, rec), rec.symbol).0 == Some(rec)
  {
  }

  // ---------------------------------------------------------------------
  // The symbol path

  /** A fresh hit answers 200 with the cached record: one table read, no provider call, no write. */
  lemma FreshHitServedFromCache(env: Env, w: World, symbol: string, now: int)
    requires FreshHit(env, w.store, symbol, now)
    ensures ResolveSymbol(env, w, symbol, now)
         == (Response(200, Stock(w.store[symbol])), World(w.store, w.log + [StoreGet(symbol)]))
    ensures StoreKeyed(w.store) ==> w.store[symbol].symbol == symbol
  {
  }

  /** The record the provider yields for the detail path: both calls succeed and the quote has 'Global Quote'. */
  function DetailRecord(env: Env, symbol: string, now: int): Option<Record> {
    var quote := CheckReply(env.upstream(GlobalQuote, symbol));
    var company := CheckReply(env.upstream(Overview, symbol));
    if quote.Fetched? && company.Fetched? && QuoteFields(quote.payload).Some?
    then Some(BuildFull(symbol, QuoteFields(quote.payload).value, company.payload, env.parse, now))
    else None
  }

  /** The provider calls of the detail path: the overview is asked for only after a successful quote. */
  function DetailCalls(env: Env, symbol: string): seq<Event> {
    if CheckReply(env.upstream(GlobalQuote, symbol)).Fetched?
    then [Call(GlobalQuote, symbol), Call(Overview, symbol)]
    else [Call(GlobalQuote, symbol)]
  }

  /**
   * A miss or stale entry: the quote, then the overview, then one write of
   * the built record under the symbol and 200 with that record; if either
   * call fails or the quote has no 'Global Quote', 404 and no write.
   */
  lemma MissFetchesThenWritesBack(env: Env, w: World, symbol: string, now: int)
    requires !FreshHit(env, w.store, symbol, now)
    ensures var (resp, w') := ResolveSymbol(env, w, symbol, now);
            var rec := DetailRecord(env, symbol, now);
            && (rec.Some? ==> rec.value.Full? && rec.value.symbol == symbol && rec.value.lastUpdated == now)
            && resp == (if rec.Some? then Response(200, Stock(rec.value)) else NotFound(symbol))
            && w'.store == (if rec.Some? && env.tableConfigured && !env.writeFails(symbol)
                            then w.store[symbol := rec.value] else w.store)
            && w'.log == w.log + ReadEvents(env, symbol) + DetailCalls(env, symbol)
                          + (if rec.Some? && env.tableConfigured then [StorePut(rec.value)] else [])
  {
  }

  /**
   * At the handler: a symbol request that misses the cache and is answered
   * 200 writes exactly one record, a full one keyed by the upper-cased
   * request symbol, and that record is the answer.
   */
  lemma DetailMissWritesUpperCasedKey(env: Env, w: World, req: Request, now: int)
    requires PathSymbol(req) != "" && !FreshHit(env, w.store, PathSymbol(req), now)
    requires env.tableConfigured && !env.writeFails(PathSymbol(req))
    ensures var (resp, w') := Respond(env, w, req, now);
            resp.status == 200 ==>
              && resp.body.Stock? && resp.body.record.Full?
              && resp.body.record.symbol == ToUpper(req.pathSymbol.value)
              && w'.store == w.store[ToUpper(req.pathSymbol.value) := resp.body.record]
              && |w'.log| == |w.log| + 4 && w'.log[|w.log| + 3] == StorePut(resp.body.record)
  {
    MissFetchesThenWritesBack(env, w, PathSymbol(req), now);
  }

  /** A missing table or a failing read is a miss: the answer is the fetched one. */
  lemma ReadFailureIsMiss(env: Env, w: World, symbol: string, now: int)
    requires !env.tableConfigured || env.readFails(symbol)
    ensures ResolveSymbol(env, w, symbol, now).0 == FetchSymbol(env, w, symbol, now).0
  {
  }

  /**
   * The fetched answer depends on the provider, the parser and the clock
   * alone: a missing table and failing reads or writes never change it,
   * nor does what the table held.
   */
  lemma FetchIgnoresTheTable(env: Env, w: World, symbol: string, now: int,
                             configured: bool, readFails: string -> bool, writeFails: string -> bool, other: World)
    ensures FetchSymbol(env, w, symbol, now).0
         == FetchSymbol(env.(tableConfigured := configured, readFails := readFails, writeFails := writeFails),
                        other, symbol, now).0
  {
  }

  /**
   * Asking again while the answer is fresh is a pure cache hit that gives
   * the identical answer: no provider call and no write.
   */
  lemma RepeatWithinWindowIsCacheHit(env1: Env, env2: Env, w: World, symbol: string, t1: int, t2: int)
    requires env1.tableConfigured && !env1.writeFails(symbol)
    requires env2.tableConfigured && !env2.readFails(symbol)
    requires var r1 := ResolveSymbol(env1, w, symbol, t1).0;
             r1.status == 200 && r1.body.Stock? && IsCacheFresh(r1.body.record.lastUpdated, t2)
    ensures var (r1, w1) := ResolveSymbol(env1, w, symbol, t1);
            ResolveSymbol(env2, w1, symbol, t2) == (r1, World(w1.store, w1.log + [StoreGet(symbol)]))
  {
    if !FreshHit(env1, w.store, symbol, t1) {
      MissFetchesThenWritesBack(env1, w, symbol, t1);
    }
  }

  /** A record fetched by the detail path is re-served for fifteen minutes. */
  lemma FetchedRecordServedForWindow(env1: Env, env2: Env, w: World, symbol: string, t1: int, t2: int)
    requires !FreshHit(env1, w.store, symbol, t1)
    requires env1.tableConfigured && !env1.writeFails(symbol)
    requires env2.tableConfigured && !env2.readFails(symbol)
    requires t2 - t1 < FreshnessWindowMs
    requires ResolveSymbol(env1, w, symbol, t1).0.status == 200
    ensures var (r1, w1) := ResolveSymbol(env1, w, symbol, t1);
            ResolveSymbol(env2, w1, symbol, t2) == (r1, World(w1.store, w1.log + [StoreGet(symbol)]))
  {
    MissFetchesThenWritesBack(env1, w, symbol, t1);
    RepeatWithinWindowIsCacheHit(env1, env2, w, symbol, t1, t2);
  }

  // ---------------------------------------------------------------------
  // The popular list

  predicate Distinct(symbols: seq<string>) {
    forall i, j :: 0 <= i < j < |symbols| ==> symbols[i] != symbols[j]
  }

  /** What visiting `symbol` pushes, read off the table as it was before the loop began. */
  function PopularEntry(env: Env, store: map<string, Record>, symbol: string, now: int): Option<Record> {
    if FreshHit(env, store, symbol, now) then Some(store[symbol])
    else
      var quote := CheckReply(env.upstream(GlobalQuote, symbol));
      if quote.Fetched? && QuoteFields(quote.payload).Some?
      then Some(BuildPartial(symbol, QuoteFields(quote.payload).value, env.parse, now))
      else None
  }

  /** The quote-only record visiting `symbol` writes to the table, if the write happens and succeeds. */
  function PopularWrite(env: Env, store: map<string, Record>, symbol: string, now: int): Option<Record> {
    var entry := PopularEntry(env, store, symbol, now);
    if !FreshHit(env, store, symbol, now) && entry.Some? && env.tableConfigured && !env.writeFails(symbol)
    then entry else None
  }

  /** The entries of `symbols`, each read independently, in order; the failing ones contribute nothing. */
  function Kept(env: Env, store: map<string, Record>, symbols: seq<string>, now: int): seq<Record>
    decreases |symbols|
  {
    if symbols == [] then []
    else OptionToSeq(PopularEntry(env, store, symbols[0], now)) + Kept(env, store, symbols[1..], now)
  }

  /** `symbols` without `bad`. */
  function Without(symbols: seq<string>, bad: string): (r: seq<string>)
    decreases |symbols|
  {
    if symbols == [] then []
    else (if symbols[0] == bad then [] else [symbols[0]]) + Without(symbols[1..], bad)
  }

  /** Kept reads the table only at the keys it visits. */
  lemma {:induction false} KeptFrame(env: Env, s1: map<string, Record>, s2: map<string, Record>,
                                     symbols: seq<string>, now: int)
    requires forall k :: k in symbols ==> Lookup(s1, k) == Lookup(s2, k)
    ensures Kept(env, s1, symbols, now) == Kept(env, s2, symbols, now)
    decreases |symbols|
  {
    if symbols != [] {
      assert symbols[0] in symbols;
      assert forall k :: k in symbols[1..] ==> k in symbols;
      KeptFrame(env, s1, s2, symbols[1..], now);
    }
  }

  /** One visit: it pushes PopularEntry and changes the table at its own key only, by PopularWrite. */
  lemma VisitPopularStep(env: Env, w: World, symbol: string, now: int)
    ensures var (entry, w') := VisitPopular(env, w, symbol, now);
            && entry == PopularEntry(env, w.store, symbol, now)
            && (PopularWrite(env, w.store, symbol, now).Some? ==>
                  w'.store == w.store[symbol := PopularWrite(env, w.store, symbol, now).value])
            && (PopularWrite(env, w.store, symbol, now).None? ==> w'.store == w.store)
  {
  }

  lemma VisitPopularEntry(env: Env, w: World, symbol: string, now: int)
    ensures VisitPopular(env, w, symbol, now).0 == PopularEntry(env, w.store, symbol, now)
  {
    VisitPopularStep(env, w, symbol, now);
  }

  /** What the table holds at `k` once the loop has visited `symbols`, starting from `store`. */
  function StoreAfterPopular(env: Env, store: map<string, Record>, symbols: seq<string>, now: int, k: string): Option<Record> {
    if k in symbols && PopularWrite(env, store, k, now).Some? then PopularWrite(env, store, k, now) else Lookup(store, k)
  }

  lemma DistinctTail(symbols: seq<string>)
    requires Distinct(symbols) && symbols != []
    ensures Distinct(symbols[1..]) && symbols[0] !in symbols[1..]
  {
    var rest := symbols[1..];
    forall i, j | 0 <= i < j < |rest| ensures rest[i] != rest[j] {
      assert rest[i] == symbols[i + 1] && rest[j] == symbols[j + 1];
    }
    forall j | 0 <= j < |rest| ensures rest[j] != symbols[0] {
      assert rest[j] == symbols[j + 1];
    }
  }

  /** Kept of a non-empty list, one step unfolded. */
  lemma KeptCons(env: Env, store: map<string, Record>, symbols: seq<string>, now: int)
    requires symbols != []
    ensures Kept(env, store, symbols, now)
         == OptionToSeq(PopularEntry(env, store, symbols[0], now)) + Kept(env, store, symbols[1..], now)
  {
  }

  /** The loop pushes exactly Kept, in order, each entry read off the table as it was before the loop. */
  lemma {:induction false} PopularFromPushes(env: Env, w: World, stocks: seq<Record>, symbols: seq<string>, now: int)
    requires Distinct(symbols)
    ensures PopularFrom(env, w, stocks, symbols, now).0 == stocks + Kept(env, w.store, symbols, now)
    decreases |symbols|
  {
    if symbols != [] {
      var s0, rest := symbols[0], symbols[1..];
      var (entry, w1) := VisitPopular(env, w, s0, now);
      var pushed := stocks + OptionToSeq(entry);
      assert PopularFrom(env, w, stocks, symbols, now).0 == PopularFrom(env, w1, pushed, rest, now).0;
      VisitPopularEntry(env, w, s0, now);
      KeptCons(env, w.store, symbols, now);
      DistinctTail(symbols);
      assert forall k :: k in rest ==> Lookup(w1.store, k) == Lookup(w.store, k) by {
        forall k | k in rest ensures Lookup(w1.store, k) == Lookup(w.store, k) {
          assert k != s0;
        }
      }
      KeptFrame(env, w1.store, w.store, rest, now);
      PopularFromPushes(env, w1, pushed, rest, now);
      assert pushed + Kept(env, w.store, rest, now) == stocks + (OptionToSeq(entry) + Kept(env, w.store, rest, now));
    }
  }

  /** The loop changes the table only at the visited keys, each by its own PopularWrite. */
  lemma {:induction false} PopularFromStore(env: Env, w: World, stocks: seq<Record>, symbols: seq<string>, now: int)
    requires Distinct(symbols)
    ensures forall k :: Lookup(PopularFrom(env, w, stocks, symbols, now).1.store, k)
                        == StoreAfterPopular(env, w.store, symbols, now, k)
    decreases |symbols|
  {
    if symbols != [] {
      var s0, rest := symbols[0], symbols[1..];
      var (entry, w1) := VisitPopular(env, w, s0, now);
      VisitPopularStep(env, w, s0, now);
      DistinctTail(symbols);
      PopularFromStore(env, w1, stocks + OptionToSeq(entry), rest, now);
      var w' := PopularFrom(env, w, stocks, symbols, now).1;
      assert w' == PopularFrom(env, w1, stocks + OptionToSeq(entry), rest, now).1;
      forall k ensures Lookup(w'.store, k) == StoreAfterPopular(env, w.store, symbols, now, k) {
        if k == s0 {
          assert k !in rest;
          assert Lookup(w'.store, k) == Lookup(w1.store, k);
        } else {
          assert Lookup(w1.store, k) == Lookup(w.store, k);
          assert PopularWrite(env, w1.store, k, now) == PopularWrite(env, w.store, k, now);
          assert k in symbols <==> k in rest;
        }
      }
    }
  }

  lemma PopularSymbolsDistinct()
    ensures Distinct(PopularSymbols)
  {
  }

  /**
   * getPopularStocks answers 200 with exactly the entries of AAPL, MSFT,
   * GOOGL, AMZN and TSLA that were fresh in the table or whose quote call
   * succeeded, in that order; each popular symbol's key changes only by its
   * own quote-only write, and no other key changes.
   */
  lemma PopularListIsExact(env: Env, w: World, now: int)
    ensures var (resp, w') := PopularList(env, w, now);
            && resp == Response(200, Stocks(Kept(env, w.store, PopularSymbols, now)))
            && (forall k :: k !in PopularSymbols ==> Lookup(w'.store, k) == Lookup(w.store, k))
            && (forall k :: k in PopularSymbols && PopularWrite(env, w.store, k, now).Some?
                  ==> Lookup(w'.store, k) == PopularWrite(env, w.store, k, now))
            && (forall k :: k in PopularSymbols && PopularWrite(env, w.store, k, now).None?
                  ==> Lookup(w'.store, k) == Lookup(w.store, k))
  {
    PopularSymbolsDistinct();
    PopularFromPushes(env, w, [], PopularSymbols, now);
    PopularFromStore(env, w, [], PopularSymbols, now);
  }

  /** A failing symbol is dropped from the list and changes nothing about the others' entries. */
  lemma {:induction false} FailingSymbolIsDropped(env: Env, store: map<string, Record>, symbols: seq<string>,
                                                  bad: string, now: int)
    requires PopularEntry(env, store, bad, now).None?
    ensures Kept(env, store, symbols, now) == Kept(env, store, Without(symbols, bad), now)
    decreases |symbols|
  {
    if symbols != [] {
      var s0, tail := symbols[0], symbols[1..];
      var e0 := OptionToSeq(PopularEntry(env, store, s0, now));
      FailingSymbolIsDropped(env, store, tail, bad, now);
      var rest := Without(tail, bad);
      assert Kept(env, store, symbols, now) == e0 + Kept(env, store, tail, now);
      if s0 != bad {
        var kept := [s0] + rest;
        assert Without(symbols, bad) == kept;
        assert kept[0] == s0 && kept[1..] == rest;
        assert Kept(env, store, kept, now) == e0 + Kept(env, store, rest, now);
      } else {
        assert e0 == [] && e0 + Kept(env, store, tail, now) == Kept(env, store, tail, now);
        assert Without(symbols, bad) == [] + rest == rest;
      }
    }
  }

  /** What the popular list leaves in the log: every operation is a table read, a quote call, or a quote-only write. */
  predicate QuoteOnlyEvent(e: Event) {
    match e
    case StoreGet(_) => true
    case StorePut(r) => r.Partial?
    case Call(endpoint, _) => endpoint == GlobalQuote
  }

  /** `after` is `before` followed only by table reads, quote calls and quote-only writes. */
  predicate QuoteOnlyExtension(before: seq<Event>, after: seq<Event>) {
    |before| <= |after| && after[..|before|] == before
    && forall i :: |before| <= i < |after| ==> QuoteOnlyEvent(after[i])
  }

  lemma QuoteOnlyExtensionTrans(a: seq<Event>, b: seq<Event>, c: seq<Event>)
    requires QuoteOnlyExtension(a, b) && QuoteOnlyExtension(b, c)
    ensures QuoteOnlyExtension(a, c)
  {
    assert c[..|a|] == c[..|b|][..|a|];
  }

  /** One visit reads the table, calls the quote endpoint and writes a quote-only record, nothing else. */
  lemma VisitPopularLog(env: Env, w: World, symbol: string, now: int)
    ensures QuoteOnlyExtension(w.log, VisitPopular(env, w, symbol, now).1.log)
  {
    var w' := VisitPopular(env, w, symbol, now).1;
    assert forall i :: |w.log| <= i < |w'.log| ==> QuoteOnlyEvent(w'.log[i]);
  }

  lemma {:induction false} PopularFromCallsOnlyTheQuote(env: Env, w: World, stocks: seq<Record>, symbols: seq<string>, now: int)
    ensures QuoteOnlyExtension(w.log, PopularFrom(env, w, stocks, symbols, now).1.log)
    decreases |symbols|
  {
    if symbols == [] {
      assert w.log[..|w.log|] == w.log;
    } else {
      var (entry, w1) := VisitPopular(env, w, symbols[0], now);
      VisitPopularLog(env, w, symbols[0], now);
      PopularFromCallsOnlyTheQuote(env, w1, stocks + OptionToSeq(entry), symbols[1..], now);
      QuoteOnlyExtensionTrans(w.log, w1.log, PopularFrom(env, w, stocks, symbols, now).1.log);
    }
  }

  /** The popular list never calls the overview endpoint and writes only quote-only records. */
  lemma PopularListCallsOnlyTheQuote(env: Env, w: World, now: int)
    ensures var w' := PopularList(env, w, now).1;
            && |w.log| <= |w'.log| && w'.log[..|w.log|] == w.log
            && forall i :: |w.log| <= i < |w'.log| ==> QuoteOnlyEvent(w'.log[i])
  {
    PopularFromCallsOnlyTheQuote(env, w, [], PopularSymbols, now);
  }

  /**
   * At the handler, a GET without a symbol answers 200 with exactly the
   * popular entries that are fresh or whose quote succeeded, in order; only
   * popular keys change, each by its own quote-only write, and the log grows
   * by table reads, quote calls and quote-only writes alone.
   */
  lemma PopularRequestIsExact(env: Env, w: World, req: Request, now: int)
    requires PathSymbol(req) == "" && req.httpMethod == "GET"
    ensures var (resp, w') := Respond(env, w, req, now);
            && resp == Response(200, Stocks(Kept(env, w.store, PopularSymbols, now)))
            && (forall k :: k !in PopularSymbols ==> Lookup(w'.store, k) == Lookup(w.store, k))
            && (forall k :: k in PopularSymbols && PopularWrite(env, w.store, k, now).Some?
                  ==> Lookup(w'.store, k) == PopularWrite(env, w.store, k, now))
            && (forall k :: k in PopularSymbols && PopularWrite(env, w.store, k, now).None?
                  ==> Lookup(w'.store, k) == Lookup(w.store, k))
            && QuoteOnlyExtension(w.log, w'.log)
  {
    PopularListIsExact(env, w, now);
    PopularListCallsOnlyTheQuote(env, w, now);
  }

  /** A detail request is answered from a stored record that is still fresh, without calling the provider. */
  lemma DetailServesFreshRecord(env: Env, w: World, req: Request, now: int)
    requires PathSymbol(req) != "" && FreshHit(env, w.store, PathSymbol(req), now)
    ensures Respond(env, w, req, now)
         == (Response(200, Stock(w.store[PathSymbol(req)])), World(w.store, w.log + [StoreGet(PathSymbol(req))]))
    ensures StoreKeyed(w.store) ==> w.store[PathSymbol(req)].symbol == ToUpper(req.pathSymbol.value)
  {
    FreshHitServedFromCache(env, w, PathSymbol(req), now);
  }

  /**
   * A quote-only record the popular list wrote shadows any full record: a
   * detail request for that symbol within fifteen minutes is answered with
   * the quote-only record, without calling the provider.
   */
  lemma DetailAfterPopularIsPartial(env: Env, w: World, now: int, env2: Env, later: int, req: Request)
    requires PathSymbol(req) in PopularSymbols
    requires PopularWrite(env, w.store, PathSymbol(req), now).Some?
    requires env2.tableConfigured && !env2.readFails(PathSymbol(req))
    requires later - now < FreshnessWindowMs
    ensures var w1 := PopularList(env, w, now).1;
            var rec := PopularWrite(env, w.store, PathSymbol(req), now).value;
            && rec.Partial?
            && Respond(env2, w1, req, later)
               == (Response(200, Stock(rec)), World(w1.store, w1.log + [StoreGet(PathSymbol(req))]))
  {
    var symbol := PathSymbol(req);
    PopularSymbolsDistinct();
    PopularFromStore(env, w, [], PopularSymbols, now);
    var w1 := PopularList(env, w, now).1;
    assert w1 == PopularFrom(env, w, [], PopularSymbols, now).1;
    var rec := PopularWrite(env, w.store, symbol, now).value;
    assert Lookup(w1.store, symbol) == StoreAfterPopular(env, w.store, PopularSymbols, now, symbol) == Some(rec);
    assert symbol != "" by { assert symbol in PopularSymbols; }
    DetailServesFreshRecord(env2, w1, req, later);
  }
}
