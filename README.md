# Serverless stock API: cache, favourites and PKCE, in Dafny

This project models three parts of a serverless stock-market application:

- **The stock-data Lambda** (`StockData`, `StockDataProperties`). It is a
  read-through cache of stock records. The records live in a DynamoDB table
  keyed by symbol and are fetched from the Alpha Vantage provider when
  missing or fifteen minutes old or older.
  - A request with a symbol is answered from the table when the stored record
    is fresh. Otherwise it fetches the quote and the company overview, writes
    the full record back and answers 200. A failing quote or overview call,
    or a quote body without 'Global Quote', is 404; table read and write
    failures are not (a failed read is a miss, a failed write is ignored).
  - A GET without a symbol builds the popular list of AAPL, MSFT, GOOGL, AMZN
    and TSLA. Each symbol is taken from the table if fresh, or else built
    from the quote alone and written back. Symbols that fail are dropped.
  - Anything else is 400.
- **The favourites Lambda** (`UserFavorites`, `UserFavoritesProperties`). It
  keeps each signed-in user's favourite stocks in a table keyed by
  (user, symbol). The user comes from the Cognito `sub` claim. GET lists the
  user's items, POST stores one under the upper-cased symbol, and DELETE
  removes one. A missing user is 401 and any other method is 405.
- **The PKCE helpers** of the web client (`Pkce`). The code verifier is drawn
  over the unreserved characters of RFC 7636. The code challenge is the
  URL-safe, unpadded form of a base64 digest (sections 4 and 5 of RFC 4648).

Each Lambda's outside world is a value:
- the table's items;
- the log of every table operation and provider call, in order;
- an `Env` of oracles: whether the table is configured, which operations
  throw, what the provider answers, and how `parseFloat` and `JSON.parse`
  read a string.

Spec functions (`StockData.Respond`, `UserFavorites.Respond` and the steps
below them) say what each handler does to that world. The classes
`StockData.StockLambda` and `UserFavorites.FavoritesLambda` hold the table
and log as fields. They perform the same steps imperatively, with the
popular list as a loop, and each method is proved equal to its spec
function. The property lemmas are stated about the spec functions, so
through those `ensures` clauses they also hold of the methods.

`Common` holds `Option`, map lookup and ASCII upper-casing.

## Model

| member | source | states |
|---|---|---|
| Common.ToUpper | backend/functions/getStockData/index.ts:14 | `toUpperCase`: same length, each letter a–z raised, everything else kept |
| Common.ToUpperIdempotent | backend/functions/userFavorites/index.ts:98 | upper-casing twice is upper-casing once, and only "" upper-cases to "" |
| StockData.IsCacheFresh | backend/functions/getStockData/index.ts:166-172 | an age of exactly fifteen minutes is stale, one millisecond less is fresh, a future timestamp is fresh |
| StockDataProperties.FreshnessWindow | backend/functions/getStockData/index.ts:166-172 | fresh if and only if the age is under 900000 ms; a record fresh now was fresh at every earlier time |
| StockData.CheckReply | backend/functions/getStockData/index.ts:117-126 | the body is returned if and only if the request succeeded and 'Error Message' is not truthy; a failed request and a provider error are told apart, and the error carries that member |
| StockData.QuoteFields | backend/functions/getStockData/index.ts:54-56 | a body without 'Global Quote' makes the record literal throw; an object member gives its fields; a string member gives no fields |
| StockData.BuildPartial | backend/functions/getStockData/index.ts:93-99 | the quote-only record: each number parsed or 0, change percent the member or "0%" (never empty), stamped with the symbol and the time |
| StockData.BuildFull | backend/functions/getStockData/index.ts:52-63 | the full record: its quote part is the quote-only record; name, industry and description default to "", P/E to 0, market cap to "0" |
| StockDataProperties.EmptyBodiesBuildDefaults | backend/functions/getStockData/index.ts:52-63 | empty quote and overview bodies build the all-defaults records |
| StockDataProperties.UnparsableNumbersAreZero | backend/functions/getStockData/index.ts:54-60 | a missing or unparsable price, change or P/E ratio is 0, each independently of the others |
| StockData.ReadCache | backend/functions/getStockData/index.ts:131-145 | a hit if and only if the table is configured, the read does not throw and the key is present; the stored record is returned; the table is unchanged and one read is logged if configured |
| StockData.WriteCache | backend/functions/getStockData/index.ts:150-161 | a configured, successful write stores the record under its symbol; no table or a failing write leaves the items as they were; one write is logged if configured |
| StockData.CallProvider | backend/functions/getStockData/index.ts:117-126 | one provider call, logged; the table is untouched |
| StockDataProperties.WriteThenRead | backend/functions/getStockData/index.ts:131-161 | after a successful write, a successful read returns the record written |
| StockDataProperties.FreshHitServedFromCache | backend/functions/getStockData/index.ts:22-28 | a fresh stored record is the 200 answer: one table read, no provider call, no write; in a table keyed by symbol it is a record of the requested symbol |
| StockData.FetchSymbol | backend/functions/getStockData/index.ts:44-73 | 200 with a full record of the symbol stamped with the time, or the 404 "Stock data for X not found" with the table unchanged; only the symbol's own key can change, and a table keyed by symbol stays so |
| StockData.ResolveSymbol | backend/functions/getStockData/index.ts:22-31 | 200 or that 404; in a table keyed by symbol a 200 answers a record of the requested symbol; only the symbol's own key can change |
| StockDataProperties.MissFetchesThenWritesBack | backend/functions/getStockData/index.ts:44-73 | on a miss or stale record: quote call, then overview call only if the quote succeeded; 200 with the built full record and one write, or 404 with no write |
| StockDataProperties.DetailMissWritesUpperCasedKey | backend/functions/getStockData/index.ts:14-31 | at the handler, a 200 on a cache miss answers a full record of the upper-cased request symbol and writes exactly that record under that key; the log grows by four operations, the last being that write |
| StockDataProperties.ReadFailureIsMiss | backend/functions/getStockData/index.ts:131-145 | without a table, or when the read throws, the answer is the freshly fetched one |
| StockDataProperties.FetchIgnoresTheTable | backend/functions/getStockData/index.ts:44-73 | the fetched answer does not depend on the table's configuration, its failures or its contents |
| StockDataProperties.RepeatWithinWindowIsCacheHit | backend/functions/getStockData/index.ts:22-31 | a 200 answer still fresh at the next request is returned again, from the table alone |
| StockDataProperties.FetchedRecordServedForWindow | backend/functions/getStockData/index.ts:22-31 | a record fetched on a miss is served from the table for fifteen minutes |
| StockData.VisitPopular | backend/functions/getStockData/index.ts:84-108 | one loop iteration: it only appends to the log and changes no key but its symbol's; in a table keyed by symbol, the pushed record is of that symbol |
| StockData.PopularFrom | backend/functions/getStockData/index.ts:82-109 | the rest of the loop keeps a table keyed by symbol; what it pushes and writes is stated by PopularFromPushes and PopularFromStore |
| StockDataProperties.VisitPopularStep | backend/functions/getStockData/index.ts:82-108 | one loop iteration pushes the symbol's entry and changes only its own key, by its own quote-only write |
| StockDataProperties.PopularSymbolsDistinct | backend/functions/getStockData/index.ts:79 | the five popular symbols are distinct |
| StockDataProperties.PopularFromPushes | backend/functions/getStockData/index.ts:82-109 | the loop pushes, in order, exactly the entries of the symbols that were fresh or whose quote succeeded, each read off the table as it was before the loop |
| StockDataProperties.PopularFromStore | backend/functions/getStockData/index.ts:82-109 | after the loop, each visited key holds its own quote-only write if one happened, and every other key is unchanged |
| StockData.PopularList | backend/functions/getStockData/index.ts:78-112 | the popular list always answers 200 with a list of records |
| StockDataProperties.PopularListIsExact | backend/functions/getStockData/index.ts:78-112 | the popular list answers exactly the kept entries of the five symbols in order; only popular keys change, each by its own write |
| StockDataProperties.PopularRequestIsExact | backend/functions/getStockData/index.ts:17-19 | at the handler, a GET without a symbol answers exactly the kept entries of the five symbols in order; only popular keys change, each by its own write; the log grows by table reads, quote calls and quote-only writes alone |
| StockDataProperties.FailingSymbolIsDropped | backend/functions/getStockData/index.ts:105-107 | a symbol whose quote fails contributes nothing: the list is the one built without it |
| StockDataProperties.VisitPopularLog | backend/functions/getStockData/index.ts:84-102 | one iteration only reads the table, calls the quote endpoint and writes a quote-only record |
| StockDataProperties.PopularFromCallsOnlyTheQuote | backend/functions/getStockData/index.ts:82-109 | the loop only appends to the log, and never calls the overview endpoint or writes a full record |
| StockDataProperties.PopularListCallsOnlyTheQuote | backend/functions/getStockData/index.ts:78-112 | the same for the whole popular request |
| StockData.PathSymbol | backend/functions/getStockData/index.ts:14 | the upper-cased path symbol: "" exactly when it is absent or empty, otherwise of the same length and already upper case |
| StockDataProperties.DetailServesFreshRecord | backend/functions/getStockData/index.ts:12-31 | a symbol request whose stored record is fresh is answered with it, with one table read; in a table keyed by symbol it is a record of the upper-cased request symbol |
| StockDataProperties.DetailAfterPopularIsPartial | backend/functions/getStockData/index.ts:86-102 | a quote-only record written by the popular list is the answer to a symbol request within fifteen minutes, with no provider call |
| StockData.Respond | backend/functions/getStockData/index.ts:12-39 | the handler answers only 200, 400 or 404; 400 if and only if there is no symbol and the method is not GET, with nothing touched; 404 only on the symbol path; a GET without a symbol is answered by PopularList and a symbol request by ResolveSymbol; a table keyed by symbol stays so |
| StockData.StockLambda.GetCachedStockData | backend/functions/getStockData/index.ts:131-145 | the method's answer and new table and log are those of ReadCache, and the table stays keyed by symbol |
| StockData.StockLambda.CacheStockData | backend/functions/getStockData/index.ts:150-161 | the new table and log are those of WriteCache, and the table stays keyed by symbol |
| StockData.StockLambda.FetchAlphaVantageData | backend/functions/getStockData/index.ts:117-126 | the answer and new log are those of CallProvider, and the table stays keyed by symbol |
| StockData.StockLambda.GetStockDataForSymbol | backend/functions/getStockData/index.ts:44-73 | the answer and new state are those of the fetch path proved above, and the table stays keyed by symbol |
| StockData.StockLambda.VisitPopularSymbol | backend/functions/getStockData/index.ts:84-108 | the loop body's entry and new state are those of VisitPopular, and the table stays keyed by symbol |
| StockData.StockLambda.GetPopularStocks | backend/functions/getStockData/index.ts:78-112 | the loop's answer and new state are those of PopularList, and the table stays keyed by symbol |
| StockData.StockLambda.Handler | backend/functions/getStockData/index.ts:12-39 | the answer and new state are those of Respond, and the table stays keyed by symbol |
| UserFavorites.UserIdFromToken | backend/functions/userFavorites/index.ts:39-52 | a user if and only if there are claims with a non-empty `sub`, and the user is that claim |
| UserFavorites.ParseBody | backend/functions/userFavorites/index.ts:87 | a missing or empty body parses as the empty object; any other body is what `JSON.parse` gives |
| UserFavorites.FavoritesOf | backend/functions/userFavorites/index.ts:63-71 | the query returns only stored items; in a keyed table, exactly the items of that user, each under its own (user, symbol) key |
| UserFavorites.ListResult | backend/functions/userFavorites/index.ts:57-76 | listing never changes the items |
| UserFavorites.AddResult | backend/functions/userFavorites/index.ts:81-109 | adding keeps every item under its own key and never touches another user's items |
| UserFavorites.RemoveResult | backend/functions/userFavorites/index.ts:114-139 | removing keeps every item under its own key and never touches another user's items |
| UserFavorites.Respond | backend/functions/userFavorites/index.ts:10-34 | the handler answers only 200, 201, 400, 401, 405 or 500; 401 if and only if there is no user; 405 if and only if there is a user and the method is not GET, POST or DELETE; neither touches the table; other users' items never change |
| UserFavoritesProperties.UnauthorizedNeverTouchesTable | backend/functions/userFavorites/index.ts:13-17 | without a user the answer is 401 and table and log are unchanged |
| UserFavoritesProperties.OtherMethodsAre405 | backend/functions/userFavorites/index.ts:27-28 | any other method is 405 and table and log are unchanged |
| UserFavoritesProperties.MissingTableIs500 | backend/functions/userFavorites/index.ts:58-60 | without a configured table, GET, POST and DELETE are 500 with nothing sent to a table |
| UserFavoritesProperties.ListIsExactlyTheCallersItems | backend/functions/userFavorites/index.ts:57-76 | GET answers exactly the caller's stored items, or 500 if the query throws; one query is logged and the items never change |
| UserFavoritesProperties.AddRejectsBadBodies | backend/functions/userFavorites/index.ts:86-107 | a body that does not parse is 500, one without a truthy `symbol` is 400, and a truthy non-string `symbol` makes upper-casing throw, which is 500; none writes |
| UserFavoritesProperties.AddStoresUpperCasedKey | backend/functions/userFavorites/index.ts:94-104 | POST stores under (user, upper-cased symbol), replacing any old item, with the company name or "" and the time, and answers 201; a failing put is 500 and stores nothing |
| UserFavoritesProperties.RemoveDeletesOnlyThatKey | backend/functions/userFavorites/index.ts:119-134 | DELETE removes (user, upper-cased symbol) and nothing else and answers 200 whether or not it existed; without a symbol it is 400 with nothing sent |
| UserFavoritesProperties.AddThenList | backend/functions/userFavorites/index.ts:57-109 | an item added is in the next listing of the same user |
| UserFavoritesProperties.AddThenRemoveRestores | backend/functions/userFavorites/index.ts:81-139 | adding a new favourite and then removing it leaves the items as they were |
| UserFavorites.FavoritesLambda.GetUserFavorites | backend/functions/userFavorites/index.ts:57-76 | the answer and new state are those of ListResult, and items stay keyed |
| UserFavorites.FavoritesLambda.AddFavorite | backend/functions/userFavorites/index.ts:81-109 | the answer and new state are those of AddResult, and items stay keyed |
| UserFavorites.FavoritesLambda.RemoveFavorite | backend/functions/userFavorites/index.ts:114-139 | the answer and new state are those of RemoveResult, and items stay keyed |
| UserFavorites.FavoritesLambda.Handler | backend/functions/userFavorites/index.ts:10-34 | the answer and new state are those of Respond, and items stay keyed |
| Pkce.CharsetIsSourceString | frontend/src/utils/pkce.ts:6 | the charset is the 66-character string of generateCodeVerifier |
| Pkce.CharsetIsUnreservedSet | frontend/src/utils/pkce.ts:6 | the charset has 66 characters, each unreserved in the sense of RFC 7636, and contains every unreserved character |
| Pkce.GenerateCodeVerifier | frontend/src/utils/pkce.ts:5-14 | one character per random byte, character i being `charset[byte i mod 66]`, so every character is unreserved |
| Pkce.GenerateDefaultCodeVerifier | frontend/src/utils/pkce.ts:5-14 | with the default length, 64 random bytes give a 64-character verifier of unreserved characters |
| Pkce.ReplaceAll | frontend/src/utils/pkce.ts:26-27 | a global one-character replace keeps the length and swaps exactly the matching positions |
| Pkce.RemoveAll | frontend/src/utils/pkce.ts:28 | a global removal leaves no such character, shortens by its count and keeps every other character |
| Pkce.ReplaceKeepsCount | frontend/src/utils/pkce.ts:26-27 | replacing '+' or '/' does not change how many '=' there are |
| Pkce.GenerateCodeChallenge | frontend/src/utils/pkce.ts:25-28 | the challenge has no '+', '/' or '=', and is the digest's length less its padding |
| Pkce.ChallengeIsOnePass | frontend/src/utils/pkce.ts:25-28 | the three replaces equal a one-pass rewrite: '=' dropped, '+' to '-', '/' to '_', order kept |
| Pkce.ChallengeIdempotent | frontend/src/utils/pkce.ts:25-28 | rewriting a challenge again changes nothing |
| Pkce.ChallengeIsBase64Url | frontend/src/utils/pkce.ts:25-28 | a base64 string becomes a string over the URL-safe base64 alphabet, every character unreserved |
| Pkce.DigestChallengeLength | frontend/src/utils/pkce.ts:17-31 | a 44-character digest with one pad gives a 43-character challenge |

## Left out

- The clock is a parameter `now`, read once per request. The source reads
  `new Date()` separately for the record, for each freshness test and for
  each favourite, so values a few milliseconds apart are not modelled.
- `lastUpdated` and `createdAt` are integer milliseconds, not ISO 8601
  strings. A stored `lastUpdated` that does not parse (NaN in the source,
  which is never fresh) cannot occur in the model.
- StockData.BuildFull: a Name, Industry, Description or
  MarketCapitalization member that is not a string is read as absent,
  giving the default. The source copies a truthy one into the record as it
  is. A non-string PERatio gives 0 in both.
- Provider bodies are strings and flat objects of strings. A `null` or
  array 'Global Quote' and nested values are not modelled.
- `parseFloat` and `JSON.parse` are oracles in `Env`. Their grammars are not
  modelled, and `parseFloat` returning NaN is `None`.
- Common.ToUpper raises ASCII letters only. JavaScript's full Unicode case
  mapping is not modelled.
- The favourites query answers a set. DynamoDB's order by sort key and its
  1 MB pagination are not modelled.
- `formatResponse` headers (content type, CORS) and JSON serialisation of
  the body are not modelled. A response is a status and a body value.
- Console logging is not modelled.
- SHA-256 and the base64 encoding of the digest are outside the model. The
  challenge functions take the base64 digest as input.
- `window.crypto.getRandomValues` is outside the model. The verifier methods
  take the random bytes as input, so the browser's 65536-byte limit is not
  modelled.
- Concurrent Lambda invocations and interleaved table access are not
  modelled. Each request runs alone against the table.
- Both handlers' outer catch (500 'Internal server error') is unreachable in
  the model. Every inner step catches its own failures, and isCacheFresh
  and the symbol read cannot throw on modelled inputs.
- StockData.Respond: an unknown symbol and an unreachable provider both give
  404, as in the code. The model does not tell them apart either.
- StockData.PopularList: a symbol whose quote fails leaves no entry and no
  per-symbol error slot, and the five symbols are visited one after
  another. The model does the same.
- StockData.Record holds only the two record shapes the Lambda writes (full
  and quote-only). Items written into the table by other means, such as a
  seeding script with a different set of fields, cannot be represented; the
  handler would serve them as stored.
- The Cognito authoriser, API Gateway routing, the CDK stacks and the rest of
  the web client are not part of this model.
