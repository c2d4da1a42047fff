/**
 * The favourites Lambda: each signed-in user's favourite stocks, kept in a
 * DynamoDB table whose key is (userId, symbol), behind a Cognito authoriser.
 *
 * As for the stock-data Lambda, the table is a `Table` value (its items and
 * the log of the operations sent to it), everything outside the Lambda is an
 * oracle in `Env`, and the spec functions below say what each handler does
 * to the table; the class `FavoritesLambda` performs the same steps
 * imperatively and is proved to agree with them.
 */
module UserFavorites {
  import opened Common

  /** A member of a JSON request body: a string, or any other JSON value, known by its truthiness. */
  datatype BodyValue = Text(s: string) | NonText(truthy: bool)

  /** The table's key: the user's `sub` claim and the upper-cased symbol. */
  datatype Key = Key(userId: string, symbol: string)

  /** A stored item; `companyName` is stored as the request gave it, `createdAt` in milliseconds. */
  datatype Favorite = Favorite(userId: string, symbol: string, companyName: BodyValue, createdAt: int)

  /** One operation sent to the table. */
  datatype TableOp = Query(userId: string) | Put(key: Key) | Delete(key: Key)

  datatype Table = Table(items: map<Key, Favorite>, log: seq<TableOp>)

  /**
   * What lies outside the Lambda. `tableConfigured` is "USER_FAVORITES_TABLE
   * is set"; `parseJson` is `JSON.parse` of a non-empty body (`None` when it
   * throws or yields null, the empty map for a JSON value that is not an
   * object); `fails` says which table operations throw.
   */
  datatype Env = Env(
    tableConfigured: bool,
    parseJson: string -> Option<map<string, BodyValue>>,
    fails: TableOp -> bool)

  /** The parts of an API Gateway event the Lambda reads; `claims` is absent without an authoriser. */
  datatype Request = Request(httpMethod: string, claims: Option<map<string, string>>,
                             body: Option<string>, pathSymbol: Option<string>)

  datatype Body = Favorites(items: set<Favorite>) | Message(text: string)

  /** An API Gateway response: the status code and the value serialised as the body. */
  datatype Response = Response(status: int, body: Body)

  /** Every item is stored under its own user and symbol. */
  predicate Keyed(items: map<Key, Favorite>) {
    forall k :: k in items ==> items[k].userId == k.userId && items[k].symbol == k.symbol
  }

  /** JavaScript truthiness of a body member: absent, "" and falsy non-strings are false. */
  predicate Truthy(v: Option<BodyValue>) {
    v.Some? && (if v.value.Text? then v.value.s != "" else v.value.truthy)
  }

  /** getUserIdFromToken: the `sub` claim when it is present and non-empty. */
  function UserIdFromToken(claims: Option<map<string, string>>): (userId: Option<string>)
    ensures userId.Some? <==> claims.Some? && "sub" in claims.value && claims.value["sub"] != ""
    ensures userId.Some? ==> userId.value == claims.value["sub"]
  {
    if claims.Some? && "sub" in claims.value && claims.value["sub"] != "" then Some(claims.value["sub"]) else None
  }

  /** `JSON.parse(event.body || '{}')`. */
  function ParseBody(env: Env, body: Option<string>): (fields: Option<map<string, BodyValue>>)
    ensures body.None? || body.value == "" ==> fields == Some(map[])
    ensures body.Some? && body.value != "" ==> fields == env.parseJson(body.value)
  {
    if body.None? || body.value == "" then Some(map[]) else env.parseJson(body.value)
  }

  /** What the query `userId = :userId` returns: every item of that user. */
  function FavoritesOf(items: map<Key, Favorite>, userId: string): (r: set<Favorite>)
    ensures forall f :: f in r ==> f in items.Values
    ensures Keyed(items) ==>
              forall f :: f in r <==> f.userId == userId && Key(userId, f.symbol) in items && items[Key(userId, f.symbol)] == f
  {
    set k | k in items && k.userId == userId :: items[k]
  }

  const TableMissing: Response := Response(500, Message("Table configuration missing"))

  /** getUserFavorites. */
  function ListResult(env: Env, t: Table, userId: string): (r: (Response, Table))
    ensures r.1.items == t.items
  {
    if !env.tableConfigured then (TableMissing, t)
    else
      var t1 := Table(t.items, t.log + [Query(userId)]);
      if env.fails(Query(userId)) then (Response(500, Message("Error fetching favorites")), t1)
      else (Response(200, Favorites(FavoritesOf(t.items, userId))), t1)
  }

  /** addFavorite. */
  function AddResult(env: Env, t: Table, userId: string, body: Option<string>, now: int): (r: (Response, Table))
    ensures Keyed(t.items) ==> Keyed(r.1.items)
    ensures forall k: Key :: k.userId != userId ==> Lookup(r.1.items, k) == Lookup(t.items, k)
  {
    if !env.tableConfigured then (TableMissing, t)
    else match ParseBody(env, body)
      case None => (Response(500, Message("Error adding favorite")), t)
      case Some(fields) =>
        var symbol := Lookup(fields, "symbol");
        if !Truthy(symbol) then (Response(400, Message("Symbol is required")), t)
        else if symbol.value.NonText? then (Response(500, Message("Error adding favorite")), t)
        else
          var key := Key(userId, ToUpper(symbol.value.s));
          var name := if Truthy(Lookup(fields, "companyName")) then fields["companyName"] else Text("");
          var log := t.log + [Put(key)];
          if env.fails(Put(key)) then (Response(500, Message("Error adding favorite")), Table(t.items, log))
          else (Response(201, Message("Favorite added successfully")),
                Table(t.items[key := Favorite(userId, key.symbol, name, now)], log))
  }

  /** removeFavorite. */
  function RemoveResult(env: Env, t: Table, userId: string, pathSymbol: Option<string>): (r: (Response, Table))
    ensures Keyed(t.items) ==> Keyed(r.1.items)
    ensures forall k: Key :: k.userId != userId ==> Lookup(r.1.items, k) == Lookup(t.items, k)
  {
    if !env.tableConfigured then (TableMissing, t)
    else if pathSymbol.None? || pathSymbol.value == "" then (Response(400, Message("Symbol is required")), t)
    else
      var key := Key(userId, ToUpper(pathSymbol.value));
      var log := t.log + [Delete(key)];
      if env.fails(Delete(key)) then (Response(500, Message("Error removing favorite")), Table(t.items, log))
      else (Response(200, Message("Favorite removed successfully")), Table(t.items - {key}, log))
  }

  /** handler: authorise, then dispatch on the method. */
  function Respond(env: Env, t: Table, req: Request, now: int): (r: (Response, Table))
    ensures r.0.status in {200, 201, 400, 401, 405, 500}
    ensures r.0.status == 401 <==> UserIdFromToken(req.claims).None?
    ensures r.0.status == 405 <==> UserIdFromToken(req.claims).Some? && req.httpMethod !in {"GET", "POST", "DELETE"}
    ensures r.0.status in {401, 405} ==> r.1 == t
    ensures Keyed(t.items) ==> Keyed(r.1.items)
    ensures UserIdFromToken(req.claims).Some? ==>
              forall k: Key :: k.userId != UserIdFromToken(req.claims).value ==> Lookup(r.1.items, k) == Lookup(t.items, k)
  {
    match UserIdFromToken(req.claims)
    case None => (Response(401, Message("Unauthorized")), t)
    case Some(userId) =>
      if req.httpMethod == "GET" then ListResult(env, t, userId)
      else if req.httpMethod == "POST" then AddResult(env, t, userId, req.body, now)
      else if req.httpMethod == "DELETE" then RemoveResult(env, t, userId, req.pathSymbol)
      else (Response(405, Message("Method not allowed")), t)
  }

  // ---------------------------------------------------------------------
  // The Lambda, step by step

  class FavoritesLambda {
    var items: map<Key, Favorite>
    var log: seq<TableOp>

    ghost predicate Valid()
      reads this
    {
      Keyed(items)
    }

    function State(): Table
      reads this
    {
      Table(items, log)
    }

    constructor (initial: map<Key, Favorite>)
      requires Keyed(initial)
      ensures Valid() && items == initial && log == []
    {
      items := initial;
      log := [];
    }

    method GetUserFavorites(env: Env, userId: string) returns (resp: Response)
      requires Valid()
      modifies this
      ensures Valid()
      ensures (resp, State()) == ListResult(env, old(State()), userId)
    {
      if !env.tableConfigured {
        return TableMissing;
      }
      log := log + [Query(userId)];
      if env.fails(Query(userId)) {
        return Response(500, Message("Error fetching favorites"));
      }
      var found := set k | k in items && k.userId == userId :: items[k];
      resp := Response(200, Favorites(found));
    }

    method AddFavorite(env: Env, userId: string, body: Option<string>, now: int) returns (resp: Response)
      requires Valid()
      modifies this
      ensures Valid()
      ensures (resp, State()) == AddResult(env, old(State()), userId, body, now)
    {
      if !env.tableConfigured {
        return TableMissing;
      }
      var fields := ParseBody(env, body);
      if fields.None? {
        return Response(500, Message("Error adding favorite"));
      }
      var symbol := Lookup(fields.value, "symbol");
      if !Truthy(symbol) {
        return Response(400, Message("Symbol is required"));
      }
      if symbol.value.NonText? {
        return Response(500, Message("Error adding favorite"));
      }
      var key := Key(userId, ToUpper(symbol.value.s));
      var companyName := Lookup(fields.value, "companyName");
      var name := if Truthy(companyName) then companyName.value else Text("");
      log := log + [Put(key)];
      if env.fails(Put(key)) {
        return Response(500, Message("Error adding favorite"));
      }
      items := items[key := Favorite(userId, key.symbol, name, now)];
      resp := Response(201, Message("Favorite added successfully"));
    }

    method RemoveFavorite(env: Env, userId: string, pathSymbol: Option<string>) returns (resp: Response)
      requires Valid()
      modifies this
      ensures Valid()
      ensures (resp, State()) == RemoveResult(env, old(State()), userId, pathSymbol)
    {
      if !env.tableConfigured {
        return TableMissing;
      }
      if pathSymbol.None? || pathSymbol.value == "" {
        return Response(400, Message("Symbol is required"));
      }
      var key := Key(userId, ToUpper(pathSymbol.value));
      log := log + [Delete(key)];
      if env.fails(Delete(key)) {
        return Response(500, Message("Error removing favorite"));
      }
      items := items - {key};
      resp := Response(200, Message("Favorite removed successfully"));
    }

    method Handler(env: Env, req: Request, now: int) returns (resp: Response)
      requires Valid()
      modifies this
      ensures Valid()
      ensures (resp, State()) == Respond(env, old(State()), req, now)
    {
      var userId := UserIdFromToken(req.claims);
      if userId.None? {
        return Response(401, Message("Unauthorized"));
      }
      match req.httpMethod {
        case "GET" => resp := GetUserFavorites(env, userId.value);
        case "POST" => resp := AddFavorite(env, userId.value, req.body, now);
        case "DELETE" => resp := RemoveFavorite(env, userId.value, req.pathSymbol);
        case _ => resp := Response(405, Message("Method not allowed"));
      }
    }
  }
}
