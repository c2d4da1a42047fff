/**
 * What the favourites Lambda promises, proved of the spec functions in
 * UserFavorites (and so, through their contracts, of the FavoritesLambda methods).
 */
module UserFavoritesProperties {
  import opened Common
  import opened UserFavorites

  /** The caller is authorised as `userId` and asks with `verb`. */
  predicate AuthorisedAs(req: Request, userId: string, verb: string) {
    UserIdFromToken(req.claims) == Some(userId) && req.httpMethod == verb
  }

  /** Without a non-empty `sub` claim the answer is 401 and the table is not touched. */
  lemma UnauthorizedNeverTouchesTable(env: Env, t: Table, req: Request, now: int)
    requires UserIdFromToken(req.claims).None?
    ensures Respond(env, t, req, now) == (Response(401, Message("Unauthorized")), t)
  {
  }

  /** A method other than GET, POST or DELETE is 405 and the table is not touched. */
  lemma OtherMethodsAre405(env: Env, t: Table, req: Request, now: int)
    requires UserIdFromToken(req.claims).Some?
    requires req.httpMethod != "GET" && req.httpMethod != "POST" && req.httpMethod != "DELETE"
    ensures Respond(env, t, req, now) == (Response(405, Message("Method not allowed")), t)
  {
  }

  /** Without a configured table, GET, POST and DELETE are all 500 and nothing is sent to a table. */
  lemma MissingTableIs500(env: Env, t: Table, req: Request, now: int)
    requires !env.tableConfigured
    requires UserIdFromToken(req.claims).Some?
    requires req.httpMethod == "GET" || req.httpMethod == "POST" || req.httpMethod == "DELETE"
    ensures Respond(env, t, req, now) == (Response(500, Message("Table configuration missing")), t)
  {
  }

  /** GET answers exactly the caller's items; a failing query is 500. The items never change. */
  lemma ListIsExactlyTheCallersItems(env: Env, t: Table, req: Request, userId: string, now: int)
    requires env.tableConfigured && AuthorisedAs(req, userId, "GET")
    requires Keyed(t.items)
    ensures var (resp, t') := Respond(env, t, req, now);
            && t' == Table(t.items, t.log + [Query(userId)])
            && (env.fails(Query(userId)) ==> resp == Response(500, Message("Error fetching favorites")))
            && (!env.fails(Query(userId)) ==>
                  && resp.status == 200 && resp.body.Favorites?
                  && forall f :: f in resp.body.items <==>
                       f.userId == userId && Key(userId, f.symbol) in t.items && t.items[Key(userId, f.symbol)] == f)
  {
  }

  /**
   * A body that is not JSON is 500; a body without a truthy `symbol` is 400;
   * a truthy `symbol` that is not a string makes upper-casing throw, which is
   * 500. None of them writes.
   */
  lemma AddRejectsBadBodies(env: Env, t: Table, req: Request, userId: string, now: int)
    requires env.tableConfigured && AuthorisedAs(req, userId, "POST")
    ensures ParseBody(env, req.body).None? ==>
              Respond(env, t, req, now) == (Response(500, Message("Error adding favorite")), t)
    ensures ParseBody(env, req.body).Some? && !Truthy(Lookup(ParseBody(env, req.body).value, "symbol")) ==>
              Respond(env, t, req, now) == (Response(400, Message("Symbol is required")), t)
    ensures ParseBody(env, req.body).Some? && Lookup(ParseBody(env, req.body).value, "symbol") == Some(NonText(true)) ==>
              Respond(env, t, req, now) == (Response(500, Message("Error adding favorite")), t)
  {
  }

  /**
   * POST with a non-empty string `symbol` stores the item under
   * (userId, SYMBOL), replacing whatever was there, with `companyName`
   * defaulting to "", and answers 201; a failing put is 500 and stores nothing.
   */
  lemma AddStoresUpperCasedKey(env: Env, t: Table, req: Request, userId: string, now: int, symbol: string)
    requires env.tableConfigured && AuthorisedAs(req, userId, "POST")
    requires ParseBody(env, req.body).Some?
    requires Lookup(ParseBody(env, req.body).value, "symbol") == Some(Text(symbol)) && symbol != ""
    ensures var fields := ParseBody(env, req.body).value;
            var key := Key(userId, ToUpper(symbol));
            var name := if Truthy(Lookup(fields, "companyName")) then fields["companyName"] else Text("");
            var (resp, t') := Respond(env, t, req, now);
            && t'.log == t.log + [Put(key)]
            && (!env.fails(Put(key)) ==>
                  resp.status == 201 && t'.items == t.items[key := Favorite(userId, ToUpper(symbol), name, now)])
            && (env.fails(Put(key)) ==> resp.status == 500 && t'.items == t.items)
  {
  }

  /**
   * DELETE with a non-empty path symbol removes (userId, SYMBOL) and nothing
   * else, and answers 200 whether or not the item existed; without a path
   * symbol it is 400 and nothing is sent to the table.
   */
  lemma RemoveDeletesOnlyThatKey(env: Env, t: Table, req: Request, userId: string, now: int)
    requires env.tableConfigured && AuthorisedAs(req, userId, "DELETE")
    ensures req.pathSymbol.None? || req.pathSymbol.value == "" ==>
              Respond(env, t, req, now) == (Response(400, Message("Symbol is required")), t)
    ensures req.pathSymbol.Some? && req.pathSymbol.value != "" ==>
              var key := Key(userId, ToUpper(req.pathSymbol.value));
              var (resp, t') := Respond(env, t, req, now);
              && t'.log == t.log + [Delete(key)]
              && (!env.fails(Delete(key)) ==>
                    && resp == Response(200, Message("Favorite removed successfully"))
                    && key !in t'.items
                    && forall k :: k != key ==> Lookup(t'.items, k) == Lookup(t.items, k))
              && (env.fails(Delete(key)) ==> resp.status == 500 && t'.items == t.items)
  {
  }

  /** An item added is listed by the next successful GET of the same user. */
  lemma AddThenList(env: Env, t: Table, add: Request, list: Request, userId: string, now: int, symbol: string)
    requires env.tableConfigured && AuthorisedAs(add, userId, "POST") && AuthorisedAs(list, userId, "GET")
    requires Keyed(t.items)
    requires ParseBody(env, add.body).Some?
    requires Lookup(ParseBody(env, add.body).value, "symbol") == Some(Text(symbol)) && symbol != ""
    requires !env.fails(Put(Key(userId, ToUpper(symbol)))) && !env.fails(Query(userId))
    ensures var t1 := Respond(env, t, add, now).1;
            var (resp, _) := Respond(env, t1, list, now);
            resp.status == 200 && resp.body.Favorites?
            && exists f :: f in resp.body.items && f.symbol == ToUpper(symbol) && f.createdAt == now
  {
    AddStoresUpperCasedKey(env, t, add, userId, now, symbol);
    var t1 := Respond(env, t, add, now).1;
    var key := Key(userId, ToUpper(symbol));
    assert key in t1.items && t1.items[key].symbol == ToUpper(symbol) && t1.items[key].createdAt == now;
    assert t1.items[key] in FavoritesOf(t1.items, userId);
  }

  /** Adding a new favourite and then removing it leaves the items as they were. */
  lemma AddThenRemoveRestores(env: Env, t: Table, add: Request, remove: Request, userId: string, now: int, symbol: string)
    requires env.tableConfigured && AuthorisedAs(add, userId, "POST") && AuthorisedAs(remove, userId, "DELETE")
    requires ParseBody(env, add.body).Some?
    requires Lookup(ParseBody(env, add.body).value, "symbol") == Some(Text(symbol)) && symbol != ""
    requires remove.pathSymbol == Some(symbol)
    requires Key(userId, ToUpper(symbol)) !in t.items
    requires !env.fails(Put(Key(userId, ToUpper(symbol)))) && !env.fails(Delete(Key(userId, ToUpper(symbol))))
    ensures Respond(env, Respond(env, t, add, now).1, remove, now).1.items == t.items
  {
    AddStoresUpperCasedKey(env, t, add, userId, now, symbol);
    var key := Key(userId, ToUpper(symbol));
    var t1 := Respond(env, t, add, now).1;
    assert t1.items - {key} == t.items;
  }
}
