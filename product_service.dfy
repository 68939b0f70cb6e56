/** The product service script: the CORS preflight short-circuit, the
    database connection check, dispatch on PATH_INFO and method, and the
    role-gated create, update and delete of rows in the products table.
    The table is state; whether the database is reachable, and whether the
    first query of the request raises a PDOException, are inputs. */
module ProductService {
  import opened Php
  import opened Json
  import opened Http
  import opened Ordering

  const CollectionPath := "/products"
  /** The text before `(\d+)` in `/\/products\/(\d+)/`. */
  const ItemPattern := "/products/"

  const UnavailableMessage := "Database service is temporarily unavailable. Please try again later."
  const NotFoundMessage := "Product not found"
  const CreateForbiddenMessage := "Forbidden: Admin access required to create products."
  const UpdateForbiddenMessage := "Forbidden: Admin access required to update products."
  const DeleteForbiddenMessage := "Forbidden: Admin access required to delete products."
  const InvalidJsonMessage := "Invalid JSON payload"
  const CreateFieldsMessage := "Missing required fields: name, price, stock_quantity."
  const UpdateFieldsMessage := "Missing required fields for update: name, price, stock_quantity."
  const UpdateNotFoundMessage := "Product not found for update."
  const CreatedMessage := "Product created successfully."
  const UpdatedMessage := "Product updated successfully."
  const UnchangedMessage := "Product data was not changed or update failed silently."
  const DeletedMessage := "Product deleted successfully."
  const DeleteNotFoundMessage := "Product not found or already deleted."
  const NoEndpointMessage := "Endpoint not found."
  const QueryFailedMessage := "An internal error occurred processing your request."

  /** A row of the products table (created_at is not modelled). */
  datatype Product = Product(name: Value, description: Value, price: Value, stockQuantity: Value)

  /** The products table and its auto-increment counter. */
  datatype Table = Table(rows: map<int, Product>, nextId: nat)

  /** Ids are positive and below the auto-increment counter. */
  predicate WellFormed(t: Table) {
    t.nextId >= 1 && forall id :: id in t.rows ==> 1 <= id < t.nextId
  }

  /** REQUEST_METHOD, PATH_INFO (absent for a request on the script itself),
      the X-User-Role header and the decoded body. */
  datatype Request = Request(verb: string, pathInfo: Option<string>, roleHeader: Option<string>, body: Doc)

  /** Whether the PDO connection succeeds, and whether the first query the
      request runs raises a PDOException. */
  datatype Db = Db(connected: bool, fault: bool)

  // ---------------------------------------------------------------- dispatch

  datatype Endpoint = List | Show(id: nat) | Create | Update(id: nat) | Delete(id: nat) | NoEndpoint

  /** `$_SERVER['PATH_INFO'] ?? '/'`: a request on the script itself, with
      no path after it, reaches no endpoint. */
  function PathOf(req: Request): (path: string)
    ensures req.pathInfo.Some? ==> path == req.pathInfo.value
    ensures req.pathInfo.None? ==> Dispatch(req.verb, path) == NoEndpoint
  {
    req.pathInfo.GetOr("/")
  }

  /** The if/elseif chain: the exact path `/products` for the collection,
      the unanchored `/products/<digits>` for one row. */
  function Dispatch(verb: string, path: string): (e: Endpoint)
    ensures e == List <==> verb == "GET" && path == CollectionPath
    ensures e == Create <==> verb == "POST" && path == CollectionPath
    ensures e.Show? <==> verb == "GET" && path != CollectionPath && MatchNumber(path, ItemPattern).Some?
    ensures e.Update? <==> verb == "PUT" && MatchNumber(path, ItemPattern).Some?
    ensures e.Delete? <==> verb == "DELETE" && MatchNumber(path, ItemPattern).Some?
    ensures e.Show? || e.Update? || e.Delete? ==> MatchNumber(path, ItemPattern) == Some(e.id)
  {
    var m := MatchNumber(path, ItemPattern);
    if path == CollectionPath && verb == "GET" then List
    else if m.Some? && verb == "GET" then Show(m.value)
    else if path == CollectionPath && verb == "POST" then Create
    else if m.Some? && verb == "PUT" then Update(m.value)
    else if m.Some? && verb == "DELETE" then Delete(m.value)
    else NoEndpoint
  }

  /** `empty($data['name']) || !isset($data['price']) || !isset($data['stock_quantity'])`, negated. */
  function HasRequiredFields(body: Doc): (b: bool)
    ensures b ==> body.Decoded? && IsSet(body, "name") && IsSet(body, "price") && IsSet(body, "stock_quantity")
  {
    !Empty(Get(body, "name")) && IsSet(body, "price") && IsSet(body, "stock_quantity")
  }

  /** The row a create or update writes; a missing description is null. */
  function ProductFrom(body: Doc): (p: Product)
    ensures p.description == Get(body, "description")
    ensures HasRequiredFields(body) ==> p.name != Null && p.price != Null && p.stockQuantity != Null
  {
    Product(Get(body, "name"), GetOr(body, "description", Null), Get(body, "price"), Get(body, "stock_quantity"))
  }

  // --------------------------------------------------------------- responses

  /** A row as the SELECTs return it. */
  function ProductRow(id: int, p: Product): map<string, Value> {
    map["id" := Int(id), "name" := p.name, "description" := p.description,
        "price" := p.price, "stock_quantity" := p.stockQuantity]
  }

  /** `SELECT ... ORDER BY id DESC`: every row is a product's, ids strictly
      descend, and on a well-formed table every product has a row. */
  function Listing(t: Table): (rows: seq<map<string, Value>>)
    ensures forall i :: 0 <= i < |rows| ==>
      && "id" in rows[i] && rows[i]["id"].Int? && rows[i]["id"].i in t.rows
      && rows[i] == ProductRow(rows[i]["id"].i, t.rows[rows[i]["id"].i])
    ensures forall i, j :: 0 <= i < j < |rows| ==>
      "id" in rows[i] && "id" in rows[j] && rows[i]["id"].Int? && rows[j]["id"].Int? && rows[i]["id"].i > rows[j]["id"].i
    ensures WellFormed(t) ==> forall id :: id in t.rows ==> ProductRow(id, t.rows[id]) in rows
  {
    var ids := OrderBy(t.rows.Keys, t.nextId - 1, true);
    var rows := seq(|ids|, i requires 0 <= i < |ids| => ProductRow(ids[i], t.rows[ids[i]]));
    RowsCoverProducts(t, ids, rows);
    rows
  }

  /** Rows taken under every id of a well-formed table cover every product. */
  lemma RowsCoverProducts(t: Table, ids: seq<int>, rows: seq<map<string, Value>>)
    requires forall k :: k in ids <==> k in t.rows && 1 <= k <= t.nextId - 1
    requires |rows| == |ids| && forall i :: 0 <= i < |ids| ==> ids[i] in t.rows && rows[i] == ProductRow(ids[i], t.rows[ids[i]])
    ensures WellFormed(t) ==> forall id :: id in t.rows ==> ProductRow(id, t.rows[id]) in rows
  {
    forall id | id in t.rows && WellFormed(t)
      ensures ProductRow(id, t.rows[id]) in rows
    {
      assert id in ids;
      var k :| 0 <= k < |ids| && ids[k] == id;
      assert rows[k] == ProductRow(id, t.rows[id]);
    }
  }

  /** The 201 body echoes the new id, the name and the price, but not the
      description or the stock quantity. */
  function CreatedResponse(id: int, p: Product): (r: Response)
    ensures r.status == 201 && r.body.Object? && r.body.fields.Keys == {"message", "id", "name", "price"}
    ensures r.body.Object? && "id" in r.body.fields && r.body.fields["id"] == Int(id)
    ensures r.body.Object? && "name" in r.body.fields && r.body.fields["name"] == p.name
  {
    Response(201, Object(map["message" := Str(CreatedMessage), "id" := Int(id), "name" := p.name, "price" := p.price]))
  }

  /** 200 in both cases, with the id; the message tells whether
      `rowCount()` was positive. */
  function UpdatedResponse(id: int, changed: bool): (r: Response)
    ensures r.status == 200 && r.body.Object? && r.body.fields.Keys == {"message", "id"}
    ensures r.body.Object? && "id" in r.body.fields && r.body.fields["id"] == Int(id)
    ensures r.body.Object? && "message" in r.body.fields && (r.body.fields["message"] == Str(UpdatedMessage) <==> changed)
  {
    Response(200, Object(map["message" := Str(if changed then UpdatedMessage else UnchangedMessage), "id" := Int(id)]))
  }

  /** 200 when `rowCount()` was positive, 404 otherwise. */
  function DeletedResponse(deleted: bool): (r: Response)
    ensures r.status == 200 <==> deleted
    ensures !deleted ==> r == Error(404, DeleteNotFoundMessage)
    ensures deleted ==> r.body == Object(map["message" := Str(DeletedMessage)])
  {
    if deleted then Response(200, Object(map["message" := Str(DeletedMessage)]))
    else Error(404, DeleteNotFoundMessage)
  }

  // ------------------------------------------------------------------ serving

  /** The response to one request and the state after it. */
  type Outcome = (Response, Table)

  /** What a request leads to: a reply with nothing written, or one write. */
  datatype Plan = Reply(resp: Response) | Insert(p: Product) | Replace(id: int, p: Product) | Remove(id: int)

  /** The decision chain of the script, in its order of checks: OPTIONS,
      connection, then per endpoint role, JSON, existence, fields. A query
      that raises is caught at the end of the script and answers 500. */
  function Decide(t: Table, req: Request, db: Db): (p: Plan)
    ensures req.verb == "OPTIONS" ==> p == Reply(Response(204, NoBody))
    ensures req.verb != "OPTIONS" && !db.connected ==> p == Reply(Error(503, UnavailableMessage))
    ensures !p.Reply? ==> req.verb != "OPTIONS" && db.connected && !db.fault && IsAdmin(req.roleHeader)
    ensures p.Insert? ==> Dispatch(req.verb, PathOf(req)) == Create && HasRequiredFields(req.body) && p.p == ProductFrom(req.body)
    ensures p.Replace? ==>
      && Dispatch(req.verb, PathOf(req)).Update? && Dispatch(req.verb, PathOf(req)).id == p.id
      && p.id in t.rows && HasRequiredFields(req.body) && p.p == ProductFrom(req.body)
    ensures p.Remove? ==> Dispatch(req.verb, PathOf(req)).Delete? && Dispatch(req.verb, PathOf(req)).id == p.id
  {
    if req.verb == "OPTIONS" then Reply(Response(204, NoBody))
    else if !db.connected then Reply(Error(503, UnavailableMessage))
    else
      var queryFailed := Reply(Error(500, QueryFailedMessage));
      match Dispatch(req.verb, PathOf(req))
      case List =>
        if db.fault then queryFailed else Reply(Response(200, Objects(Listing(t))))
      case Show(id) =>
        if db.fault then queryFailed
        else if id in t.rows then Reply(Response(200, Object(ProductRow(id, t.rows[id]))))
        else Reply(Error(404, NotFoundMessage))
      case Create =>
        if !IsAdmin(req.roleHeader) then Reply(Error(403, CreateForbiddenMessage))
        else if req.body.Malformed? then Reply(Error(400, InvalidJsonMessage))
        else if !HasRequiredFields(req.body) then Reply(Error(400, CreateFieldsMessage))
        else if db.fault then queryFailed
        else Insert(ProductFrom(req.body))
      case Update(id) =>
        if !IsAdmin(req.roleHeader) then Reply(Error(403, UpdateForbiddenMessage))
        else if req.body.Malformed? then Reply(Error(400, InvalidJsonMessage))
        else if db.fault then queryFailed
        else if id !in t.rows then Reply(Error(404, UpdateNotFoundMessage))
        else if !HasRequiredFields(req.body) then Reply(Error(400, UpdateFieldsMessage))
        else Replace(id, ProductFrom(req.body))
      case Delete(id) =>
        if !IsAdmin(req.roleHeader) then Reply(Error(403, DeleteForbiddenMessage))
        else if db.fault then queryFailed
        else Remove(id)
      case NoEndpoint => Reply(Error(404, NoEndpointMessage))
  }

  /** The effect of a plan on the table. An UPDATE counts a row only when a
      column changes (MySQL's affected rows); a DELETE counts the row removed. */
  function Apply(t: Table, plan: Plan): (r: Outcome)
    ensures plan.Reply? ==> r == (plan.resp, t)
    ensures WellFormed(t) ==> WellFormed(r.1) && r.1.nextId >= t.nextId
    ensures plan.Insert? && WellFormed(t) ==> t.nextId !in t.rows && r.1.rows == t.rows[t.nextId := plan.p]
    ensures plan.Remove? ==> r.1.rows == t.rows - {plan.id} && (r.0.status == 200 <==> plan.id in t.rows)
  {
    match plan
    case Reply(resp) => (resp, t)
    case Insert(p) =>
      (CreatedResponse(t.nextId, p), Table(t.rows[t.nextId := p], t.nextId + 1))
    case Replace(id, p) =>
      var changed := id in t.rows && t.rows[id] != p;
      (UpdatedResponse(id, changed), if id in t.rows then t.(rows := t.rows[id := p]) else t)
    case Remove(id) =>
      (DeletedResponse(id in t.rows), t.(rows := t.rows - {id}))
  }

  /** One request: its response and the new table. */
  function Serve(t: Table, req: Request, db: Db): (r: Outcome)
    ensures r.1 != t ==> IsAdmin(req.roleHeader) && db.connected && !db.fault
  {
    Apply(t, Decide(t, req, db))
  }

  // ------------------------------------------------------------------ lemmas

  /** A CORS preflight answers 204 before the database is even opened. */
  lemma OptionsShortCircuit(t: Table, req: Request, db: Db)
    requires req.verb == "OPTIONS"
    ensures Serve(t, req, db) == (Response(204, NoBody), t)
  {
  }

  /** Without a database connection every other request answers 503,
      before routing and before the role is looked at. */
  lemma UnavailableBeforeRouting(t: Table, req: Request, db: Db)
    requires req.verb != "OPTIONS" && !db.connected
    ensures Serve(t, req, db) == (Error(503, UnavailableMessage), t)
  {
  }

  /** A caller whose role is not "admin" never changes the table, whatever
      it sends; on a reachable database its create, update and delete
      requests answer 403, even when the query would have failed. */
  lemma NonAdminNeverWrites(t: Table, req: Request, db: Db)
    requires !IsAdmin(req.roleHeader)
    ensures Serve(t, req, db).1 == t
    ensures req.verb != "OPTIONS" && db.connected ==>
      var e := Dispatch(req.verb, PathOf(req));
      && (e == Create ==> Serve(t, req, db).0 == Error(403, CreateForbiddenMessage))
      && (e.Update? ==> Serve(t, req, db).0 == Error(403, UpdateForbiddenMessage))
      && (e.Delete? ==> Serve(t, req, db).0 == Error(403, DeleteForbiddenMessage))
  {
  }

  /** GET requests, by anyone, never change the table. */
  lemma ReadsNeverWrite(t: Table, req: Request, db: Db)
    requires req.verb == "GET"
    ensures Serve(t, req, db).1 == t
  {
  }

  /** The one row a request may write: the next id for a create, the id in
      the path for an update or delete, none (0, never a row id) otherwise. */
  function Touched(t: Table, req: Request): int {
    match Dispatch(req.verb, PathOf(req))
    case Create => t.nextId
    case Update(id) => id
    case Delete(id) => id
    case _ => 0
  }

  /** Every request keeps ids positive and below the counter, and leaves
      every row other than the one it names exactly as it was. */
  lemma ServeFrame(t: Table, req: Request, db: Db)
    requires WellFormed(t)
    ensures var t' := Serve(t, req, db).1;
      && WellFormed(t')
      && t'.nextId >= t.nextId
      && (forall id :: id != Touched(t, req) ==> (id in t'.rows <==> id in t.rows))
      && (forall id :: id != Touched(t, req) && id in t.rows ==> t'.rows[id] == t.rows[id])
  {
  }

  /** An admin's valid create adds exactly one row under a fresh id and
      answers 201 with that id, the name and the price. */
  lemma CreateAddsOneRow(t: Table, req: Request, db: Db)
    requires WellFormed(t) && db.connected && !db.fault
    requires Dispatch(req.verb, PathOf(req)) == Create && IsAdmin(req.roleHeader)
    requires req.body.Decoded? && HasRequiredFields(req.body)
    ensures var (resp, t') := Serve(t, req, db);
      && t.nextId !in t.rows
      && t'.rows == t.rows[t.nextId := ProductFrom(req.body)]
      && |t'.rows| == |t.rows| + 1
      && resp.status == 201
      && resp.body == Object(map["message" := Str(CreatedMessage), "id" := Int(t.nextId),
                                 "name" := Get(req.body, "name"), "price" := Get(req.body, "price")])
  {
    assert t.nextId !in t.rows;
  }

  /** An admin's create with a malformed body or a missing field answers
      400 and adds nothing. */
  lemma CreateRejected(t: Table, req: Request, db: Db)
    requires db.connected && Dispatch(req.verb, PathOf(req)) == Create && IsAdmin(req.roleHeader)
    ensures req.body.Malformed? ==> Serve(t, req, db) == (Error(400, InvalidJsonMessage), t)
    ensures req.body.Decoded? && !HasRequiredFields(req.body) ==> Serve(t, req, db) == (Error(400, CreateFieldsMessage), t)
  {
  }

  /** The checks of an update run in the order role, JSON, existence,
      fields: each later check is only reached when the earlier ones pass.
      A successful update replaces that row only and answers 200, saying
      whether a column changed. */
  lemma UpdateCheckOrder(t: Table, req: Request, db: Db, id: nat)
    requires db.connected && !db.fault && req.verb == "PUT"
    requires Dispatch(req.verb, PathOf(req)) == Update(id) && IsAdmin(req.roleHeader)
    ensures req.body.Malformed? ==> Serve(t, req, db) == (Error(400, InvalidJsonMessage), t)
    ensures req.body.Decoded? && id !in t.rows ==> Serve(t, req, db) == (Error(404, UpdateNotFoundMessage), t)
    ensures req.body.Decoded? && id in t.rows && !HasRequiredFields(req.body) ==>
      Serve(t, req, db) == (Error(400, UpdateFieldsMessage), t)
    ensures req.body.Decoded? && id in t.rows && HasRequiredFields(req.body) ==>
      var p := ProductFrom(req.body);
      Serve(t, req, db) == (UpdatedResponse(id, t.rows[id] != p), t.(rows := t.rows[id := p]))
  {
  }

  /** An admin's delete answers 200 and removes exactly that row when it
      exists, and 404 otherwise; so deleting the same id twice answers 200
      and then 404, and the second request changes nothing. */
  lemma DeleteTwice(t: Table, req: Request, db: Db, id: nat)
    requires db.connected && !db.fault
    requires Dispatch(req.verb, PathOf(req)) == Delete(id) && IsAdmin(req.roleHeader)
    requires id in t.rows
    ensures var (first, t1) := Serve(t, req, db);
      var (second, t2) := Serve(t1, req, db);
      && first == Response(200, Object(map["message" := Str(DeletedMessage)]))
      && t1.rows == t.rows - {id}
      && second == Error(404, DeleteNotFoundMessage)
      && t2 == t1
  {
  }

  /** The listing is open to every role and holds every row exactly once,
      newest (highest id) first. */
  lemma ListingDescending(t: Table, req: Request, db: Db)
    requires WellFormed(t) && db.connected && !db.fault
    requires Dispatch(req.verb, PathOf(req)) == List
    ensures var ids := OrderBy(t.rows.Keys, t.nextId - 1, true);
      && Serve(t, req, db) == (Response(200, Objects(Listing(t))), t)
      && (forall id :: id in ids <==> id in t.rows)
      && (forall i, j :: 0 <= i < j < |ids| ==> ids[i] > ids[j])
      && |Listing(t)| == |ids|
      && (forall i :: 0 <= i < |ids| ==> Listing(t)[i] == ProductRow(ids[i], t.rows[ids[i]]))
  {
    var ids := OrderBy(t.rows.Keys, t.nextId - 1, true);
    assert forall id :: id in t.rows ==> id in ids;
    ListingByIds(t);
  }

  /** The listing is the rows under the ordered ids, one for one. */
  lemma ListingByIds(t: Table)
    ensures var ids := OrderBy(t.rows.Keys, t.nextId - 1, true);
      && |Listing(t)| == |ids|
      && (forall i :: 0 <= i < |ids| ==> Listing(t)[i] == ProductRow(ids[i], t.rows[ids[i]]))
  {
  }

  /** Fetching one row answers 200 with it, or 404 when the id is absent. */
  lemma ShowRow(t: Table, req: Request, db: Db, id: nat)
    requires db.connected && !db.fault && Dispatch(req.verb, PathOf(req)) == Show(id)
    ensures id in t.rows ==> Serve(t, req, db) == (Response(200, Object(ProductRow(id, t.rows[id]))), t)
    ensures id !in t.rows ==> Serve(t, req, db) == (Error(404, NotFoundMessage), t)
  {
  }

  /** `/products/<id>` reaches the single-row endpoints with that id. */
  lemma ItemPathDispatch(verb: string, id: nat)
    ensures var e := Dispatch(verb, ItemPattern + NatToString(id));
      && (verb == "GET" ==> e == Show(id))
      && (verb == "PUT" ==> e == Update(id))
      && (verb == "DELETE" ==> e == Delete(id))
  {
    PatternThenId(ItemPattern, id);
  }

  /** A row created by an admin is what a later GET on `/products/<id>`
      returns, for any caller. */
  lemma {:induction false} CreatedRowVisible(t: Table, create: Request, db: Db, role: Option<string>)
    requires WellFormed(t) && db.connected && !db.fault
    requires Dispatch(create.verb, PathOf(create)) == Create && IsAdmin(create.roleHeader)
    requires create.body.Decoded? && HasRequiredFields(create.body)
    ensures var t' := Serve(t, create, db).1;
      var get := Request("GET", Some(ItemPattern + NatToString(t.nextId)), role, Malformed);
      Serve(t', get, db) == (Response(200, Object(ProductRow(t.nextId, ProductFrom(create.body)))), t')
  {
    ItemPathDispatch("GET", t.nextId);
  }

  /** Any method or path outside the five endpoints answers 404, whatever
      the role and the body. */
  lemma UnknownEndpoint(t: Table, req: Request, db: Db)
    requires req.verb != "OPTIONS" && db.connected && Dispatch(req.verb, PathOf(req)) == NoEndpoint
    ensures Serve(t, req, db) == (Error(404, NoEndpointMessage), t)
  {
  }

  // -------------------------------------------------------------------- store

  /** The products table as a stateful object; the three writes are the
      INSERT, UPDATE and DELETE statements, each reporting its row count. */
  class Store {
    var rows: map<int, Product>
    var nextId: nat

    ghost predicate Valid()
      reads this
    {
      WellFormed(Table(rows, nextId))
    }

    function Snapshot(): Table
      reads this
    {
      Table(rows, nextId)
    }

    constructor ()
      ensures Valid() && rows == map[] && nextId == 1
    {
      rows := map[];
      nextId := 1;
    }

    /** INSERT: the row goes under the auto-increment id, which is returned. */
    method Insert(p: Product) returns (id: nat)
      requires Valid()
      modifies this
      ensures Valid()
      ensures id == old(nextId) && id !in old(rows)
      ensures rows == old(rows)[id := p] && nextId == old(nextId) + 1
    {
      id := nextId;
      rows := rows[id := p];
      nextId := nextId + 1;
    }

    /** UPDATE ... WHERE id = ?: `changed` is `rowCount() > 0`, true only
        when the row exists and some column takes a new value. */
    method Update(id: int, p: Product) returns (changed: bool)
      requires Valid()
      modifies this
      ensures Valid()
      ensures changed <==> id in old(rows) && old(rows)[id] != p
      ensures rows == (if id in old(rows) then old(rows)[id := p] else old(rows))
      ensures nextId == old(nextId)
    {
      changed := id in rows && rows[id] != p;
      if id in rows {
        rows := rows[id := p];
      }
    }

    /** DELETE ... WHERE id = ?: `deleted` is `rowCount() > 0`. */
    method Delete(id: int) returns (deleted: bool)
      requires Valid()
      modifies this
      ensures Valid()
      ensures deleted <==> id in old(rows)
      ensures rows == old(rows) - {id} && nextId == old(nextId)
    {
      deleted := id in rows;
      rows := rows - {id};
    }

    /** One run of the script against this table. */
    method Handle(req: Request, db: Db) returns (resp: Response)
      requires Valid()
      modifies this
      ensures Valid()
      ensures (resp, Snapshot()) == Serve(old(Snapshot()), req, db)
    {
      var plan := Decide(Snapshot(), req, db);
      match plan
      case Reply(r) =>
        resp := r;
      case Insert(p) =>
        var id := Insert(p);
        resp := CreatedResponse(id, p);
      case Replace(id, p) =>
        var changed := Update(id, p);
        resp := UpdatedResponse(id, changed);
      case Remove(id) =>
        var deleted := Delete(id);
        resp := DeletedResponse(deleted);
    }
  }
}
