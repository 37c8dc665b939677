/** The CRUD route handlers: each builds its statement from the request and
    hands it to the execution guard. Every handler reports the status, the
    body, and the engine call it made (none when the guard refused the
    route's table name). */
module Routes {
  import opened Strings
  import opened Values
  import opened Catalog
  import opened Translator
  import opened Guard

  /** The parts of an Express request the handlers read: `req.params.table`,
      `req.params.id`, `req.query` and the parsed JSON `req.body`, which
      the POST handler edits in place. */
  class Request {
    var table: string
    var id: string
    var query: Query
    var body: Body

    constructor (table: string, id: string, query: Query, body: Body)
      ensures this.table == table && this.id == id && this.query == query && this.body == body
    {
      this.table := table;
      this.id := id;
      this.query := query;
      this.body := body;
    }
  }

  // ---------------------------------------------------------------------------
  // Which statements the guard treats as reads

  /** The text starts with whitespace and then the given first word. */
  lemma KindOfText(ws: string, word: string, tail: string)
    requires forall i :: 0 <= i < |ws| ==> IsJsWhitespace(ws[i])
    requires word in ["SELECT", "INSERT", "UPDATE", "DELETE"]
    ensures IsSelect((ws + word) + tail) <==> word == "SELECT"
  {
    assert (ws + word) + tail == ws + word + tail;
    StatementKind(ws, word, tail);
  }

  lemma ListIsRead(table: string, q: Query, body: Body)
    ensures IsSelect(ListSql(table, q, body))
  {
    ListTextIsRead(table, WhereClause(body), OrderBy(q.order), LimitClause(q), OffsetClause(q));
  }

  lemma ListTextIsRead(table: string, w: string, o: string, l: string, f: string)
    ensures IsSelect(ListText(table, w, o, l, f))
  {
    var tail := " *\n    FROM " + table + "\n    " + w + "\n    " + o + " " + l + " " + f + "\n  ";
    assert ListText(table, w, o, l, f) == ("\n    " + "SELECT") + tail;
    KindOfText("\n    ", "SELECT", tail);
  }

  lemma GetOneIsRead(table: string)
    ensures IsSelect(GetOneSql(table))
  {
    var tail := " *\n    FROM " + table + "   \n    WHERE id = :id\n  ";
    assert GetOneSql(table) == ("\n    " + "SELECT") + tail;
    KindOfText("\n    ", "SELECT", tail);
  }

  lemma InsertIsWrite(table: string, keys: seq<string>)
    ensures !IsSelect(InsertSql(table, keys))
  {
    var cols, phs := Join(keys, ","), Join(Placeholders(keys), ",");
    var tail := " INTO " + table + " (" + cols + ")     \n    VALUES (" + phs + ")\n  ";
    assert InsertSql(table, keys) == ("\n    " + "INSERT") + tail;
    KindOfText("\n    ", "INSERT", tail);
  }

  lemma UpdateIsWrite(table: string, keys: seq<string>)
    ensures !IsSelect(UpdateSql(table, keys))
  {
    var sets := Join(Assignments(keys), ",");
    var tail := " " + table + " \n    SET " + sets + "\n    WHERE id = :id\n  ";
    assert UpdateSql(table, keys) == ("\n    " + "UPDATE") + tail;
    KindOfText("\n    ", "UPDATE", tail);
  }

  lemma DeleteIsWrite(table: string)
    ensures !IsSelect(DeleteSql(table))
  {
    var tail := " FROM " + table + " \n    WHERE id = :id\n  ";
    assert DeleteSql(table) == ("\n    " + "DELETE") + tail;
    KindOfText("\n    ", "DELETE", tail);
  }

  // ---------------------------------------------------------------------------
  // Handlers

  /** GET /api/:table (and POST /api/where/:table/ when that route is enabled). */
  method GetMany(c: Catalog, req: Request, engine: Engine)
    returns (status: int, body: Result, call: Option<Call>)
    ensures call.Some? <==> IsQueryable(c, req.table)
    ensures call.None? ==> status == 404 && body == ErrorObject("No such table or view.")
    ensures call.Some? ==> call.value == Call(ListSql(req.table, req.query, req.body), map[], All)
    ensures call.Some? ==> body == Shape(engine(call.value), false)
    ensures status == Status(body)
  {
    var sql := ListSql(req.table, req.query, req.body);
    ListIsRead(req.table, req.query, req.body);
    status, body, call := RunQuery(c, req.table, sql, map[], false, engine);
  }

  /** GET /api/:table/:id */
  method GetOne(c: Catalog, req: Request, engine: Engine)
    returns (status: int, body: Result, call: Option<Call>)
    ensures call.Some? <==> IsQueryable(c, req.table)
    ensures call.None? ==> status == 404 && body == ErrorObject("No such table or view.")
    ensures call.Some? ==> call.value == Call(GetOneSql(req.table), IdParams(req.id), All)
    ensures call.Some? && engine(call.value) == Rows([]) ==>
              status == 404 && body == ErrorObject("No such post")
    ensures call.Some? && engine(call.value).Rows? && engine(call.value).rows != [] ==>
              body == RowObject(engine(call.value).rows[0])
    ensures call.Some? ==> body == Shape(engine(call.value), true)
    ensures status == Status(body)
  {
    var sql := GetOneSql(req.table);
    GetOneIsRead(req.table);
    status, body, call := RunQuery(c, req.table, sql, IdParams(req.id), true, engine);
    if call.Some? {
      ExecutedOutcome(engine(call.value), true);
    }
  }

  /** POST /api/:table: `id` is deleted from the body before the INSERT is built. */
  method Post(c: Catalog, req: Request, engine: Engine)
    returns (status: int, body: Result, call: Option<Call>)
    requires req.body.WellFormed()
    modifies req
    ensures req.body == old(req.body).Without("id")
    ensures req.table == old(req.table) && req.id == old(req.id) && req.query == old(req.query)
    ensures call.Some? <==> IsMutable(c, req.table)
    ensures call.None? ==> status == 404 && body == ErrorObject("No such table.")
    ensures call.Some? ==> call.value == Call(InsertSql(req.table, req.body.keys), req.body.values, Run)
    ensures call.Some? ==> "id" !in call.value.params
    ensures call.Some? ==> body == Shape(engine(call.value), false)
    ensures status == Status(body)
  {
    req.body := req.body.Without("id");
    var sql := InsertSql(req.table, req.body.keys);
    InsertIsWrite(req.table, req.body.keys);
    status, body, call := RunQuery(c, req.table, sql, req.body.values, false, engine);
  }

  /** PUT and PATCH /api/:table/:id */
  method PutOrPatch(c: Catalog, req: Request, engine: Engine)
    returns (status: int, body: Result, call: Option<Call>)
    ensures call.Some? <==> IsMutable(c, req.table)
    ensures call.None? ==> status == 404 && body == ErrorObject("No such table.")
    ensures call.Some? ==>
              call.value == Call(UpdateSql(req.table, req.body.keys), UpdateParams(req.body, req.id), Run)
    ensures call.Some? ==> call.value.params["id"] == Str(req.id)
    ensures call.Some? ==> body == Shape(engine(call.value), false)
    ensures status == Status(body)
  {
    var sql := UpdateSql(req.table, req.body.keys);
    UpdateIsWrite(req.table, req.body.keys);
    status, body, call := RunQuery(c, req.table, sql, UpdateParams(req.body, req.id), false, engine);
  }

  /** DELETE /api/:table/:id */
  method Delete(c: Catalog, req: Request, engine: Engine)
    returns (status: int, body: Result, call: Option<Call>)
    ensures call.Some? <==> IsMutable(c, req.table)
    ensures call.None? ==> status == 404 && body == ErrorObject("No such table.")
    ensures call.Some? ==> call.value == Call(DeleteSql(req.table), IdParams(req.id), Run)
    ensures call.Some? ==> body == Shape(engine(call.value), false)
    ensures status == Status(body)
  {
    var sql := DeleteSql(req.table);
    DeleteIsWrite(req.table);
    status, body, call := RunQuery(c, req.table, sql, IdParams(req.id), false, engine);
  }
}
