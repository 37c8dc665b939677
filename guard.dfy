/** The execution guard every route goes through (`runQuery`): it classifies
    the statement as a read or a write, checks the route's table name against
    the catalog, runs the statement on the database engine, unwraps a single
    record when asked, and picks the HTTP status.

    The engine is an oracle: a function from the call made (SQL text,
    parameters, and whether rows are fetched with `all` or the statement is
    executed with `run`) to what came back, rows, run information, or the
    text of the exception it threw. */
module Guard {
  import opened Strings
  import opened Values
  import opened Catalog

  datatype Mode = All | Run

  /** One call into the engine: a statement prepared from `sql`, then fetched
      with `all` or executed with `run`, binding `params`. */
  datatype Call = Call(sql: string, params: map<string, Value>, mode: Mode)

  /** What the engine gave back: rows from `all`, the info object of `run`,
      or an exception, given as its string conversion. */
  datatype Raw = Rows(rows: seq<Row>) | Info(changes: int, lastInsertRowid: int) | Threw(message: string)

  type Engine = Call -> Raw

  /** The response body: an `{error}` object, an array of rows, one row, or
      the info object of a write. */
  datatype Result =
    | ErrorObject(error: string)
    | RowArray(rows: seq<Row>)
    | RowObject(row: Row)
    | RunInfo(changes: int, lastInsertRowid: int)

  /** A read is text that, trimmed and upper-cased, starts with `SELECT`. */
  predicate IsSelect(query: string) {
    StartsWith(Upper(Trim(query)), "SELECT")
  }

  /** Layout every statement builder uses: leading whitespace, then the
      statement's first word. The text is a read iff that word is `SELECT`. */
  lemma StatementKind(ws: string, word: string, rest: string)
    requires forall i :: 0 <= i < |ws| ==> IsJsWhitespace(ws[i])
    requires word in ["SELECT", "INSERT", "UPDATE", "DELETE"]
    ensures IsSelect(ws + word + rest) <==> word == "SELECT"
  {
    TrimKeepsWord(ws, word, rest);
    var t := Trim(ws + word + rest);
    var u := Upper(t);
    assert u[0] == UpperChar(t[0]) && t[0] == word[0];
    if word == "SELECT" {
      assert forall i :: 0 <= i < 6 ==> u[i] == UpperChar(word[i]) == word[i];
      assert u[..6] == word;
    }
  }

  /** The catalog partition a statement of this kind may target. */
  predicate Allowed(c: Catalog, table: string, select: bool) {
    if select then IsQueryable(c, table) else IsMutable(c, table)
  }

  function ValidationMessage(select: bool): string {
    if select then "No such table or view." else "No such table."
  }

  /** `result.error`: the `error` property of the body, `None` for undefined.
      Arrays and run information have none; a row has one when it has a
      column called `error`. */
  function ErrorProperty(r: Result): Option<Value> {
    match r
    case ErrorObject(m) => Some(Str(m))
    case RowObject(row) => if "error" in row then Some(row["error"]) else None
    case _ => None
  }

  /** The status is 404 when the string conversion of the body's `error`
      property starts with `No such`, 500 when that property is otherwise
      truthy, and 200 else. The test for a falsy body can never succeed,
      as no body is falsy. */
  function Status(r: Result): int {
    if StartsWith(JsString(ErrorProperty(r)), "No such") then 404
    else if Truthy(ErrorProperty(r)) then 500
    else 200
  }

  /** How an engine outcome becomes the body: an exception becomes `{error}`;
      with `one` set, an array of rows is replaced by its first row, and an
      empty one by `{error: 'No such post'}`. */
  function Shape(raw: Raw, one: bool): Result
  {
    match raw
    case Threw(m) => ErrorObject(m)
    case Info(n, id) => RunInfo(n, id)
    case Rows(rows) =>
      if !one then RowArray(rows)
      else if rows == [] then ErrorObject("No such post")
      else RowObject(rows[0])
  }

  /** An error body answers 404 iff its message starts with `No such`, 500
      for any other non-empty message, and 200 for an empty one. */
  lemma StatusOfError(message: string)
    ensures Status(ErrorObject(message)) == 404 <==> StartsWith(message, "No such")
    ensures Status(ErrorObject(message)) == 500 <==> !StartsWith(message, "No such") && message != ""
    ensures Status(ErrorObject(message)) == 200 <==> message == ""
  {
    if message == "" {
      assert !StartsWith(message, "No such");
    }
  }

  /** Lists of rows, run information and rows without an `error` column are
      successes. */
  lemma StatusOfSuccess(r: Result)
    requires r.RowArray? || r.RunInfo? || (r.RowObject? && "error" !in r.row)
    ensures Status(r) == 200
  {
    assert ErrorProperty(r) == None;
    assert "undefined"[0] != "No such"[0];
  }

  /** A row whose `error` column holds a number is never a 404: it is a 500
      unless the number is zero. */
  lemma StatusOfNumericErrorColumn(row: Row)
    requires "error" in row && row["error"].Num?
    ensures Status(RowObject(row)) == (if row["error"].n == 0 then 200 else 500)
  {
    NumberTextStartsWithDigitOrSign(row["error"].n, "No such");
  }

  /** What an executed statement answers: an exception is a 404 exactly when
      its text starts with `No such`; with `one` set, no rows is a 404 with
      `No such post` and some rows give the first; without `one`, rows and
      run information are 200s. */
  lemma ExecutedOutcome(raw: Raw, one: bool)
    ensures raw.Threw? ==> Shape(raw, one) == ErrorObject(raw.message)
                           && (Status(Shape(raw, one)) == 404 <==> StartsWith(raw.message, "No such"))
    ensures raw.Info? ==> Shape(raw, one).RunInfo? && Status(Shape(raw, one)) == 200
    ensures raw.Rows? && !one ==> Shape(raw, one) == RowArray(raw.rows) && Status(Shape(raw, one)) == 200
    ensures raw.Rows? && one && raw.rows == [] ==>
              Shape(raw, one) == ErrorObject("No such post") && Status(Shape(raw, one)) == 404
    ensures raw.Rows? && one && raw.rows != [] ==>
              Shape(raw, one) == RowObject(raw.rows[0])
              && ("error" !in raw.rows[0] ==> Status(Shape(raw, one)) == 200)
  {
    match raw
    case Threw(m) => StatusOfError(m);
    case Info(_, _) => StatusOfSuccess(Shape(raw, one));
    case Rows(rows) =>
      if !one || rows != [] {
        if !one || "error" !in rows[0] {
          StatusOfSuccess(Shape(raw, one));
        }
      } else {
        StatusOfError("No such post");
      }
  }

  /** Every status is one of the three the guard sends. */
  lemma StatusRange(r: Result)
    ensures Status(r) in {200, 404, 500}
  {
  }

  /** `runQuery`: validate, execute or catch, unwrap, substitute the missing
      record, classify. `call` is the engine call that was made, if any. */
  method RunQuery(c: Catalog, table: string, query: string, params: map<string, Value>,
                  one: bool, engine: Engine)
    returns (status: int, body: Result, call: Option<Call>)
    ensures call.Some? <==> Allowed(c, table, IsSelect(query))
    ensures call.Some? ==> call.value == Call(query, params, if IsSelect(query) then All else Run)
    ensures call.None? ==> body == ErrorObject(ValidationMessage(IsSelect(query))) && status == 404
    ensures call.Some? ==> body == Shape(engine(call.value), one)
    ensures status == Status(body)
  {
    var result: Option<Result> := None;
    var select := IsSelect(query);
    if select && !IsQueryable(c, table) {
      result := Some(ErrorObject("No such table or view."));
    }
    if !select && !IsMutable(c, table) {
      result := Some(ErrorObject("No such table."));
    }
    call := None;
    if result.None? {
      var made := Call(query, params, if select then All else Run);
      call := Some(made);
      match engine(made)
      case Threw(m) =>
        result := Some(ErrorObject(m));
      case Rows(rows) =>
        result := Some(RowArray(rows));
      case Info(n, id) =>
        result := Some(RunInfo(n, id));
    }
    if one && result.Some? && result.value.RowArray? {
      var rows := result.value.rows;
      result := if rows == [] then None else Some(RowObject(rows[0]));
    }
    if result.None? {
      result := Some(ErrorObject("No such post"));
    }
    body := result.value;
    status := Status(body);
    if call.None? {
      StatusOfError(body.error);
    }
  }
}
