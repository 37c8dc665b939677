/** The statement builders of the route handlers: each turns the route's
    table name, query string and body into SQL text (and the handlers pair it
    with a parameter map). Table and column names are spliced into the text
    as they are; only values are bound as `:name` parameters. */
module Translator {
  import opened Strings
  import opened Values

  // ---------------------------------------------------------------------------
  // GET /api/:table — ORDER BY, LIMIT, OFFSET and WHERE

  /** One `order` token: a leading `-` becomes a trailing ` DESC`. */
  function TranslateToken(token: string): string {
    if |token| > 0 && token[0] == '-' then token[1..] + " DESC" else token
  }

  /** Every token keeps its place: one marked `-` loses the mark and is
      followed by ` DESC`, any other passes through unchanged. */
  function TranslateTokens(tokens: seq<string>): (terms: seq<string>)
    ensures |terms| == |tokens|
    ensures forall i :: 0 <= i < |tokens| && StartsWith(tokens[i], "-") ==>
              terms[i] == tokens[i][1..] + " DESC"
    ensures forall i :: 0 <= i < |tokens| && !StartsWith(tokens[i], "-") ==> terms[i] == tokens[i]
  {
    seq(|tokens|, i requires 0 <= i < |tokens| => TranslateToken(tokens[i]))
  }

  /** The ORDER BY clause built from the `order` parameter; empty when the
      parameter is absent or empty. */
  function OrderBy(order: Option<string>): (clause: string)
    ensures clause == "" <==> !Given(order)
    ensures Given(order) ==> StartsWith(clause, "ORDER BY ")
  {
    if !Given(order) then ""
    else "ORDER BY " + Join(TranslateTokens(Split(order.value, ',')), ", ")
  }

  /** `LIMIT` followed by the `limit` text, present exactly when `limit` is given. */
  function LimitClause(q: Query): (clause: string)
    ensures clause != "" <==> Given(q.limit)
    ensures Given(q.limit) ==> clause == "LIMIT " + q.limit.value
  {
    if !Given(q.limit) then "" else "LIMIT " + q.limit.value
  }

  /** `OFFSET` followed by the `offset` text, present only when both `limit`
      and `offset` are given: an offset on its own is dropped. */
  function OffsetClause(q: Query): (clause: string)
    ensures clause != "" <==> Given(q.limit) && Given(q.offset)
    ensures clause != "" ==> clause == "OFFSET " + q.offset.value
  {
    if !Given(q.limit) || !Given(q.offset) then "" else "OFFSET " + q.offset.value
  }

  /** `WHERE` followed by the string conversion of `body.where`, present
      exactly when `body.where` is truthy; the text is spliced in verbatim. */
  function WhereClause(body: Body): (clause: string)
    ensures clause != "" <==> Truthy(body.Get("where"))
    ensures clause != "" ==> clause == "WHERE " + JsString(body.Get("where"))
  {
    if Truthy(body.Get("where")) then "WHERE " + JsString(body.Get("where")) else ""
  }

  /** The template of the list route (`getMany`) with its clauses filled in. */
  function ListText(table: string, whereClause: string, order: string, limit: string, offset: string): string {
    "\n    SELECT *\n    FROM " + table + "\n    " + whereClause + "\n    "
      + order + " " + limit + " " + offset + "\n  "
  }

  /** The statement text of the list route. */
  function ListSql(table: string, q: Query, body: Body): string {
    ListText(table, WhereClause(body), OrderBy(q.order), LimitClause(q), OffsetClause(q))
  }

  /** Without a limit, the offset parameter has no effect on the statement. */
  lemma OffsetNeedsLimit(table: string, q: Query, body: Body)
    requires !Given(q.limit)
    ensures ListSql(table, q, body) == ListSql(table, q.(offset := None), body)
    ensures OffsetClause(q) == ""
  {
  }

  /** The text with a space inserted after every comma: what splitting at
      commas and joining with comma-space produces. */
  function CommaSpaced(s: string): (r: string)
    ensures |r| >= |s|
  {
    if s == [] then [] else (if s[0] == ',' then ", " else [s[0]]) + CommaSpaced(s[1..])
  }

  lemma {:induction false} JoinSplitIsCommaSpaced(s: string)
    ensures Join(Split(s, ','), ", ") == CommaSpaced(s)
  {
    if s != [] {
      JoinSplitIsCommaSpaced(s[1..]);
      var rest := Split(s[1..], ',');
      if s[0] == ',' {
        assert ([""] + rest)[1..] == rest;
      } else {
        JoinConsHead(s[0], rest, ", ");
      }
    }
  }

  /** With no token marked descending, the clause is the `order` text with a
      space after every comma. */
  lemma OrderByAscending(s: string)
    requires s != ""
    requires forall t :: t in Split(s, ',') ==> !StartsWith(t, "-")
    ensures OrderBy(Some(s)) == "ORDER BY " + CommaSpaced(s)
  {
    var tokens := Split(s, ',');
    forall i | 0 <= i < |tokens| ensures TranslateToken(tokens[i]) == tokens[i] {
      assert tokens[i] in tokens;
      if |tokens[i]| > 0 {
        assert tokens[i][..1] == [tokens[i][0]];
      }
    }
    assert TranslateTokens(tokens) == tokens;
    JoinSplitIsCommaSpaced(s);
  }

  /** A sort key as a client writes it in `order`: a column name, optionally
      marked descending. */
  datatype SortKey = SortKey(column: string, descending: bool)

  /** How a client spells a key in `order`: `-col` for descending. */
  function EncodeKey(k: SortKey): string {
    (if k.descending then "-" else "") + k.column
  }

  /** How the key appears in the ORDER BY clause: `col` or `col DESC`. */
  function RenderKey(k: SortKey): string {
    k.column + (if k.descending then " DESC" else "")
  }

  /** The `order` parameter for a list of keys: their spellings joined by commas. */
  function EncodeOrder(keys: seq<SortKey>): string {
    Join(seq(|keys|, i requires 0 <= i < |keys| => EncodeKey(keys[i])), ",")
  }

  /** A key can be written in `order` and read back unambiguously. */
  predicate Spellable(k: SortKey) {
    k.column != "" && ',' !in k.column && (!k.descending ==> k.column[0] != '-')
  }

  /** Writing sort keys into `order` and translating gives each key in turn,
      ascending or descending as asked, separated by `, `. */
  lemma OrderByRendersKeys(keys: seq<SortKey>)
    requires |keys| >= 1
    requires forall i :: 0 <= i < |keys| ==> Spellable(keys[i])
    ensures OrderBy(Some(EncodeOrder(keys))) ==
              "ORDER BY " + Join(seq(|keys|, i requires 0 <= i < |keys| => RenderKey(keys[i])), ", ")
  {
    var spelled := seq(|keys|, i requires 0 <= i < |keys| => EncodeKey(keys[i]));
    var rendered := seq(|keys|, i requires 0 <= i < |keys| => RenderKey(keys[i]));
    forall i | 0 <= i < |keys| ensures ',' !in spelled[i] {
      assert spelled[i] == (if keys[i].descending then "-" else "") + keys[i].column;
    }
    SplitJoin(spelled, ',');
    forall i | 0 <= i < |keys| ensures TranslateToken(spelled[i]) == rendered[i] {
      var k := keys[i];
      if k.descending {
        assert spelled[i] == "-" + k.column;
        assert spelled[i][1..] == k.column;
      } else {
        assert spelled[i] == k.column;
      }
    }
    assert TranslateTokens(spelled) == rendered;
    assert EncodeOrder(keys) != "" by {
      if |keys| > 1 {
        assert EncodeOrder(keys) == spelled[0] + "," + Join(spelled[1..], ",");
      }
    }
  }

  // ---------------------------------------------------------------------------
  // GET /api/:table/:id and DELETE /api/:table/:id

  function GetOneSql(table: string): string {
    "\n    SELECT *\n    FROM " + table + "   \n    WHERE id = :id\n  "
  }

  function DeleteSql(table: string): string {
    "\n    DELETE FROM " + table + " \n    WHERE id = :id\n  "
  }

  /** The parameters of the get-one and delete statements: only `id`, bound
      to the route's id as a string. */
  function IdParams(id: string): (params: map<string, Value>)
    ensures params.Keys == {"id"} && params["id"] == Str(id)
  {
    map["id" := Str(id)]
  }

  // ---------------------------------------------------------------------------
  // POST /api/:table

  /** The VALUES list of the INSERT: one named placeholder per key. */
  function Placeholders(keys: seq<string>): (ps: seq<string>)
    ensures |ps| == |keys|
  {
    seq(|keys|, i requires 0 <= i < |keys| => ":" + keys[i])
  }

  /** The INSERT text for the body's keys, in order. */
  function InsertSql(table: string, keys: seq<string>): string {
    "\n    INSERT INTO " + table + " (" + Join(keys, ",") + ")     \n    VALUES ("
      + Join(Placeholders(keys), ",") + ")\n  "
  }

  /** Read back at the commas, the column list and the placeholder list of an
      INSERT have one entry per key, the i-th placeholder naming the i-th column. */
  lemma InsertListsAgree(keys: seq<string>)
    requires |keys| >= 1
    requires forall i :: 0 <= i < |keys| ==> ',' !in keys[i]
    ensures Split(Join(keys, ","), ',') == keys
    ensures var ps := Split(Join(Placeholders(keys), ","), ',');
            |ps| == |keys| && forall i :: 0 <= i < |keys| ==> ps[i] == ":" + keys[i]
  {
    SplitJoin(keys, ',');
    var ps := Placeholders(keys);
    forall i | 0 <= i < |ps| ensures ',' !in ps[i] {
      assert ps[i] == ":" + keys[i];
    }
    SplitJoin(ps, ',');
  }

  /** The POST statement, built after `delete req.body.id`: its column list,
      read back at the commas, is the remaining key sequence; `id` is not
      among the columns, and the bound parameters are exactly the columns. */
  lemma PostColumnsMatchParams(body: Body)
    requires body.WellFormed()
    requires |body.Without("id").keys| >= 1
    requires forall k :: k in body.keys ==> ',' !in k
    ensures var b := body.Without("id");
            var columns := Split(Join(b.keys, ","), ',');
            && columns == b.keys
            && "id" !in columns
            && (forall k :: k in b.values <==> k in columns)
            && (forall k :: k in columns <==> k in body.keys && k != "id")
  {
    var b := body.Without("id");
    forall i | 0 <= i < |b.keys| ensures ',' !in b.keys[i] {
      assert b.keys[i] in b.keys;
    }
    InsertListsAgree(b.keys);
  }

  // ---------------------------------------------------------------------------
  // PUT and PATCH /api/:table/:id

  /** The SET list of the UPDATE: each key assigned its own named placeholder. */
  function Assignments(keys: seq<string>): (assigns: seq<string>)
    ensures |assigns| == |keys|
  {
    seq(|keys|, i requires 0 <= i < |keys| => keys[i] + " = :" + keys[i])
  }

  function UpdateSql(table: string, keys: seq<string>): string {
    "\n    UPDATE " + table + " \n    SET " + Join(Assignments(keys), ",") + "\n    WHERE id = :id\n  "
  }

  /** The update parameters: the body's properties spread into a new object,
      with `id` then set to the route's id, whatever the body said. */
  function UpdateParams(body: Body, id: string): (params: map<string, Value>)
    ensures params.Keys == body.values.Keys + {"id"}
    ensures params["id"] == Str(id)
    ensures forall k :: k in body.values && k != "id" ==> params[k] == body.values[k]
  {
    body.values["id" := Str(id)]
  }

  lemma AssignmentInjective(a: string, b: string)
    requires a + " = :" + a == b + " = :" + b
    ensures a == b
  {
    var x, y := a + " = :" + a, b + " = :" + b;
    assert |a| == |b|;
    assert a == x[..|a|] && b == y[..|b|];
  }

  /** Read back at the commas, the SET clause of distinct, comma-free keys
      names every key once, in order, as `k = :k`. */
  lemma SetClauseListsEachKeyOnce(keys: seq<string>)
    requires |keys| >= 1
    requires Distinct(keys)
    requires forall i :: 0 <= i < |keys| ==> ',' !in keys[i]
    ensures var listed := Split(Join(Assignments(keys), ","), ',');
            && |listed| == |keys|
            && (forall i :: 0 <= i < |keys| ==> listed[i] == keys[i] + " = :" + keys[i])
            && Distinct(listed)
  {
    var assigns := Assignments(keys);
    forall i | 0 <= i < |assigns| ensures ',' !in assigns[i] && assigns[i] == keys[i] + " = :" + keys[i] {
      assert assigns[i] == keys[i] + " = :" + keys[i];
      assert ',' !in " = :";
    }
    SplitJoin(assigns, ',');
    forall i, j | 0 <= i < j < |assigns| ensures assigns[i] != assigns[j] {
      if assigns[i] == assigns[j] {
        AssignmentInjective(keys[i], keys[j]);
      }
    }
  }
}
