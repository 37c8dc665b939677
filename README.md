# Generic SQLite CRUD router — a Dafny model

This models the core of a small Express server that exposes every table and
view of a SQLite database as REST endpoints under `/api`. The server reads the
schema once at start-up and splits it into sorted lists of table names and
view names. It turns each request into SQL text plus a parameter map and runs
it through one guard, `runQuery`. The guard refuses a table name that is not
in the catalog. It also turns engine exceptions into `{error}` bodies, unwraps
single records and picks the HTTP status.

Modules, following the structure of `index.js`:

- `Strings` (strings.dfy): the JavaScript string and array operations `index.js`
  uses: `trim`, `toUpperCase`, `split`, `join` and the default `sort`.
- `Values` (values.dfy): JSON values and their truthiness and string conversion.
  It also holds request bodies (`Object.keys` order plus properties, and
  `delete`) and the query-string parameters.
- `Catalog` (catalog.dfy): the start-up partition of the metadata rows.
- `Translator` (translator.dfy): the pure statement builders. These are the
  ORDER BY / LIMIT / OFFSET / WHERE clauses of the list route, and the SELECT
  one, INSERT, UPDATE and DELETE texts with their parameter maps.
- `Guard` (guard.dfy): `runQuery` as a method. The database engine is a
  function parameter `Engine = Call -> Raw` (an oracle). A call is SQL text,
  parameters and `all`/`run`. The engine answers with rows, run information,
  or the text of an exception. The method returns the call it made, if any,
  so "the engine was never called" becomes "`call` is `None`".
- `Routes` (routes.dfy): the five handlers as methods over a `Request` object.
  The POST handler removes `id` from `req.body` in place, as `index.js` does.
  Lemmas there show which statement texts the guard classifies as reads.

Two consequences of the code that are easy to miss, and that the model keeps:

- `getMany` reads `req.body.where` on every route it serves (index.js:100,
  104, 107-108). So a `GET /api/:table` that carries a JSON `where` gets a
  `WHERE` clause, whatever `settings.allowWherePosts` says. `ListSql` and
  `GetMany` model this.
- Not-found is not a separate outcome. It is any body whose `error`
  property, as a string, starts with `No such` (index.js:73-75). This includes
  an engine exception text and a result row that has a column named `error`
  (`Guard.Status`).

## Model

| member | source | states |
|---|---|---|
| `Strings.Trim` | index.js:57 | `trim`: leading then trailing whitespace removed (properties in `TrimStart`, `TrimEnd`, `TrimKeepsWord`) |
| `Strings.UpperChar` | index.js:57 | `toUpperCase` on one character: a lower-case ASCII letter becomes the capital of the same letter, and nothing lower-case is left |
| `Strings.Upper` | index.js:57 | `toUpperCase`: same length, no lower-case ASCII letter left, and every other character unchanged in place |
| `Strings.Join` | index.js:89-91 | `join`: the pieces with the separator between neighbours (properties in `JoinSplit`, `SplitJoin`) |
| `Values.Truthy` | index.js:88-100 | JavaScript truthiness of an absent or JSON value: `undefined`, `null`, `false`, `0` and `""` are falsy |
| `Values.JsString` | index.js:74 | JavaScript string conversion, with `undefined` for an absent property |
| `Values.Given` | index.js:88-95 | a query parameter counts as given when it is present and not empty |
| `Values.Body.Get` | index.js:100 | reading a body property: present exactly when the key is a property, and then its value |
| `Values.Drop` | index.js:124 | the key order after removing `k`: the remaining keys are exactly those other than `k`, distinct keys stay distinct, and nothing changes when `k` is absent |
| `Catalog.IsQueryable` | index.js:59 | a read may target a name in the tables-and-views list |
| `Catalog.IsMutable` | index.js:62 | a write may target a name in the tables list |
| `Translator.TranslateToken` | index.js:90 | one `order` token: a leading `-` becomes a trailing ` DESC` |
| `Translator.TranslateTokens` | index.js:89-90 | every token keeps its place; one starting with `-` loses the mark and gains ` DESC`, the others pass through |
| `Translator.ListText` | index.js:97-102 | the list template, whitespace included, with its four clauses (properties in `Routes.ListTextIsRead`) |
| `Translator.ListSql` | index.js:85-102 | the list statement: the template filled with the WHERE, ORDER BY, LIMIT and OFFSET clauses (properties in `OffsetNeedsLimit`, `Routes.ListIsRead`) |
| `Translator.GetOneSql` | index.js:113-116 | the get-one template, whitespace included (proved a read in `Routes.GetOneIsRead`) |
| `Translator.DeleteSql` | index.js:151-153 | the DELETE template (proved a write in `Routes.DeleteIsWrite`) |
| `Translator.Placeholders` | index.js:128 | one placeholder per key (contents in `InsertListsAgree`) |
| `Translator.InsertSql` | index.js:126-128 | the INSERT template with the key list and the placeholder list (properties in `InsertListsAgree`, `Routes.InsertIsWrite`) |
| `Translator.Assignments` | index.js:140 | one `k = :k` assignment per key (properties in `SetClauseListsEachKeyOnce`) |
| `Translator.UpdateSql` | index.js:138-141 | the UPDATE template with the SET list (proved a write in `Routes.UpdateIsWrite`) |
| `Guard.IsSelect` | index.js:57 | a read is text that, trimmed and upper-cased, starts with `SELECT` (properties in `StatementKind`) |
| `Guard.ErrorProperty` | index.js:74-75 | the `error` property of a body: the message of an error object, the `error` column of a row, absent otherwise |
| `Guard.Status` | index.js:73-75 | the status expression (properties in `StatusOfError`, `StatusOfSuccess`, `StatusOfNumericErrorColumn`, `StatusRange`) |
| `Guard.Shape` | index.js:66-71 | the catch, the unwrap of one record and the missing-record substitute (properties in `ExecutedOutcome`) |
| `Routes.Request.constructor` | index.js:122-124 | the request fields the handlers read, set as given; the POST handler edits `body` in place |
| `Strings.TrimStart` | index.js:57 | the leading-whitespace half of `trim`: the result is a suffix of the input, everything removed is ECMAScript whitespace, and the result does not start with whitespace |
| `Strings.TrimEnd` | index.js:57 | the trailing half of `trim`: a prefix of the input; everything removed is whitespace; the result does not end with whitespace |
| `Strings.TrimKeepsWord` | index.js:57 | after whitespace, a word whose first and last characters are not whitespace is still at the front once the text is trimmed |
| `Strings.Split` | index.js:89 | `split(',')` always yields at least one piece and no piece contains the separator |
| `Strings.JoinSplit` | index.js:89-91 | joining the pieces of a split with the same separator gives back the original text |
| `Strings.SplitJoin` | index.js:89-91 | splitting the join of separator-free pieces recovers exactly those pieces |
| `Strings.Insert` | index.js:48-51 | inserting into a sorted list keeps it sorted and adds exactly one copy of the element |
| `Strings.Sort` | index.js:48-51 | `sort()` returns a sorted permutation of its input |
| `Catalog.NamesOfKind` | index.js:48-51 | the filter-and-map keeps a name exactly when some metadata row lists it with that type |
| `Catalog.Load` | index.js:48-52 | tables and views are each sorted and each a permutation of the names of that type; the readable list is tables followed by views |
| `Catalog.LoadMembership` | index.js:48-52 | a name is writable iff a row lists it as a table, and readable iff a row lists it as a table or as a view |
| `Catalog.MutableIsQueryable` | index.js:52 | every writable name is also readable |
| `Catalog.ViewIsReadOnly` | index.js:48-52 | a name listed only as a view is readable but not writable |
| `Catalog.LoadIsPartition` | index.js:52 | the readable list has one entry per table row plus one per view row |
| `Values.Body.Without` | index.js:124 | `delete body.id` keeps the body well formed, removes `id` from the keys and the properties, keeps every other key in its order (the keys before `id` then the keys after it), and changes nothing when there was no `id` |
| `Values.DropKeepsOrder` | index.js:124 | removing the one occurrence of a key from distinct keys leaves exactly the keys before it followed by the keys after it |
| `Values.NumberTextStartsWithDigitOrSign` | index.js:74 | an integer converted to text never starts with a capital letter, so it never reads as `No such` |
| `Translator.OrderBy` | index.js:88-91 | the clause is empty exactly when `order` is absent or empty; otherwise it starts with `ORDER BY ` |
| `Translator.JoinSplitIsCommaSpaced` | index.js:89-91 | splitting at commas and joining with `, ` is the same as putting a space after every comma |
| `Translator.OrderByAscending` | index.js:88-91 | when no token starts with `-`, the clause is `ORDER BY ` followed by the `order` text with a space after each comma |
| `Translator.OrderByRendersKeys` | index.js:86-91 | a client that writes sort keys as `col` or `-col` joined by commas gets each key back, in order, as `col` or `col DESC`, joined by `, ` |
| `Translator.LimitClause` | index.js:92-93 | `LIMIT n` is present exactly when `limit` is given, and carries its text |
| `Translator.OffsetClause` | index.js:94-95 | `OFFSET m` is present exactly when both `limit` and `offset` are given, and carries the offset text |
| `Translator.WhereClause` | index.js:100 | the `WHERE` clause is present exactly when `body.where` is truthy, and is then `WHERE ` followed by the string conversion of `body.where`, verbatim |
| `Translator.OffsetNeedsLimit` | index.js:92-102 | without a limit the list statement is the same whatever `offset` says |
| `Translator.IdParams` | index.js:117 | the get-one and delete parameters bind only `id`, to the route's id |
| `Translator.InsertListsAgree` | index.js:127-128 | read back at the commas, the column list is the key sequence, and the placeholder list has one entry per column: `:` followed by that column |
| `Translator.PostColumnsMatchParams` | index.js:124-129 | after `id` is deleted, the INSERT columns are the remaining keys in order; `id` is not among them; the parameter names are exactly the columns |
| `Translator.UpdateParams` | index.js:142 | the update parameters are the body's properties plus `id`; `id` is the route id whatever the body held; every other property is unchanged |
| `Translator.AssignmentInjective` | index.js:140 | two keys with the same `k = :k` text are the same key |
| `Translator.SetClauseListsEachKeyOnce` | index.js:140 | read back at the commas, the SET list names each key once, in order, as `k = :k`, with no entry repeated |
| `Guard.StatementKind` | index.js:57 | text made of whitespace, then `SELECT`/`INSERT`/`UPDATE`/`DELETE`, then anything, counts as a read exactly when the word is `SELECT` |
| `Guard.StatusOfError` | index.js:73-75 | an `{error}` body is 404 iff the message starts with `No such`, 500 iff it is another non-empty message, and 200 iff the message is empty |
| `Guard.StatusOfSuccess` | index.js:73-75 | arrays of rows, run information and rows without an `error` column are 200 |
| `Guard.StatusOfNumericErrorColumn` | index.js:73-75 | a row whose `error` column is a number is 500, or 200 when the number is zero, and never 404 |
| `Guard.StatusRange` | index.js:73-75 | every status is 200, 404 or 500 |
| `Guard.ExecutedOutcome` | index.js:66-71 | an exception becomes `{error: text}`, which is a 404 iff the text starts with `No such`; with `one`, an empty result is 404 `No such post` and otherwise the first row; without `one`, rows and run information pass through at 200 |
| `Guard.RunQuery` | index.js:55-77 | the engine is called iff the target passes the check (tables ∪ views for a read, tables for a write), with the query, its parameters and `all` for a read or `run` for a write; a refused target gives 404 with `No such table or view.` or `No such table.`; otherwise the body is the shaped engine outcome; the status is computed from the body |
| `Routes.KindOfText` | index.js:57 | as `Guard.StatementKind`, for text grouped as the builders write it |
| `Routes.ListTextIsRead` | index.js:97-102 | the list template is a read whatever its table name and clauses |
| `Routes.ListIsRead` | index.js:97-102 | every list statement is a read |
| `Routes.GetOneIsRead` | index.js:113-117 | the get-one statement is a read |
| `Routes.InsertIsWrite` | index.js:126-129 | the INSERT statement is a write |
| `Routes.UpdateIsWrite` | index.js:138-142 | the UPDATE statement is a write |
| `Routes.DeleteIsWrite` | index.js:151-154 | the DELETE statement is a write |
| `Routes.GetMany` | index.js:85-103 | the engine runs the list statement with `all` and no parameters iff the name is a table or view; otherwise 404 `No such table or view.` |
| `Routes.GetOne` | index.js:111-119 | the engine runs the get-one statement with `{id}` iff the name is a table or view; no row gives 404 `No such post`; otherwise the body is the first row |
| `Routes.Post` | index.js:122-131 | `id` is removed from the request body in place; the INSERT runs with the remaining properties iff the name is a table, else 404 `No such table.`; the parameters never contain `id` |
| `Routes.PutOrPatch` | index.js:136-146 | the UPDATE runs iff the name is a table, else 404 `No such table.`; the bound `id` is always the route id |
| `Routes.Delete` | index.js:149-156 | the DELETE runs with `{id}` iff the name is a table, else 404 `No such table.` |

## Left out

- Express set-up, static files, JSON body parsing, `listen` and logging (index.js:1-30). This is framework wiring and I/O.
- Opening the database and the `sqlite_schema` metadata query itself (index.js:36-47). `Catalog.Load` takes the rows that query returns. The `sqlite_%` exclusion happens inside that SQL.
- Running SQL (index.js:67). The engine is an abstract function, so SQL meaning, `LIKE` matching, ordering of rows and injection safety are not modelled. Table and column names are spliced into the text as they are.
- Settings loading and the conditional registration of `POST /api/where/:table/` (index.js:2, 107-108). That route uses the same handler as `GET /api/:table`, which `Routes.GetMany` models.
- Routing itself: matching method and path to a handler, and the `/api/db-info` route (index.js:80-82), which only returns the two catalog lists.
- The catch-all `No such route.` handler and the error middleware (index.js:159-176). The middleware works on an Express error object whose shape belongs to the library.
- frontend/main.js: page rendering through `fetch` and `innerHTML`.
- JSON serialisation of response bodies: `res.json` is not modelled. Bodies are the `Result` values the guard produces. The `|| null` fallback never applies, because the result can never be falsy at that point.
- Strings.Upper: maps ASCII letters only. JavaScript's full Unicode case mapping is not modelled (for example U+017F `ſ`, which upper-cases to `S`).
- Strings.Sort: compares characters as Unicode scalar values. JavaScript compares UTF-16 code units. The two orders differ only between characters above U+FFFF and those in U+E000–U+FFFF.
- Values.Value: numbers are unbounded integers, not IEEE doubles. So fractional numbers, the rounding of integers beyond 2^53 during JSON parsing, NaN and ±Infinity are not modelled. Neither is the exponent form JavaScript prints from 1e21 on: `{"where": 1e21}` gives `WHERE 1e+21` in `index.js`, whereas `IntToString` writes the 22 digits. Arrays and blobs are not modelled either. A nested JSON object is a single `Object` value that prints as `[object Object]`.
- Values.NumberTextStartsWithDigitOrSign: is stated for integers only. A JavaScript number can print as `Infinity` or `NaN`, which start with a capital letter, though never with `No such`.
- Values.Query: each query parameter is one string or absent. A repeated parameter, which Express turns into an array (`split` would then throw outside the `try`), is not modelled.
- Values.Body: takes `Object.keys` order as given by the parsed body. JavaScript's rule that integer-like keys come first is not modelled.
- Routes.Post: requires a well-formed body (distinct keys, each with a property), which every parsed JSON object is.
