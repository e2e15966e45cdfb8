/**
 * The data-access layer (todo.db.todo.TodoDB): the statements it sends and how it turns the
 * database's answers into Todo objects. The database itself is not modelled: what a cursor
 * yields (a row, the rows, a row count) is a parameter of each operation.
 */
module TodoDb {
  import opened Values
  import opened SqlText
  import opened TodoPayload

  /** A statement parameter; None is SQL NULL. */
  type Param = Option<string>

  /** One `cur.execute` call: without a parameter tuple, or with one. */
  datatype Execution = Plain(sql: string) | Bound(sql: string, params: seq<Param>)

  /** A result row of `SELECT todo_id, text, status`, one string per column. */
  type Row = seq<string>

  // The statement texts. Each is a template: its pieces with a `%s` placeholder between each two
  // (see `Fill`), so that counting its placeholders never unfolds a long literal; `InsertText`,
  // `SelectByIdText`, `UpdateText` and `DeleteText` spell the fixed ones out in full.
  const SelectSql := "SELECT todo_id, text, status FROM todo"
  const InsertSql := Fill(["INSERT INTO todo " + "(todo_id, text, status)" + " VALUES (", ", ", ", ", ")"])
  const SelectByIdSql := Fill([SelectSql + " WHERE todo_id=", ""])
  const UpdateSql := Fill(["UPDATE todo SET text=", ", status=", " WHERE todo_id=", ""])
  const DeleteSql := Fill(["DELETE FROM todo " + "WHERE todo_id=", ""])
  const TextClause := Fill(["text LIKE ", " ESCAPE ''"])
  const StatusClause := Fill(["status = ", ""])

  /** A statement whose placeholders match its parameters one for one (none when unbound). */
  predicate WellFormed(e: Execution) {
    match e
    case Plain(sql) => Placeholders(sql) == 0
    case Bound(sql, params) => Placeholders(sql) == |params|
  }

  /** `Todo(row[1], row[0], row[2])`: column 0 is the id, 1 the text, 2 the status. */
  function RowFields(row: Row): Fields
    requires |row| == 3
  {
    Fields(Some(row[0]), Some(row[1]), Some(row[2]))
  }

  // ---------------------------------------------------------------------------------------
  // The query `list` builds, defined as clauses joined by AND after one WHERE.

  /** `sep.join(parts)`. */
  function Join(parts: seq<string>, sep: string): string {
    if parts == [] then ""
    else if |parts| == 1 then parts[0]
    else parts[0] + sep + Join(parts[1..], sep)
  }

  /** The filter clauses, text before status; a filter that is None or empty adds none. */
  function Clauses(textmatch: Option<string>, status: Option<string>): seq<string> {
    (if Truthy(textmatch) then [TextClause] else []) + (if Truthy(status) then [StatusClause] else [])
  }

  /** The parameters, in the order of `Clauses`. */
  function Params(textmatch: Option<string>, status: Option<string>): seq<Param> {
    (if Truthy(textmatch) then [Some("%" + textmatch.value + "%")] else [])
      + (if Truthy(status) then [status] else [])
  }

  function ListQuery(textmatch: Option<string>, status: Option<string>): Execution {
    var clauses := Clauses(textmatch, status);
    if clauses == [] then Plain(SelectSql)
    else Bound(SelectSql + " WHERE " + Join(clauses, " AND "), Params(textmatch, status))
  }

  /** The four shapes of the listing query, one per combination of filters. */
  lemma ListQueryCases(textmatch: Option<string>, status: Option<string>)
    ensures !Truthy(textmatch) && !Truthy(status) ==> ListQuery(textmatch, status) == Plain(SelectSql)
    ensures Truthy(textmatch) && !Truthy(status) ==>
      ListQuery(textmatch, status) == Bound(SelectSql + " WHERE " + TextClause, [Some("%" + textmatch.value + "%")])
    ensures !Truthy(textmatch) && Truthy(status) ==>
      ListQuery(textmatch, status) == Bound(SelectSql + " WHERE " + StatusClause, [status])
    ensures Truthy(textmatch) && Truthy(status) ==>
      ListQuery(textmatch, status) == Bound(SelectSql + " WHERE " + TextClause + " AND " + StatusClause,
                                            [Some("%" + textmatch.value + "%"), status])
  {
    if Truthy(textmatch) && Truthy(status) {
      assert Join([TextClause, StatusClause], " AND ") == TextClause + " AND " + StatusClause;
      assert SelectSql + " WHERE " + (TextClause + " AND " + StatusClause)
          == SelectSql + " WHERE " + TextClause + " AND " + StatusClause;
    }
  }

  /** No filter (None or empty for both): the bare SELECT, executed without parameters. */
  lemma ListNoFilter(textmatch: Option<string>, status: Option<string>)
    requires !Truthy(textmatch) && !Truthy(status)
    ensures ListQuery(textmatch, status) == Plain("SELECT todo_id, text, status FROM todo")
  {
    ListQueryCases(textmatch, status);
  }

  /** Only a text filter: one LIKE clause whose parameter wraps the filter in `%` wildcards. */
  lemma ListTextOnly(textmatch: Option<string>, status: Option<string>)
    requires Truthy(textmatch) && !Truthy(status)
    ensures ListQuery(textmatch, status)
         == Bound("SELECT todo_id, text, status FROM todo WHERE text LIKE %s ESCAPE ''",
                  [Some("%" + textmatch.value + "%")])
  {
    ListQueryCases(textmatch, status);
    TextFilterSql();
  }

  /** Only a status filter: one equality clause whose parameter is the status itself. */
  lemma ListStatusOnly(textmatch: Option<string>, status: Option<string>)
    requires !Truthy(textmatch) && Truthy(status)
    ensures ListQuery(textmatch, status)
         == Bound("SELECT todo_id, text, status FROM todo WHERE status = %s", [status])
  {
    ListQueryCases(textmatch, status);
    StatusFilterSql();
  }

  /** Both filters: the text clause and its parameter come first, joined to the status clause by AND. */
  lemma ListBoth(textmatch: Option<string>, status: Option<string>)
    requires Truthy(textmatch) && Truthy(status)
    ensures ListQuery(textmatch, status)
         == Bound("SELECT todo_id, text, status FROM todo WHERE text LIKE %s ESCAPE '' AND status = %s",
                  [Some("%" + textmatch.value + "%"), status])
  {
    ListQueryCases(textmatch, status);
    BothFiltersSql();
  }

  lemma BothFiltersSql()
    ensures SelectSql + " WHERE " + TextClause + " AND " + StatusClause
         == "SELECT todo_id, text, status FROM todo WHERE text LIKE %s ESCAPE '' AND status = %s"
  {
    TextFilterSql();
    JoinedSql("SELECT todo_id, text, status FROM todo WHERE text LIKE %s ESCAPE ''");
  }

  lemma TextFilterSql()
    ensures SelectSql + " WHERE " + TextClause
         == "SELECT todo_id, text, status FROM todo WHERE text LIKE %s ESCAPE ''"
  {
  }

  lemma StatusFilterSql()
    ensures SelectSql + " WHERE " + StatusClause
         == "SELECT todo_id, text, status FROM todo WHERE status = %s"
  {
  }

  lemma JoinedSql(textOnly: string)
    requires textOnly == "SELECT todo_id, text, status FROM todo WHERE text LIKE %s ESCAPE ''"
    ensures textOnly + " AND " + StatusClause
         == "SELECT todo_id, text, status FROM todo WHERE text LIKE %s ESCAPE '' AND status = %s"
  {
  }

  /** Whatever the filters, the listing query has exactly one placeholder per parameter. */
  lemma ListWellFormed(textmatch: Option<string>, status: Option<string>)
    ensures WellFormed(ListQuery(textmatch, status))
  {
    ListQueryCases(textmatch, status);
    var t, s := Truthy(textmatch), Truthy(status);
    if !t && !s {
      NoPercentInPieces();
      PlaceholdersAbsent(SelectSql);
    } else if t && !s {
      TextFilterPlaceholders();
    } else if !t && s {
      StatusFilterPlaceholders();
    } else {
      BothFiltersPlaceholders();
    }
  }

  /** ` WHERE ` occurs once in the listing query when some filter is given, and never otherwise. */
  lemma ListWhereOnce(textmatch: Option<string>, status: Option<string>)
    ensures Occurrences(ListQuery(textmatch, status).sql, " WHERE ")
         == if Truthy(textmatch) || Truthy(status) then 1 else 0
  {
    ListQueryCases(textmatch, status);
    var t, s := Truthy(textmatch), Truthy(status);
    if !t && !s {
      KeywordLetters();
      NeverOccurs(SelectSql, " WHERE ", 1);
    } else if t && !s {
      WhereOnceBefore(TextClause);
    } else if !t && s {
      WhereOnceBefore(StatusClause);
    } else {
      WhereOnceBefore(TextClause + " AND " + StatusClause);
      assert SelectSql + " WHERE " + (TextClause + " AND " + StatusClause)
          == SelectSql + " WHERE " + TextClause + " AND " + StatusClause;
    }
  }

  /** ` WHERE ` occurs once after the SELECT when what follows it has no `W`. */
  lemma WhereOnceBefore(rest: string)
    requires rest == TextClause || rest == StatusClause || rest == TextClause + " AND " + StatusClause
    ensures Occurrences(SelectSql + " WHERE " + rest, " WHERE ") == 1
  {
    KeywordLetters();
    assert 'W' !in rest;
    OccursOnce(SelectSql, " WHERE ", rest, 1);
  }

  /** ` AND ` occurs in the listing query, once, exactly when both filters are given. */
  lemma ListAndOnce(textmatch: Option<string>, status: Option<string>)
    ensures Occurrences(ListQuery(textmatch, status).sql, " AND ")
         == if Truthy(textmatch) && Truthy(status) then 1 else 0
  {
    ListQueryCases(textmatch, status);
    KeywordLetters();
    var t, s := Truthy(textmatch), Truthy(status);
    if !t && !s {
      NeverOccurs(SelectSql, " AND ", 2);
    } else if t && !s {
      NeverOccurs(SelectSql + " WHERE " + TextClause, " AND ", 2);
    } else if !t && s {
      NeverOccurs(SelectSql + " WHERE " + StatusClause, " AND ", 2);
    } else {
      OccursOnce(SelectSql + " WHERE " + TextClause, " AND ", StatusClause, 2);
    }
  }

  // Facts about the pieces of the listing query, each small enough for the verifier to read off.

  /** `W` occurs only in ` WHERE ` and `N` only in ` AND `. */
  lemma KeywordLetters()
    ensures " WHERE "[1] == 'W' && Count(" WHERE ", 'W') == 1 && 'N' !in " WHERE "
    ensures " AND "[2] == 'N' && Count(" AND ", 'N') == 1 && 'W' !in " AND "
    ensures 'W' !in SelectSql && 'W' !in TextClause && 'W' !in StatusClause
    ensures 'N' !in SelectSql && 'N' !in TextClause && 'N' !in StatusClause
  {
    WhereLetter();
    AndLetter();
    SelectLetters();
    ClauseLetters();
  }

  lemma WhereLetter()
    ensures " WHERE "[1] == 'W' && Count(" WHERE ", 'W') == 1 && 'N' !in " WHERE "
  {
  }

  lemma AndLetter()
    ensures " AND "[2] == 'N' && Count(" AND ", 'N') == 1 && 'W' !in " AND "
  {
  }

  lemma SelectLetters()
    ensures 'W' !in SelectSql && 'N' !in SelectSql
  {
  }

  lemma ClauseLetters()
    ensures 'W' !in TextClause && 'W' !in StatusClause
    ensures 'N' !in TextClause && 'N' !in StatusClause
  {
  }

  lemma NoPercentInPieces()
    ensures '%' !in SelectSql && '%' !in " WHERE " && '%' !in " AND "
  {
  }

  lemma TextFilterPlaceholders()
    ensures Placeholders(SelectSql + " WHERE " + TextClause) == 1
  {
    var pieces := [SelectSql + " WHERE " + "text LIKE ", " ESCAPE ''"];
    NoPercentInPieces();
    assert SelectSql + " WHERE " + TextClause == Fill(pieces);
    PlaceholdersOfFill(pieces);
  }

  lemma StatusFilterPlaceholders()
    ensures Placeholders(SelectSql + " WHERE " + StatusClause) == 1
  {
    var pieces := [SelectSql + " WHERE " + "status = ", ""];
    NoPercentInPieces();
    assert SelectSql + " WHERE " + StatusClause == Fill(pieces);
    PlaceholdersOfFill(pieces);
  }

  lemma BothFiltersPlaceholders()
    ensures Placeholders(SelectSql + " WHERE " + TextClause + " AND " + StatusClause) == 2
  {
    var head := SelectSql + " WHERE " + TextClause;
    var tail := " AND " + StatusClause;
    assert head + " AND " + StatusClause == head + tail;
    TextFilterPlaceholders();
    TextClauseLast();
    assert head[|head| - 1] == TextClause[|TextClause| - 1];
    AndStatusPlaceholders();
    PlaceholdersConcat(head, tail);
  }

  lemma TextClauseLast()
    ensures TextClause[|TextClause| - 1] == '\''
  {
  }

  lemma AndStatusPlaceholders()
    ensures Placeholders(" AND " + StatusClause) == 1
  {
    assert " AND " + StatusClause == Fill([" AND status = ", ""]);
    PlaceholdersOfFill([" AND status = ", ""]);
  }

  // The fixed statement texts, spelled out.

  /** A template of two pieces is the pair with one placeholder between them. */
  lemma FillTwo(a: string, b: string)
    ensures Fill([a, b]) == a + "%s" + b
  {
    assert [a, b][1..] == [b];
  }

  /** A template of four pieces, with three placeholders. */
  lemma FillFour(a: string, b: string, c: string, d: string)
    ensures Fill([a, b, c, d]) == a + "%s" + b + "%s" + c + "%s" + d
  {
    assert [a, b, c, d][1..] == [b, c, d];
    assert [b, c, d][1..] == [c, d];
    FillTwo(c, d);
  }

  lemma InsertText()
    ensures InsertSql == "INSERT INTO todo (todo_id, text, status) VALUES (%s, %s, %s)"
  {
    var head := "INSERT INTO todo " + "(todo_id, text, status)" + " VALUES (";
    FillFour(head, ", ", ", ", ")");
    assert InsertSql == head + "%s, %s, %s)";
    InsertHead();
    InsertTail(head);
  }

  lemma InsertHead()
    ensures "INSERT INTO todo " + "(todo_id, text, status)" + " VALUES ("
         == "INSERT INTO todo (todo_id, text, status) VALUES ("
  {
  }

  lemma InsertTail(head: string)
    requires head == "INSERT INTO todo (todo_id, text, status) VALUES ("
    ensures head + "%s, %s, %s)" == "INSERT INTO todo (todo_id, text, status) VALUES (%s, %s, %s)"
  {
  }

  lemma SelectByIdText()
    ensures SelectByIdSql == "SELECT todo_id, text, status FROM todo WHERE todo_id=%s"
  {
    FillTwo(SelectSql + " WHERE todo_id=", "");
  }

  lemma UpdateText()
    ensures UpdateSql == "UPDATE todo SET text=%s, status=%s WHERE todo_id=%s"
  {
    FillFour("UPDATE todo SET text=", ", status=", " WHERE todo_id=", "");
  }

  lemma DeleteText()
    ensures DeleteSql == "DELETE FROM todo WHERE todo_id=%s"
  {
    FillTwo("DELETE FROM todo " + "WHERE todo_id=", "");
  }

  // ---------------------------------------------------------------------------------------
  // The operations of TodoDB.

  /** `create`: one INSERT of the stringified id, the text and the status. */
  method Create(payload: Todo) returns (exec: Execution)
    ensures exec == Bound(InsertSql, [Some(Str(payload.id)), payload.text, payload.status])
    ensures WellFormed(exec)
  {
    exec := Bound(InsertSql, [Some(Str(payload.id)), payload.text, payload.status]);
    InsertWellFormed(exec.params);
  }

  /** `get`: a SELECT by id; no row gives null, a row gives a Todo with its columns reordered. */
  method Get(todoid: Param, row: Option<Row>) returns (exec: Execution, t: Todo?)
    requires row.Some? ==> |row.value| == 3
    ensures exec == Bound(SelectByIdSql, [todoid]) && WellFormed(exec)
    ensures t == null <==> row.None?
    ensures t != null ==> t.Value() == RowFields(row.value)
  {
    exec := Bound(SelectByIdSql, [todoid]);
    SelectByIdWellFormed(exec.params);
    if row.Some? {
      var r := row.value;
      t := new Todo(Some(r[1]), Some(r[0]), Some(r[2]));
    } else {
      t := null;
    }
  }

  /**
   * The first half of `list`: grows the SQL text and the parameter list filter by filter,
   * steered by whether a WHERE has been written yet, and executes without a parameter tuple
   * when no filter was added.
   */
  method ListStatement(textmatch: Option<string>, status: Option<string>) returns (exec: Execution)
    ensures exec == ListQuery(textmatch, status)
  {
    var sql := SelectSql;
    var parameters: seq<Param> := [];
    var firstWhereCriteria := true;
    if Truthy(textmatch) {
      sql := sql + (if firstWhereCriteria then " WHERE " else "");
      sql := sql + TextClause;
      parameters := parameters + [Some("%" + textmatch.value + "%")];
      firstWhereCriteria := false;
    }
    assert Truthy(textmatch) ==> sql == SelectSql + " WHERE " + TextClause;
    if Truthy(status) {
      sql := sql + (if firstWhereCriteria then " WHERE " else "");
      sql := sql + (if !firstWhereCriteria then " AND " else "");
      sql := sql + StatusClause;
      parameters := parameters + [status];
      firstWhereCriteria := false;
    }
    if parameters == [] {
      exec := Plain(sql);
    } else {
      exec := Bound(sql, parameters);
    }
    ListQueryCases(textmatch, status);
  }

  /** `list`: executes the statement above, then makes one Todo per cursor row, in cursor order. */
  method List(textmatch: Option<string>, status: Option<string>, cursor: seq<Row>)
    returns (exec: Execution, found: seq<Todo>)
    requires forall row | row in cursor :: |row| == 3
    ensures exec == ListQuery(textmatch, status)
    ensures |found| == |cursor|
    ensures forall k | 0 <= k < |cursor| :: found[k].Value() == RowFields(cursor[k])
  {
    exec := ListStatement(textmatch, status);
    found := TodosOfRows(cursor);
  }

  /** The second half of `list`: the loop over the cursor. */
  method TodosOfRows(cursor: seq<Row>) returns (found: seq<Todo>)
    requires forall row | row in cursor :: |row| == 3
    ensures |found| == |cursor|
    ensures forall k | 0 <= k < |cursor| :: found[k].Value() == RowFields(cursor[k])
  {
    found := [];
    var i := 0;
    while i < |cursor|
      invariant 0 <= i <= |cursor| && |found| == i
      invariant forall k | 0 <= k < i :: found[k].Value() == RowFields(cursor[k])
    {
      var row := cursor[i];
      var t := new Todo(Some(row[1]), Some(row[0]), Some(row[2]));
      found := found + [t];
      i := i + 1;
    }
  }

  /** `update`: an UPDATE by the stringified id, then `get` on the payload's own id. */
  method Update(payload: Todo, reread: Option<Row>) returns (execs: seq<Execution>, t: Todo?)
    requires reread.Some? ==> |reread.value| == 3
    ensures execs == [Bound(UpdateSql, [payload.text, payload.status, Some(Str(payload.id))]),
                      Bound(SelectByIdSql, [payload.id])]
    ensures WellFormed(execs[0]) && WellFormed(execs[1])
    ensures t == null <==> reread.None?
    ensures t != null ==> t.Value() == RowFields(reread.value)
  {
    var update := Bound(UpdateSql, [payload.text, payload.status, Some(Str(payload.id))]);
    UpdateWellFormed(update.params);
    var select;
    select, t := Get(payload.id, reread);
    execs := [update, select];
  }

  /** `delete`: a DELETE by id; it succeeded exactly when one row was affected. */
  method Delete(todoid: string, rowcount: int) returns (exec: Execution, ok: bool)
    ensures exec == Bound(DeleteSql, [Some(todoid)]) && WellFormed(exec)
    ensures ok <==> rowcount == 1
  {
    exec := Bound(DeleteSql, [Some(todoid)]);
    DeleteWellFormed(exec.params);
    ok := rowcount == 1;
  }

  // ---------------------------------------------------------------------------------------
  // Facts about the fixed statements.

  // The fixed statements have one placeholder per parameter. Each text is cut into pieces
  // between its placeholders, and long pieces into shorter ones, so that the verifier reads
  // short literals only.

  lemma InsertWellFormed(params: seq<Param>)
    requires |params| == 3
    ensures WellFormed(Bound(InsertSql, params))
  {
    var pieces := ["INSERT INTO todo " + "(todo_id, text, status)" + " VALUES (", ", ", ", ", ")"];
    assert '%' !in "INSERT INTO todo " && '%' !in "(todo_id, text, status)" && '%' !in " VALUES (";
    assert InsertSql == Fill(pieces);
    PlaceholdersOfFill(pieces);
  }

  lemma SelectByIdWellFormed(params: seq<Param>)
    requires |params| == 1
    ensures WellFormed(Bound(SelectByIdSql, params))
  {
    var pieces := [SelectSql + " WHERE todo_id=", ""];
    NoPercentInPieces();
    assert SelectByIdSql == Fill(pieces);
    PlaceholdersOfFill(pieces);
  }

  lemma UpdateWellFormed(params: seq<Param>)
    requires |params| == 3
    ensures WellFormed(Bound(UpdateSql, params))
  {
    var pieces := ["UPDATE todo SET text=", ", status=", " WHERE todo_id=", ""];
    assert UpdateSql == Fill(pieces);
    PlaceholdersOfFill(pieces);
  }

  lemma DeleteWellFormed(params: seq<Param>)
    requires |params| == 1
    ensures WellFormed(Bound(DeleteSql, params))
  {
    var pieces := ["DELETE FROM todo " + "WHERE todo_id=", ""];
    assert '%' !in "DELETE FROM todo " && '%' !in "WHERE todo_id=";
    assert DeleteSql == Fill(pieces);
    PlaceholdersOfFill(pieces);
  }
}
