/** `UPDATE` statements: `UPDATE [OR <action>] <table> SET <assignments> [WHERE <predicate>]`
    together with the list of argument types its `?` placeholders bind. The
    assignments a `ColumnValues` collects and the predicate are rendered by
    code outside this model, so each arrives as a fragment (its SQL text and
    the types of the arguments that text binds). */
module UpdateStatements {
  import opened Wrappers
  import opened SqlText
  import opened Columns

  /** The SQL text of each fragment, in order. */
  function Texts(fs: seq<SqlFragment>): (r: seq<string>)
    ensures |r| == |fs| && forall i :: 0 <= i < |fs| ==> r[i] == fs[i].sql
  {
    seq(|fs|, i requires 0 <= i < |fs| => fs[i].sql)
  }

  /** The argument types of a run of fragments, concatenated in order. */
  function ConcatTypes(fs: seq<SqlFragment>): seq<PersistentType>
  {
    if fs == [] then [] else ConcatTypes(fs[..|fs| - 1]) + fs[|fs| - 1].types
  }

  /** The statement that `buildStatement` produces after the `UPDATE [OR …] <table>`
      head: the SET clause, assignments separated by ", ", and the WHERE clause
      when a predicate is given; argument types in the order their text appears. */
  function UpdateSql(head: string, assignments: seq<SqlFragment>, where: Option<SqlFragment>): SqlFragment
  {
    var setPart := SqlFragment(head + " SET " + JoinWith(", ", Texts(assignments)), ConcatTypes(assignments));
    match where
    case None => setPart
    case Some(w) => SqlFragment(setPart.sql + " WHERE " + w.sql, setPart.types + w.types)
  }

  /** The `UPDATE [OR …] <table>` head: the conflict clause's text followed by
      the table's identity. */
  function UpdateHead(onConflict: OnConflict, updateOr: OnConflict -> string, table: Table): string
  {
    updateOr(onConflict) + table.identity.value
  }

  /** A built statement: its SQL and argument types are fixed at construction. */
  datatype UpdateStatement = UpdateStatement(sql: string, types: seq<PersistentType>)

  /** `buildStatement`: appends the head, then each assignment, then the
      predicate, to one builder. */
  method BuildStatement(onConflict: OnConflict, updateOr: OnConflict -> string, table: Table,
                        where: Option<SqlFragment>, assignments: seq<SqlFragment>)
    returns (r: UpdateStatement)
    ensures r.sql == UpdateSql(UpdateHead(onConflict, updateOr, table), assignments, where).sql
    ensures r.types == UpdateSql(UpdateHead(onConflict, updateOr, table), assignments, where).types
  {
    var head := updateOr(onConflict) + table.identity.value;
    var sql := head + " SET ";
    var types: seq<PersistentType> := [];
    var i := 0;
    while i < |assignments|
      invariant 0 <= i <= |assignments|
      invariant i == 0 ==> sql == head + " SET "
      invariant i > 0 ==> sql == head + " SET " + JoinWith(", ", Texts(assignments[..i]))
      invariant types == ConcatTypes(assignments[..i])
    {
      var a := assignments[i];
      assert Texts(assignments[..i + 1]) == Texts(assignments[..i]) + [a.sql];
      assert assignments[..i + 1][..i] == assignments[..i];
      if i > 0 {
        JoinWithSnoc(", ", Texts(assignments[..i]), a.sql);
        sql := sql + ", " + a.sql;
      } else {
        sql := sql + a.sql;
      }
      types := types + a.types;
      i := i + 1;
    }
    assert assignments[..i] == assignments;
    match where {
      case None =>
      case Some(w) =>
        sql := sql + " WHERE " + w.sql;
        types := types + w.types;
    }
    r := UpdateStatement(sql, types);
  }

  /** `UpdateStatement(table, onConflict, assignColumns)`: no WHERE clause. */
  method Invoke(table: Table, onConflict: OnConflict, updateOr: OnConflict -> string, assignments: seq<SqlFragment>)
    returns (r: UpdateStatement)
    ensures r.sql == UpdateSql(UpdateHead(onConflict, updateOr, table), assignments, None).sql
    ensures r.types == ConcatTypes(assignments)
  {
    r := BuildStatement(onConflict, updateOr, table, None, assignments);
  }

  /** `UpdateStatement(table, onConflict, where, assignColumns)`. */
  method InvokeWhere(table: Table, onConflict: OnConflict, updateOr: OnConflict -> string, where: SqlFragment,
                     assignments: seq<SqlFragment>)
    returns (r: UpdateStatement)
    ensures r.sql == UpdateSql(UpdateHead(onConflict, updateOr, table), assignments, None).sql + " WHERE " + where.sql
    ensures r.types == ConcatTypes(assignments) + where.types
  {
    r := BuildStatement(onConflict, updateOr, table, Some(where), assignments);
  }

  /** `updateAll`: an update of every row. */
  method UpdateAll(table: Table, onConflict: OnConflict, updateOr: OnConflict -> string, assignments: seq<SqlFragment>)
    returns (r: UpdateStatement)
    ensures r.sql == UpdateSql(UpdateHead(onConflict, updateOr, table), assignments, None).sql
    ensures r.types == ConcatTypes(assignments)
  {
    r := Invoke(table, onConflict, updateOr, assignments);
  }

  /** `update(onConflict, assignColumns)`: remembers the table, the conflict
      action and the assignments until a predicate is supplied. */
  datatype UpdateBuilder = UpdateBuilder(table: Table, onConflict: OnConflict, assignments: seq<SqlFragment>)
  {
    /** `where { … }`: the predicate is evaluated against the builder's own
        table, and the builder's conflict action and assignments are kept. */
    method Where(updateOr: OnConflict -> string, where: Table -> SqlFragment) returns (r: UpdateStatement)
      ensures r.sql == UpdateSql(UpdateHead(onConflict, updateOr, table), assignments, None).sql
                       + " WHERE " + where(table).sql
      ensures r.types == ConcatTypes(assignments) + where(table).types
    {
      r := InvokeWhere(table, onConflict, updateOr, where(table), assignments);
    }
  }

  function Update(table: Table, onConflict: OnConflict, assignments: seq<SqlFragment>): (r: UpdateBuilder)
    ensures r.table == table && r.onConflict == onConflict && r.assignments == assignments
  {
    UpdateBuilder(table, onConflict, assignments)
  }

  /** Type lists concatenate along with the fragments they come from. */
  lemma {:induction false} ConcatTypesAppend(a: seq<SqlFragment>, b: seq<SqlFragment>)
    ensures ConcatTypes(a + b) == ConcatTypes(a) + ConcatTypes(b)
  {
    if b != [] {
      assert (a + b)[..|a + b| - 1] == a + b[..|b| - 1];
      ConcatTypesAppend(a, b[..|b| - 1]);
    } else {
      assert a + b == a;
    }
  }

  /** Joining well-formed fragments with a separator free of `?` gives text
      with exactly one placeholder per collected argument type. */
  lemma {:induction false} JoinedPlaceholders(sep: string, fs: seq<SqlFragment>)
    requires Placeholders(sep) == 0
    requires forall i :: 0 <= i < |fs| ==> WellFormed(fs[i])
    ensures Placeholders(JoinWith(sep, Texts(fs))) == |ConcatTypes(fs)|
  {
    if |fs| == 1 {
      assert fs[..0] == [];
    } else if |fs| > 1 {
      var init := fs[..|fs| - 1];
      var last := fs[|fs| - 1];
      assert Texts(fs) == Texts(init) + [last.sql];
      JoinWithSnoc(sep, Texts(init), last.sql);
      JoinedPlaceholders(sep, init);
      PlaceholdersConcat(JoinWith(sep, Texts(init)), sep);
      PlaceholdersConcat(JoinWith(sep, Texts(init)) + sep, last.sql);
      assert WellFormed(last);
    }
  }

  /** Every built statement binds exactly as many arguments as its text has
      placeholders, when the head has none and each piece is well formed. */
  lemma UpdateSqlWellFormed(head: string, assignments: seq<SqlFragment>, where: Option<SqlFragment>)
    requires Placeholders(head) == 0
    requires forall i :: 0 <= i < |assignments| ==> WellFormed(assignments[i])
    requires where.Some? ==> WellFormed(where.value)
    ensures WellFormed(UpdateSql(head, assignments, where))
  {
    var joined := JoinWith(", ", Texts(assignments));
    assert Placeholders(" SET ") == 0;
    assert Placeholders(", ") == 0;
    JoinedPlaceholders(", ", assignments);
    PlaceholdersConcat(head, " SET ");
    PlaceholdersConcat(head + " SET ", joined);
    if where.Some? {
      var setText := head + " SET " + joined;
      assert Placeholders(" WHERE ") == 0;
      PlaceholdersConcat(setText, " WHERE ");
      PlaceholdersConcat(setText + " WHERE ", where.value.sql);
    }
  }

  /** The statement begins with its head and the SET keyword, and a WHERE
      clause adds its text at the end and its argument types after those of
      the assignments. */
  lemma UpdateSqlLayout(head: string, assignments: seq<SqlFragment>, where: Option<SqlFragment>)
    ensures var r := UpdateSql(head, assignments, where);
      && |head| + 5 <= |r.sql| && r.sql[..|head| + 5] == head + " SET "
      && |ConcatTypes(assignments)| <= |r.types| && r.types[..|ConcatTypes(assignments)|] == ConcatTypes(assignments)
      && (where.None? ==> r.types == ConcatTypes(assignments))
      && (where.Some? ==> |r.sql| >= |where.value.sql| + 7
                          && r.sql[|r.sql| - |where.value.sql| - 7..] == " WHERE " + where.value.sql)
  {
    var setText := head + " SET " + JoinWith(", ", Texts(assignments));
    assert (head + " SET " + JoinWith(", ", Texts(assignments)))[..|head| + 5] == head + " SET ";
    if where.Some? {
      var w := where.value;
      assert (setText + " WHERE " + w.sql)[..|head| + 5] == setText[..|head| + 5];
      assert (setText + " WHERE " + w.sql)[|setText|..] == " WHERE " + w.sql;
    }
  }

  /** The database a statement is compiled against: it records the SQL text
      and argument types of every statement it compiles. */
  class Database {
    var compiled: seq<UpdateStatement>

    constructor ()
      ensures compiled == []
    {
      compiled := [];
    }
  }

  /** `execute`: compiles the statement's fixed SQL with its fixed types. */
  method Execute(statement: UpdateStatement, db: Database)
    modifies db
    ensures db.compiled == old(db.compiled) + [statement]
  {
    db.compiled := db.compiled + [statement];
  }

  /** Executing a statement twice compiles the same SQL with the same types
      both times. */
  method ExecuteTwiceExample(table: Table, updateOr: OnConflict -> string, assignments: seq<SqlFragment>,
                             where: Table -> SqlFragment)
  {
    var db := new Database();
    var statement := Update(table, Columns.Replace, assignments).Where(updateOr, where);
    Execute(statement, db);
    Execute(statement, db);
    assert db.compiled[0] == db.compiled[1] == statement;
    assert db.compiled[1].types == ConcatTypes(assignments) + where(table).types;
  }
}
