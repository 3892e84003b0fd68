/** Triggers: a trigger's statements are collected in call order by a
    statement collector, checked when the trigger is constructed, and
    rendered as `CREATE [TEMP ]TRIGGER IF NOT EXISTS …` and
    `DROP TRIGGER IF EXISTS …` text. The statements themselves (insert,
    delete, update, select) are built outside this model and arrive as seeds:
    their SQL text and the types of the arguments that text would bind. */
module Triggers {
  import opened Wrappers
  import opened SqlText
  import opened Columns

  const CreateTriggerPrefix := "CREATE TRIGGER IF NOT EXISTS "
  const CreateTempTriggerPrefix := "CREATE TEMP TRIGGER IF NOT EXISTS "
  const DropTriggerPrefix := "DROP TRIGGER IF EXISTS "

  datatype BeforeAfter = Before | After
  {
    function Value(): string
    {
      match this
      case Before => " BEFORE"
      case After => " AFTER"
    }
  }

  datatype Event = Insert | Update | Delete
  {
    function Value(): string
    {
      match this
      case Insert => " INSERT"
      case Update => " UPDATE"
      case Delete => " DELETE"
    }
  }

  datatype TriggerError =
    | NoStatements
      /** A body statement would bind arguments; carries its SQL. */
    | BindableArguments(sql: string)
      /** `NEW.` used in a DELETE trigger. */
    | NewNotValid
      /** `OLD.` used in an INSERT trigger. */
    | OldNotValid
      /** The column is not one of the trigger table's; carries that table's name. */
    | NotTriggerTableColumn(tableName: string)

  /** A constructed trigger. Every value `NewTrigger` returns has at least
      one statement. */
  datatype Trigger = Trigger(
    identity: Identity,
    temp: bool,
    beforeAfter: BeforeAfter,
    event: Event,
    updateCols: seq<Column>,
    table: Table,
    whenCondition: Option<string>,
    statements: seq<StatementSeed>)

  /** The trigger constructor: rejects an empty statement list. */
  function NewTrigger(name: string, quote: string -> string, temp: bool, beforeAfter: BeforeAfter, event: Event,
                      updateCols: seq<Column>, table: Table, whenCondition: Option<string>,
                      statements: seq<StatementSeed>): (r: Result<Trigger, TriggerError>)
    ensures r.Err? <==> statements == []
    ensures r.Err? ==> r.error == NoStatements
    ensures r.Ok? ==> r.value.identity.unquoted == name && r.value.statements == statements
                      && r.value.temp == temp && r.value.event == event && r.value.updateCols == updateCols
  {
    if statements == [] then Err(NoStatements)
    else Ok(Trigger(MakeIdentity(name, quote), temp, beforeAfter, event, updateCols, table, whenCondition,
                    statements))
  }

  /** The identities of the update columns. */
  function ColumnIdentities(cols: seq<Column>, quote: string -> string): (r: seq<string>)
    ensures |r| == |cols| && forall i :: 0 <= i < |cols| ==> r[i] == cols[i].Identity(quote).value
  {
    seq(|cols|, i requires 0 <= i < |cols| => cols[i].Identity(quote).value)
  }

  /** ` OF <col>, <col>…` for an UPDATE trigger naming columns; empty otherwise. */
  function OfClause(event: Event, updateCols: seq<Column>, quote: string -> string): string
  {
    if event == Update && updateCols != [] then " OF " + JoinWith(", ", ColumnIdentities(updateCols, quote))
    else ""
  }

  function WhenClause(whenCondition: Option<string>): string
  {
    match whenCondition
    case None => ""
    case Some(cond) => " WHEN " + cond
  }

  /** Everything before ` BEGIN `. */
  function HeaderSql(t: Trigger, quote: string -> string): string
  {
    (if t.temp then CreateTempTriggerPrefix else CreateTriggerPrefix)
    + t.identity.value + t.beforeAfter.Value() + t.event.Value()
    + OfClause(t.event, t.updateCols, quote)
    + " ON " + t.table.identity.value + WhenClause(t.whenCondition)
  }

  /** Each statement followed by `; `, in order. */
  function BodySql(statements: seq<StatementSeed>): string
  {
    if statements == [] then ""
    else BodySql(statements[..|statements| - 1]) + statements[|statements| - 1].sql + "; "
  }

  /** The position of the first statement that would bind arguments. */
  function FirstBindable(statements: seq<StatementSeed>): (r: Option<nat>)
    ensures r.None? <==> forall i :: 0 <= i < |statements| ==> statements[i].types == []
    ensures r.Some? ==> r.value < |statements| && statements[r.value].types != []
                        && forall i :: 0 <= i < r.value ==> statements[i].types == []
  {
    if statements == [] then None
    else
      var init := statements[..|statements| - 1];
      match FirstBindable(init)
      case Some(i) => Some(i)
      case None =>
        if statements[|statements| - 1].types != [] then Some(|statements| - 1) else None
  }

  /** The `CREATE TRIGGER` text, or the error for the first statement that
      would bind arguments. */
  function CreateSql(t: Trigger, quote: string -> string): Result<string, TriggerError>
  {
    match FirstBindable(t.statements)
    case Some(i) => Err(BindableArguments(t.statements[i].sql))
    case None => Ok(HeaderSql(t, quote) + " BEGIN " + BodySql(t.statements) + "END;")
  }

  /** The `forEachIndexed` loop of `makeCreateStatement`: each update
      column's identity, followed by ", " unless it is the last. */
  method AppendUpdateColumns(sb: string, cols: seq<Column>, quote: string -> string) returns (r: string)
    requires cols != []
    ensures r == sb + JoinWith(", ", ColumnIdentities(cols, quote))
  {
    ghost var ids := ColumnIdentities(cols, quote);
    r := sb;
    var n := |cols|;
    for index := 0 to n
      invariant index == 0 ==> r == sb
      invariant 0 < index < n ==> r == sb + JoinWith(", ", ids[..index]) + ", "
      invariant index == n ==> r == sb + JoinWith(", ", ids)
    {
      var id := cols[index].Identity(quote).value;
      assert ids[..index + 1] == ids[..index] + [id];
      if index > 0 {
        JoinWithSnoc(", ", ids[..index], id);
      }
      r := r + id;
      if index < n - 1 {
        r := r + ", ";
      }
      if index + 1 == n {
        assert ids[..index + 1] == ids;
      }
    }
  }

  /** The `forEach` loop of `makeCreateStatement`: each statement followed by
      `; `, stopping at the first one that would bind arguments. */
  method AppendStatements(sb: string, statements: seq<StatementSeed>) returns (r: Result<string, TriggerError>)
    ensures FirstBindable(statements).Some? ==>
      r == Err(BindableArguments(statements[FirstBindable(statements).value].sql))
    ensures FirstBindable(statements).None? ==> r == Ok(sb + BodySql(statements))
  {
    var text := sb;
    for i := 0 to |statements|
      invariant FirstBindable(statements[..i]).None?
      invariant text == sb + BodySql(statements[..i])
    {
      var statement := statements[i];
      assert statements[..i + 1][..i] == statements[..i];
      if statement.types != [] {
        FirstBindableAt(statements, i);
        return Err(BindableArguments(statement.sql));
      }
      text := text + statement.sql + "; ";
    }
    assert statements[..|statements|] == statements;
    r := Ok(text);
  }

  /** `makeCreateStatement`: appends the header, the update columns and the
      statements to one builder. */
  method MakeCreateStatement(t: Trigger, quote: string -> string) returns (r: Result<string, TriggerError>)
    ensures r == CreateSql(t, quote)
  {
    var sb := (if t.temp then CreateTempTriggerPrefix else CreateTriggerPrefix)
              + t.identity.value + t.beforeAfter.Value() + t.event.Value();
    ghost var start := sb;
    if t.event == Update && |t.updateCols| > 0 {
      sb := AppendUpdateColumns(sb + " OF ", t.updateCols, quote);
    }
    assert sb == start + OfClause(t.event, t.updateCols, quote);
    sb := sb + " ON " + t.table.identity.value;
    match t.whenCondition {
      case None =>
      case Some(cond) => sb := sb + " WHEN " + cond;
    }
    assert sb == HeaderSql(t, quote);
    var body := AppendStatements(sb + " BEGIN ", t.statements);
    match body {
      case Ok(text) => r := Ok(text + "END;");
      case Err(e) => r := Err(e);
    }
  }

  /** The first statement that binds arguments, found after a run of
      statements that bind none, is the first one overall. */
  lemma FirstBindableAt(statements: seq<StatementSeed>, i: nat)
    requires i < |statements| && statements[i].types != []
    requires FirstBindable(statements[..i]).None?
    ensures FirstBindable(statements) == Some(i)
  {
    var prefix := statements[..i];
    forall j | 0 <= j < i
      ensures statements[j].types == []
    {
      assert prefix[j] == statements[j];
    }
    var r := FirstBindable(statements);
    assert statements[i].types != [];
    assert r.Some?;
    assert statements[r.value].types != [];
    assert r.value >= i;
    assert r.value <= i;
  }

  /** `makeDropStatement`. */
  function DropSql(t: Trigger): (r: string)
    ensures |r| == |DropTriggerPrefix| + |t.identity.value|
    ensures r[..|DropTriggerPrefix|] == DropTriggerPrefix && r[|DropTriggerPrefix|..] == t.identity.value
  {
    DropTriggerPrefix + t.identity.value
  }

  /** The create text fails exactly when some statement would bind arguments,
      and then names the first such statement's SQL. */
  lemma CreateFailsIffBindable(t: Trigger, quote: string -> string)
    ensures CreateSql(t, quote).Err? <==> exists i :: 0 <= i < |t.statements| && t.statements[i].types != []
    ensures CreateSql(t, quote).Err? ==>
      exists i :: 0 <= i < |t.statements| && t.statements[i].types != []
        && (forall j :: 0 <= j < i ==> t.statements[j].types == [])
        && CreateSql(t, quote).error == BindableArguments(t.statements[i].sql)
  {
  }

  /** Statements are rendered in order: the text of a concatenation is the
      concatenation of the texts. */
  lemma {:induction false} BodySqlAppend(a: seq<StatementSeed>, b: seq<StatementSeed>)
    ensures BodySql(a + b) == BodySql(a) + BodySql(b)
  {
    if b == [] {
      assert a + b == a;
    } else {
      var init := b[..|b| - 1];
      var last := b[|b| - 1];
      assert (a + b)[..|a + b| - 1] == a + init;
      BodySqlAppend(a, init);
    }
  }

  /** The create text and the drop text name the same trigger: the identity
      follows the create prefix exactly as it follows the drop prefix. */
  lemma CreateAndDropNameTheSameTrigger(t: Trigger, quote: string -> string)
    requires CreateSql(t, quote).Ok?
    ensures var prefix := if t.temp then CreateTempTriggerPrefix else CreateTriggerPrefix;
      var sql := CreateSql(t, quote).value;
      && |prefix| + |t.identity.value| <= |sql|
      && sql[..|prefix|] == prefix
      && sql[|prefix|..|prefix| + |t.identity.value|] == DropSql(t)[|DropTriggerPrefix|..]
  {
    var prefix := if t.temp then CreateTempTriggerPrefix else CreateTriggerPrefix;
    var head := prefix + t.identity.value;
    var k := |head|;
    var s1 := head + t.beforeAfter.Value();
    KeepsPrefix(head, t.beforeAfter.Value(), k);
    var s2 := s1 + t.event.Value();
    KeepsPrefix(s1, t.event.Value(), k);
    var s3 := s2 + OfClause(t.event, t.updateCols, quote);
    KeepsPrefix(s2, OfClause(t.event, t.updateCols, quote), k);
    var s4 := s3 + " ON ";
    KeepsPrefix(s3, " ON ", k);
    var s5 := s4 + t.table.identity.value;
    KeepsPrefix(s4, t.table.identity.value, k);
    var s6 := s5 + WhenClause(t.whenCondition);
    KeepsPrefix(s5, WhenClause(t.whenCondition), k);
    assert s6 == HeaderSql(t, quote);
    var s7 := s6 + " BEGIN ";
    KeepsPrefix(s6, " BEGIN ", k);
    var s8 := s7 + BodySql(t.statements);
    KeepsPrefix(s7, BodySql(t.statements), k);
    var sql := s8 + "END;";
    KeepsPrefix(s8, "END;", k);
    assert sql == CreateSql(t, quote).value;
    assert sql[..k] == head;
    assert head[..|prefix|] == prefix && head[|prefix|..] == t.identity.value;
  }

  lemma KeepsPrefix(x: string, y: string, k: nat)
    requires k <= |x|
    ensures (x + y)[..k] == x[..k]
  {
  }

  /** The body lists the statements with their `; ` terminators: a trigger
      with one statement has `<sql>; ` as its whole body. */
  lemma BodyOfOneStatement(s: StatementSeed)
    ensures BodySql([s]) == s.sql + "; "
  {
    assert [s][..0] == [];
  }

  /** `NEW`/`OLD` qualifiers. */
  datatype NewOrOld = New | Old
  {
    function Value(): string
    {
      match this
      case New => "NEW."
      case Old => "OLD."
    }
  }

  /** A column seen through `NEW.` or `OLD.`: every attribute is the original
      column's except its name, identity and rendering. */
  datatype NewOrOldColumn = NewOrOldColumn(original: Column, newOrOld: NewOrOld)
  {
    /** The qualified name: qualifier, then the original name. */
    function Name(): (r: string)
      ensures |r| == 4 + |original.name| && r[..4] == newOrOld.Value() && r[4..] == original.name
    {
      newOrOld.Value() + original.name
    }

    function Identity(quote: string -> string): (r: Identity)
      ensures r.unquoted == Name() && r.value == quote(Name())
    {
      MakeIdentity(Name(), quote)
    }

    /** Rendered as the bare qualified name, with no table qualifier and no
        quoting. */
    function AppendTo(): (r: string)
      ensures r == Name()
      ensures r[..4] == "NEW." || r[..4] == "OLD."
    {
      Name()
    }

    function ColumnTable(): (r: Table)
      ensures r == original.table
    {
      original.table
    }
  }

  /** One call made inside a trigger's statement block. An update with no
      following `where` is recorded with no predicate. */
  datatype StatementCall =
    | InsertCall(seed: StatementSeed)
    | DeleteCall(seed: StatementSeed)
    | UpdateCall(pending: PendingUpdate, where: Option<Table -> SqlFragment>)
    | SelectWhereCall(seed: StatementSeed)

  /** `update(onConflict, assignColumns)` inside a trigger: the table updated
      and how its seed is built once the predicate is known. */
  datatype PendingUpdate = PendingUpdate(table: Table, seedWith: SqlFragment -> StatementSeed)

  /** The statements a block of calls collects, in call order. */
  function Collected(calls: seq<StatementCall>): seq<StatementSeed>
  {
    if calls == [] then []
    else
      var last := calls[|calls| - 1];
      Collected(calls[..|calls| - 1])
      + match last
        case UpdateCall(p, None) => []
        case UpdateCall(p, Some(where)) => [p.seedWith(where(p.table))]
        case _ => [last.seed]
  }

  /** True when a call adds nothing: an update never given a predicate. */
  predicate AddsNothing(call: StatementCall)
  {
    call.UpdateCall? && call.where.None?
  }

  /** Nothing is collected exactly when every call is an update without a
      predicate. */
  lemma {:induction false} CollectedEmptyIff(calls: seq<StatementCall>)
    ensures Collected(calls) == [] <==> forall i :: 0 <= i < |calls| ==> AddsNothing(calls[i])
  {
    if calls != [] {
      var init := calls[..|calls| - 1];
      CollectedEmptyIff(init);
      assert forall i :: 0 <= i < |init| ==> init[i] == calls[i];
    }
  }

  /** Collecting a block that is two blocks one after the other collects the
      first block's statements, then the second's. */
  lemma {:induction false} CollectedAppend(a: seq<StatementCall>, b: seq<StatementCall>)
    ensures Collected(a + b) == Collected(a) + Collected(b)
  {
    if b == [] {
      assert a + b == a;
    } else {
      assert (a + b)[..|a + b| - 1] == a + b[..|b| - 1];
      assert (a + b)[|a + b| - 1] == b[|b| - 1];
      CollectedAppend(a, b[..|b| - 1]);
    }
  }

  /** The statement collector of one trigger. */
  class TriggerStatements {
    const table: Table
    const event: Event
    var statements: seq<StatementSeed>

    constructor (table: Table, event: Event)
      ensures this.table == table && this.event == event && statements == []
    {
      this.table := table;
      this.event := event;
      statements := [];
    }

    /** `new(column)`: only INSERT and UPDATE triggers have a new row, and the
        column must belong to the trigger's table; the event is checked first. */
    function NewColumn(column: Column): (r: Result<NewOrOldColumn, TriggerError>)
      ensures r.Ok? <==> (event == Insert || event == Update) && column.table == table
      ensures r.Ok? ==> r.value.original == column && r.value.newOrOld == New
      ensures event.Delete? ==> r == Err(NewNotValid)
      ensures !event.Delete? && column.table != table ==> r == Err(NotTriggerTableColumn(table.tableName))
    {
      if event.Delete? then Err(NewNotValid)
      else if column.table != table then Err(NotTriggerTableColumn(table.tableName))
      else Ok(NewOrOldColumn(column, New))
    }

    /** `old(column)`: only DELETE and UPDATE triggers have an old row, and
        the column must belong to the trigger's table; the event is checked first. */
    function OldColumn(column: Column): (r: Result<NewOrOldColumn, TriggerError>)
      ensures r.Ok? <==> (event == Delete || event == Update) && column.table == table
      ensures r.Ok? ==> r.value.original == column && r.value.newOrOld == Old
      ensures event.Insert? ==> r == Err(OldNotValid)
      ensures !event.Insert? && column.table != table ==> r == Err(NotTriggerTableColumn(table.tableName))
    {
      if event.Insert? then Err(OldNotValid)
      else if column.table != table then Err(NotTriggerTableColumn(table.tableName))
      else Ok(NewOrOldColumn(column, Old))
    }

    /** `insert`, `delete` and `select(…).where(…)`: append the seed their
        statement builder made. */
    method Add(seed: StatementSeed)
      modifies this`statements
      ensures statements == old(statements) + [seed]
    {
      statements := statements + [seed];
    }

    /** `update(…).where { … }`: the predicate is evaluated against the
        updated table, and only then is a statement appended. */
    method Where(pending: PendingUpdate, where: Table -> SqlFragment)
      modifies this`statements
      ensures statements == old(statements) + [pending.seedWith(where(pending.table))]
    {
      statements := statements + [pending.seedWith(where(pending.table))];
    }

    /** Runs a block of calls, one after another. */
    method Run(calls: seq<StatementCall>)
      modifies this`statements
      ensures statements == old(statements) + Collected(calls)
    {
      for i := 0 to |calls|
        invariant statements == old(statements) + Collected(calls[..i])
      {
        var call := calls[i];
        assert calls[..i + 1][..i] == calls[..i];
        match call {
          case UpdateCall(p, None) =>
          case UpdateCall(p, Some(where)) => Where(p, where);
          case _ => Add(call.seed);
        }
      }
      assert calls[..|calls|] == calls;
    }
  }

  /** `trigger(...)`: collects the block's statements on a fresh collector
      for the table and event, and constructs the trigger with no update
      columns. */
  method TriggerOf(table: Table, name: string, quote: string -> string, beforeAfter: BeforeAfter, event: Event,
                   temporary: bool, cond: Option<string>, calls: seq<StatementCall>)
    returns (r: Result<Trigger, TriggerError>)
    ensures r == NewTrigger(name, quote, temporary, beforeAfter, event, [], table, cond, Collected(calls))
    ensures r.Err? <==> forall i :: 0 <= i < |calls| ==> AddsNothing(calls[i])
    ensures r.Ok? ==> OfClause(r.value.event, r.value.updateCols, quote) == ""
  {
    var collector := new TriggerStatements(table, event);
    collector.Run(calls);
    assert collector.statements == Collected(calls);
    CollectedEmptyIff(calls);
    r := NewTrigger(name, quote, temporary, beforeAfter, event, [], table, cond, collector.statements);
  }

  /** Runs SQL text; records what it ran. */
  class SqlExecutor {
    var executed: seq<string>

    constructor ()
      ensures executed == []
    {
      executed := [];
    }

    method Exec(sql: string)
      modifies this
      ensures executed == old(executed) + [sql]
    {
      executed := executed + [sql];
    }
  }

  /** `create(executor, temporary)`: runs the create text. The `temporary`
      argument is not consulted; the trigger's own flag decides `TEMP`. A
      statement that would bind arguments stops the creation before anything
      is run. */
  method Create(t: Trigger, quote: string -> string, executor: SqlExecutor, temporary: bool)
    returns (outcome: Outcome<TriggerError>)
    modifies executor
    ensures CreateSql(t, quote).Ok? ==> outcome == Pass && executor.executed == old(executor.executed) + [CreateSql(t, quote).value]
    ensures CreateSql(t, quote).Err? ==> outcome == Outcome.Fail(CreateSql(t, quote).error) && executor.executed == old(executor.executed)
  {
    var sql := MakeCreateStatement(t, quote);
    match sql {
      case Ok(text) =>
        executor.Exec(text);
        outcome := Pass;
      case Err(e) =>
        outcome := Outcome.Fail(e);
    }
  }

  /** `drop(executor)`: runs the drop text. */
  method Drop(t: Trigger, executor: SqlExecutor)
    modifies executor
    ensures executor.executed == old(executor.executed) + [DropSql(t)]
  {
    executor.Exec(DropTriggerPrefix + t.identity.value);
  }
}
