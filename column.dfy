/** The column model of a table definition: a column accumulates constraints
    and mutable schema fields, is numbered into the primary key, and renders
    its DDL fragment and its qualified SQL reference. */
module Columns {
  import opened Wrappers
  import opened SqlText

  datatype OnConflict = Unspecified | Rollback | Abort | Fail | Ignore | Replace

  datatype Collate = CollateBinary | CollateNoCase | CollateRTrim | CollateUser(name: string)

  datatype ForeignKeyAction = NoAction | Restrict | SetNull | SetDefault | Cascade

  /** The constraints a column's constraint collection holds, in the order
      they were added. `NotNull` stands for the NOT NULL entry the collection
      itself derives from a non-nullable persistent type. */
  datatype ColumnConstraint =
    | NotNull
    | PrimaryKey
    | Unique
    | Asc
    | Desc
    | AutoIncrement
    | ConflictConstraint(onConflict: OnConflict)
    | CollateConstraint(collate: Collate)

  datatype ForeignKeyConstraint = ForeignKeyConstraint(
    parentTable: Identity,
    parent: Column,
    childTable: Identity,
    child: Column,
    onUpdate: ForeignKeyAction,
    onDelete: ForeignKeyAction,
    name: Option<string>)

  datatype ColumnError =
    | PrimaryKeyAlreadyDefined(definingColumn: string)
    | AlreadyPartOfPrimaryKey(column: string)

  /** A table as the column sees it: its name, its identity, the columns
      registered with it and its optional composite primary key. */
  class Table {
    const tableName: string
    const identity: Identity
    var columns: seq<Column>
    var primaryKey: Option<seq<Column>>

    constructor (tableName: string, identity: Identity)
      ensures this.tableName == tableName && this.identity == identity
      ensures columns == [] && primaryKey == None
    {
      this.tableName := tableName;
      this.identity := identity;
      columns := [];
      primaryKey := None;
    }

    /** Each column is registered at most once, and the primary-key positions
        already handed out are distinct and lie in 1..(number handed out). */
    ghost predicate Valid()
      reads this, columns
    {
      && (forall i, j :: 0 <= i < j < |columns| ==> columns[i] != columns[j])
      && DenseIndices(PKIndices())
    }

    /** The `indexInPK` of every registered column, in registration order. */
    function PKIndices(): (r: seq<Option<int>>)
      reads this, columns
      ensures |r| == |columns|
      ensures forall i :: 0 <= i < |columns| ==> r[i] == columns[i].indexInPK
    {
      var cols := columns;
      seq(|cols|, i requires 0 <= i < |cols| reads cols => cols[i].indexInPK)
    }

    /** The first registered column whose constraints include PRIMARY KEY. */
    function ColumnDefiningPrimaryKey(): (r: Option<Column>)
      reads this, columns
      ensures r.None? <==> forall i :: 0 <= i < |columns| ==> PrimaryKey !in columns[i].constraints
      ensures r.Some? ==> r.value in columns && PrimaryKey in r.value.constraints
    {
      FirstDefiningPrimaryKey(columns)
    }

    /** The table's composite primary-key declaration: the key becomes
        exactly the given columns. */
    method SetPrimaryKey(keyColumns: seq<Column>)
      modifies this`primaryKey
      ensures primaryKey == Some(keyColumns)
    {
      primaryKey := Some(keyColumns);
    }

    /** The `addTo` callback a table passes when a column is created. */
    method Register(c: Column)
      requires Valid() && c !in columns && c.indexInPK == None
      modifies this`columns
      ensures Valid() && columns == old(columns) + [c]
    {
      ghost var before := PKIndices();
      columns := columns + [c];
      assert PKIndices() == before + [None];
      DenseAppendNone(before);
    }
  }

  function FirstDefiningPrimaryKey(cols: seq<Column>): (r: Option<Column>)
    reads cols
    ensures r.None? <==> forall i :: 0 <= i < |cols| ==> PrimaryKey !in cols[i].constraints
    ensures r.Some? ==> r.value in cols && PrimaryKey in r.value.constraints
  {
    if cols == [] then None
    else if PrimaryKey in cols[0].constraints then Some(cols[0])
    else FirstDefiningPrimaryKey(cols[1..])
  }

  /** Number of columns that already hold a primary-key position. */
  function CountSome(s: seq<Option<int>>): nat
  {
    if s == [] then 0 else (if s[0].Some? then 1 else 0) + CountSome(s[1..])
  }

  /** Primary-key positions are distinct and lie in 1..CountSome(s). */
  ghost predicate DenseIndices(s: seq<Option<int>>)
  {
    && (forall i :: 0 <= i < |s| && s[i].Some? ==> 1 <= s[i].value <= CountSome(s))
    && (forall i, j :: 0 <= i < j < |s| && s[i].Some? && s[j].Some? ==> s[i].value != s[j].value)
  }

  lemma {:induction false} CountSomeUpdate(s: seq<Option<int>>, pos: nat, k: int)
    requires pos < |s| && s[pos].None?
    ensures CountSome(s[pos := Some(k)]) == CountSome(s) + 1
  {
    if pos > 0 {
      assert s[pos := Some(k)][1..] == s[1..][pos - 1 := Some(k)];
      CountSomeUpdate(s[1..], pos - 1, k);
    }
  }

  lemma {:induction false} CountSomeAppendNone(s: seq<Option<int>>)
    ensures CountSome(s + [None]) == CountSome(s)
  {
    if s == [] {
      assert CountSome([None]) == 0 + CountSome([]);
    } else {
      assert (s + [None])[1..] == s[1..] + [None];
      CountSomeAppendNone(s[1..]);
    }
  }

  lemma DenseAppendNone(s: seq<Option<int>>)
    requires DenseIndices(s)
    ensures DenseIndices(s + [None])
  {
    CountSomeAppendNone(s);
  }

  /** Giving an unnumbered column the next position keeps the positions
      dense: the new position is one more than every position handed out. */
  lemma MarkKeepsDense(s: seq<Option<int>>, pos: nat)
    requires DenseIndices(s) && pos < |s| && s[pos].None?
    ensures CountSome(s[pos := Some(CountSome(s) + 1)]) == CountSome(s) + 1
    ensures DenseIndices(s[pos := Some(CountSome(s) + 1)])
  {
    CountSomeUpdate(s, pos, CountSome(s) + 1);
  }

  /** The rule of the nullable doc comment: a row-id column is an
      integer-typed column declared PRIMARY KEY without DESC. */
  predicate IsRowId(constraints: seq<ColumnConstraint>, isIntegerType: bool)
  {
    isIntegerType && PrimaryKey in constraints && Desc !in constraints
  }

  /** The constraint part of a column's DDL: each constraint preceded by a
      space, in insertion order. */
  function ConstraintsDdl(constraints: seq<ColumnConstraint>, render: ColumnConstraint -> string): string
  {
    if constraints == [] then "" else " " + render(constraints[0]) + ConstraintsDdl(constraints[1..], render)
  }

  /** Adding one constraint appends exactly its rendering, after a space. */
  lemma {:induction false} ConstraintsDdlSnoc(constraints: seq<ColumnConstraint>, c: ColumnConstraint, render: ColumnConstraint -> string)
    ensures ConstraintsDdl(constraints + [c], render) == ConstraintsDdl(constraints, render) + " " + render(c)
  {
    if constraints == [] {
      assert constraints + [c] == [c];
    } else {
      assert (constraints + [c])[1..] == constraints[1..] + [c];
      ConstraintsDdlSnoc(constraints[1..], c, render);
    }
  }

  function DefaultDdl(dbDefaultValue: Option<string>): string
  {
    match dbDefaultValue
    case None => ""
    case Some(text) => " DEFAULT " + text
  }

  /** A column's fragment of the CREATE TABLE statement: quoted name, a
      space, the SQL type, the constraints, then the default when one is set. */
  function ColumnDdl(identity: Identity, persistentType: PersistentType, constraints: seq<ColumnConstraint>,
                     dbDefaultValue: Option<string>, render: ColumnConstraint -> string): string
  {
    identity.value + " " + persistentType.sqlType + ConstraintsDdl(constraints, render) + DefaultDdl(dbDefaultValue)
  }

  /** A constraint added to a column shows up in its DDL after the earlier
      constraints and before the default clause. */
  lemma ColumnDdlAddConstraint(identity: Identity, persistentType: PersistentType, constraints: seq<ColumnConstraint>,
                               c: ColumnConstraint, dbDefaultValue: Option<string>, render: ColumnConstraint -> string)
    ensures ColumnDdl(identity, persistentType, constraints + [c], dbDefaultValue, render)
            == identity.value + " " + persistentType.sqlType + ConstraintsDdl(constraints, render) + " " + render(c)
               + DefaultDdl(dbDefaultValue)
  {
    ConstraintsDdlSnoc(constraints, c, render);
  }

  /** Kotlin `Int` arithmetic: the two's-complement 32-bit wrap of `x`. */
  function ToInt32(x: int): (r: int)
    ensures -0x8000_0000 <= r < 0x8000_0000
    ensures (r - x) % 0x1_0000_0000 == 0
  {
    (x + 0x8000_0000) % 0x1_0000_0000 - 0x8000_0000
  }

  /** Java `String.hashCode`: `s[0]*31^(n-1) + ... + s[n-1]` in 32-bit arithmetic. */
  function StringHash(s: string): int
  {
    if s == [] then 0 else ToInt32(31 * StringHash(s[..|s| - 1]) + s[|s| - 1] as int)
  }

  class Column {
    const table: Table
    const name: string
    const persistentType: PersistentType
    var constraints: seq<ColumnConstraint>
    var foreignKey: Option<ForeignKeyConstraint>
    var indexInPK: Option<int>
    /** The `asDefaultValue()` text of the default expression, when set. */
    var dbDefaultValue: Option<string>

    constructor (table: Table, name: string, persistentType: PersistentType, initialConstraints: seq<ColumnConstraint>)
      ensures this.table == table && this.name == name && this.persistentType == persistentType
      ensures constraints == initialConstraints
      ensures foreignKey == None && indexInPK == None && dbDefaultValue == None
    {
      this.table := table;
      this.name := name;
      this.persistentType := persistentType;
      constraints := initialConstraints;
      foreignKey := None;
      indexInPK := None;
      dbDefaultValue := None;
    }

    function TableIdentity(): Identity
    {
      table.identity
    }

    /** True when the constraints include PRIMARY KEY. */
    predicate DefinesPrimaryKey()
      reads this
      ensures DefinesPrimaryKey() <==> exists i :: 0 <= i < |constraints| && constraints[i] == PrimaryKey
    {
      PrimaryKey in constraints
    }

    /** True when the constraints include AUTOINCREMENT. */
    predicate IsAutoInc()
      reads this
      ensures IsAutoInc() <==> exists i :: 0 <= i < |constraints| && constraints[i] == AutoIncrement
    {
      AutoIncrement in constraints
    }

    /** The column this one references, taken from its foreign key. */
    function RefersTo(): (r: Option<Column>)
      reads this
      ensures r.Some? <==> foreignKey.Some?
      ensures r.Some? ==> r.value == foreignKey.value.child
    {
      match foreignKey
      case None => None
      case Some(fk) => Some(fk.child)
    }

    function Identity(quote: string -> string): (r: Identity)
      ensures r.unquoted == name
    {
      MakeIdentity(name, quote)
    }

    /** The qualified reference `<table identity>.<column identity>`. */
    function AppendTo(quote: string -> string): (r: string)
      ensures r == table.identity.value + "." + quote(name)
      ensures |r| == |table.identity.value| + 1 + |quote(name)| && r[|table.identity.value|] == '.'
    {
      table.identity.value + "." + Identity(quote).value
    }

    /** `toString()`: unquoted table name, a dot, the column name. */
    function ToString(): (r: string)
      ensures |r| == |table.identity.unquoted| + 1 + |name|
      ensures r[..|table.identity.unquoted|] == table.identity.unquoted
      ensures r[|table.identity.unquoted|] == '.' && r[|table.identity.unquoted| + 1..] == name
    {
      table.identity.unquoted + "." + name
    }

    /** The text this column contributes when it is another column's default. */
    function AsDefaultValue(): (r: string)
      ensures r == "(" + table.identity.unquoted + "." + name + ")"
    {
      "(" + ToString() + ")"
    }

    /** True when null may be stored: the type is nullable, or the column is
        the row id. */
    predicate Nullable()
      reads this
      ensures Nullable() <==> persistentType.nullable
                              || (persistentType.isIntegerType && PrimaryKey in constraints && Desc !in constraints)
    {
      persistentType.nullable || IsRowId(constraints, persistentType.isIntegerType)
    }

    /** `descriptionDdl()`: starts with the quoted name, a space and the SQL
        type, and ends with ` DEFAULT <text>` when a default is set. */
    function DescriptionDdl(quote: string -> string, render: ColumnConstraint -> string): (r: string)
      reads this
      ensures var head := quote(name) + " " + persistentType.sqlType;
        |head| <= |r| && r[..|head|] == head
      ensures dbDefaultValue.Some? ==> var tail := " DEFAULT " + dbDefaultValue.value;
        |tail| <= |r| && r[|r| - |tail|..] == tail
    {
      ColumnDdl(Identity(quote), persistentType, constraints, dbDefaultValue, render)
    }

    /** `equals`: same table, same name, same persistent type. */
    predicate SameColumn(other: Column)
      ensures this == other ==> SameColumn(other)
      ensures SameColumn(other) ==> table == other.table && name == other.name
                                    && persistentType == other.persistentType
    {
      this == other
      || (table == other.table && name == other.name && persistentType == other.persistentType)
    }

    /** `hashCode`: the table's hash times 31 plus the name's hash, in Kotlin
        `Int` arithmetic. The table's own hash is a parameter. */
    function HashCode(tableHash: Table -> int): (r: int)
      ensures -0x8000_0000 <= r < 0x8000_0000
      ensures (r - (tableHash(table) * 31 + StringHash(name))) % 0x1_0000_0000 == 0
    {
      ToInt32(tableHash(table) * 31 + StringHash(name))
    }

    /** `compareTo`: by table identity value, then by column name. */
    function CompareTo(other: Column): (r: int)
      ensures r == 0 <==> table.identity.value == other.table.identity.value && name == other.name
    {
      StrCompareZero(table.identity.value, other.table.identity.value);
      StrCompareZero(name, other.name);
      var byTable := StrCompare(table.identity.value, other.table.identity.value);
      if byTable != 0 then byTable else StrCompare(name, other.name)
    }

    /** True when the table's composite primary key has exactly one column
        and that column equals this one. */
    predicate IsOneColumnPK()
      reads table
      ensures IsOneColumnPK() ==> table.primaryKey.Some? && |table.primaryKey.value| == 1
      ensures table.primaryKey == Some([this]) ==> IsOneColumnPK()
      ensures (table.primaryKey.Some? && |table.primaryKey.value| == 1
               && !table.primaryKey.value[0].SameColumn(this)) ==> !IsOneColumnPK()
    {
      match table.primaryKey
      case None => false
      case Some(cols) => |cols| == 1 && cols[0].SameColumn(this)
    }

    method AddConstraint(c: ColumnConstraint)
      modifies this`constraints
      ensures constraints == old(constraints) + [c]
    {
      constraints := constraints + [c];
    }

    method PrimaryKeyConstraint()
      modifies this`constraints
      ensures constraints == old(constraints) + [PrimaryKey] && DefinesPrimaryKey()
    {
      AddConstraint(PrimaryKey);
    }

    method UniqueConstraint()
      modifies this`constraints
      ensures constraints == old(constraints) + [Unique]
    {
      AddConstraint(Unique);
    }

    method AscConstraint()
      modifies this`constraints
      ensures constraints == old(constraints) + [Asc]
    {
      AddConstraint(Asc);
    }

    method DescConstraint()
      modifies this`constraints
      ensures constraints == old(constraints) + [Desc]
    {
      AddConstraint(Desc);
    }

    /** Adds PRIMARY KEY only when it is absent, then AUTOINCREMENT. */
    method AutoIncrementConstraint()
      modifies this`constraints
      ensures constraints == old(constraints) + (if PrimaryKey in old(constraints) then [] else [PrimaryKey]) + [AutoIncrement]
      ensures DefinesPrimaryKey() && IsAutoInc()
      ensures persistentType.isIntegerType && Desc !in old(constraints) ==> Nullable()
    {
      if PrimaryKey !in constraints {
        PrimaryKeyConstraint();
      }
      AddConstraint(AutoIncrement);
    }

    method OnConflictConstraint(onConflict: OnConflict)
      modifies this`constraints
      ensures constraints == old(constraints) + [ConflictConstraint(onConflict)]
    {
      AddConstraint(ConflictConstraint(onConflict));
    }

    /** `collateBinary`, `collateNoCase`, `collateRTrim` and `collate(name)`. */
    method CollateWith(collate: Collate)
      modifies this`constraints
      ensures constraints == old(constraints) + [CollateConstraint(collate)]
    {
      AddConstraint(CollateConstraint(collate));
    }

    /** `default(value)` and `defaultExpression(expr)`, given the default's
        rendered `asDefaultValue()` text. */
    method SetDefault(defaultText: string)
      modifies this`dbDefaultValue
      ensures dbDefaultValue == Some(defaultText)
    {
      dbDefaultValue := Some(defaultText);
    }

    /** Declares this column the parent of a foreign key whose child is `ref`. */
    method References(ref: Column, onDelete: ForeignKeyAction, onUpdate: ForeignKeyAction, fkName: Option<string>)
      modifies this`foreignKey
      ensures foreignKey == Some(ForeignKeyConstraint(table.identity, this, ref.table.identity, ref, onUpdate, onDelete, fkName))
      ensures RefersTo() == Some(ref)
    {
      foreignKey := Some(ForeignKeyConstraint(table.identity, this, ref.table.identity, ref, onUpdate, onDelete, fkName));
    }

    /** The alias table name: the given one, or `<table name>_<column name>`. */
    function AliasTableName(tableAlias: Option<string>): string
    {
      match tableAlias
      case Some(alias) => alias
      case None => table.tableName + "_" + name
    }

    /** A copy of this column (same name and type, no constraints) on an
        alias of its table. */
    method MakeAlias(tableAlias: Option<string>, quote: string -> string) returns (c: Column)
      ensures fresh(c) && fresh(c.table)
      ensures c.table.tableName == AliasTableName(tableAlias)
      ensures c.table.identity == MakeIdentity(AliasTableName(tableAlias), quote)
      ensures c.name == name && c.persistentType == persistentType
      ensures c.constraints == [] && c.foreignKey == None && c.indexInPK == None && c.dbDefaultValue == None
    {
      var aliasName := AliasTableName(tableAlias);
      var alias := new Table(aliasName, MakeIdentity(aliasName, quote));
      c := new Column(alias, name, persistentType, []);
    }

    /** Numbers this column into the primary key: it fails when some column
        of the table already declares PRIMARY KEY, or when this column is
        already numbered; otherwise its position is one more than the number
        of table columns already numbered. */
    method MarkPrimaryKey() returns (r: Outcome<ColumnError>)
      modifies this`indexInPK
      ensures old(table.ColumnDefiningPrimaryKey()).Some? ==> r.Fail? && r.error.PrimaryKeyAlreadyDefined?
      ensures old(table.ColumnDefiningPrimaryKey()).None? && old(indexInPK).Some? ==> r == Outcome.Fail(AlreadyPartOfPrimaryKey(ToString()))
      ensures r.Pass? <==> old(table.ColumnDefiningPrimaryKey()).None? && old(indexInPK).None?
      ensures r.Pass? ==> indexInPK == Some(old(CountSome(table.PKIndices())) + 1)
      ensures r.Fail? ==> indexInPK == old(indexInPK)
      ensures r.Pass? && old(table.Valid()) && this in table.columns ==>
                table.Valid() && CountSome(table.PKIndices()) == old(CountSome(table.PKIndices())) + 1
    {
      var definer := table.ColumnDefiningPrimaryKey();
      if definer.Some? {
        return Outcome.Fail(PrimaryKeyAlreadyDefined(definer.value.name));
      }
      if indexInPK.Some? {
        return Outcome.Fail(AlreadyPartOfPrimaryKey(ToString()));
      }
      var before := table.PKIndices();
      var next := CountSome(before) + 1;
      indexInPK := Some(next);
      r := Pass;
      if old(table.Valid()) && this in table.columns {
        var pos :| 0 <= pos < |table.columns| && table.columns[pos] == this;
        assert table.PKIndices() == before[pos := Some(next)];
        MarkKeepsDense(before, pos);
      }
    }
  }

  /** `Column(...)`: create the column, then run its `addTo` callback, which
      registers it with its table (`register`) or, by default, does nothing. */
  method NewColumn(table: Table, name: string, persistentType: PersistentType, initialConstraints: seq<ColumnConstraint>,
                   register: bool)
    returns (c: Column)
    requires table.Valid()
    modifies table
    ensures fresh(c) && c.table == table && c.name == name && c.persistentType == persistentType
    ensures c.constraints == initialConstraints && c.indexInPK == None
    ensures table.Valid() && table.columns == old(table.columns) + (if register then [c] else [])
    ensures table.primaryKey == old(table.primaryKey)
  {
    c := new Column(table, name, persistentType, initialConstraints);
    if register {
      table.Register(c);
    }
  }

  lemma CompareToZero(a: Column, b: Column)
    ensures a.CompareTo(b) == 0 <==> a.table.identity.value == b.table.identity.value && a.name == b.name
  {
    StrCompareZero(a.table.identity.value, b.table.identity.value);
    StrCompareZero(a.name, b.name);
  }

  lemma CompareToAntisymmetric(a: Column, b: Column)
    ensures a.CompareTo(b) == -b.CompareTo(a)
  {
    StrCompareAntisymmetric(a.table.identity.value, b.table.identity.value);
    StrCompareAntisymmetric(a.name, b.name);
  }

  lemma CompareToTransitive(a: Column, b: Column, c: Column)
    requires a.CompareTo(b) < 0 && b.CompareTo(c) < 0
    ensures a.CompareTo(c) < 0
  {
    var ta, tb, tc := a.table.identity.value, b.table.identity.value, c.table.identity.value;
    StrCompareZero(ta, tb);
    StrCompareZero(tb, tc);
    StrCompareZero(ta, tc);
    if StrCompare(ta, tb) != 0 && StrCompare(tb, tc) != 0 {
      StrCompareTransitive(ta, tb, tc);
    } else if StrCompare(ta, tb) == 0 && StrCompare(tb, tc) == 0 {
      StrCompareTransitive(a.name, b.name, c.name);
    }
  }

  /** Columns equal under `equals` compare as equal and hash equally. */
  lemma SameColumnConsistent(a: Column, b: Column, tableHash: Table -> int)
    requires a.SameColumn(b)
    ensures a.CompareTo(b) == 0
    ensures a.HashCode(tableHash) == b.HashCode(tableHash)
  {
    CompareToZero(a, b);
  }

  /** `equals` is an equivalence relation. */
  lemma SameColumnEquivalence(a: Column, b: Column, c: Column)
    ensures a.SameColumn(a)
    ensures a.SameColumn(b) ==> b.SameColumn(a)
    ensures a.SameColumn(b) && b.SameColumn(c) ==> a.SameColumn(c)
  {
  }

  /** Quoting used by the examples below: wrap a name in double quotes. */
  function DoubleQuote(s: string): string
  {
    "\"" + s + "\""
  }

  function ExampleRender(c: ColumnConstraint): string
  {
    match c
    case NotNull => "NOT NULL"
    case PrimaryKey => "PRIMARY KEY"
    case Unique => "UNIQUE"
    case CollateConstraint(CollateNoCase) => "COLLATE NOCASE"
    case _ => ""
  }

  /** The `MediaTitle` column of the `SomeMedia` table: TEXT, collated
      NOCASE, defaulting to the literal 'Title'. */
  lemma MediaTitleConstraintsDdl()
    ensures ConstraintsDdl([NotNull, CollateConstraint(CollateNoCase)], ExampleRender) == " NOT NULL COLLATE NOCASE"
  {
    var cs := [NotNull, CollateConstraint(CollateNoCase)];
    assert cs[1..] == [CollateConstraint(CollateNoCase)];
    assert ConstraintsDdl(cs[1..], ExampleRender) == " COLLATE NOCASE";
  }

  lemma MediaTitleDdl(identity: Identity, constraints: seq<ColumnConstraint>, dbDefaultValue: Option<string>)
    requires identity == MakeIdentity("MediaTitle", DoubleQuote)
    requires constraints == [NotNull, CollateConstraint(CollateNoCase)]
    requires dbDefaultValue == Some("'Title'")
    ensures ColumnDdl(identity, PersistentType("TEXT", false, false), constraints, dbDefaultValue, ExampleRender)
            == "\"MediaTitle\" TEXT" + " NOT NULL COLLATE NOCASE" + " DEFAULT 'Title'"
  {
    MediaTitleConstraintsDdl();
    assert identity.value + " " + "TEXT" == "\"MediaTitle\" TEXT";
  }

  /** Building that column through the adders yields that DDL. */
  method MediaTitleExample()
  {
    var t := new Table("SomeMedia", MakeIdentity("SomeMedia", DoubleQuote));
    var c := NewColumn(t, "MediaTitle", PersistentType("TEXT", false, false), [NotNull], true);
    c.CollateWith(CollateNoCase);
    c.SetDefault("'Title'");
    MediaTitleDdl(c.Identity(DoubleQuote), c.constraints, c.dbDefaultValue);
    assert c.DescriptionDdl(DoubleQuote, ExampleRender)
      == "\"MediaTitle\" TEXT" + " NOT NULL COLLATE NOCASE" + " DEFAULT 'Title'";
    assert !c.Nullable();
  }

  /** `"MediaFile"."_id"`; the id column is numbered 1 into the primary key,
      the next one 2. */
  method MediaFileIdExample()
  {
    var t := new Table("MediaFile", MakeIdentity("MediaFile", DoubleQuote));
    var long := PersistentType("INTEGER", false, true);
    var id := NewColumn(t, "_id", long, [NotNull], true);
    var uri := NewColumn(t, "MediaUri", PersistentType("TEXT", false, false), [NotNull], true);
    assert id.AppendTo(DoubleQuote) == "\"MediaFile\".\"_id\"";
    assert t.PKIndices() == [None, None];
    assert CountSome([None, None]) == 0;
    var r1 := id.MarkPrimaryKey();
    assert r1 == Pass && id.indexInPK == Some(1);
    assert t.PKIndices() == [Some(1), None];
    assert CountSome([Some(1), None]) == 1;
    var r2 := uri.MarkPrimaryKey();
    assert r2 == Pass && uri.indexInPK == Some(2);
    var r3 := uri.MarkPrimaryKey();
    assert r3.Fail? && uri.indexInPK == Some(2);
    t.SetPrimaryKey([id]);
    assert id.IsOneColumnPK() && !uri.IsOneColumnPK();
    t.SetPrimaryKey([id, uri]);
    assert !id.IsOneColumnPK();
  }
}
