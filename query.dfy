/** Query-side statement construction: the bind-argument slots of a query,
    the COUNT(*) rewrite, the expression-to-ordinal table of a result row and
    the de-duplicated column subset of a select. */
module Queries {
  import opened Wrappers
  import opened SqlText

  /** The text every bind slot holds until it is set. */
  const Unbound: string := "Unbound"

  const CountPrefix: string := "SELECT COUNT(*)"

  /** Expressions are keyed by a stable id assigned when they are built,
      standing for the source's reference identity. */
  type ExprId = nat

  datatype BindingError =
    | IndexOutOfBounds(index: int, size: nat)
    | UnboundArgument(slot: nat)

  /** One `set(index, value)` call made by a caller's binding callback. */
  datatype SetCall<V> = SetCall(index: int, value: V)

  /** The slots of a query's arguments: their bind text and whether each
      was ever set. */
  datatype Slots = Slots(text: seq<string>, bound: seq<bool>)

  /** The effect of one `set` call on the slots. */
  function SetSlot<V>(argTypes: seq<PersistentType>, valueToString: (PersistentType, V) -> string,
                      slots: Slots, call: SetCall<V>): (r: Result<Slots, BindingError>)
    requires |slots.text| == |slots.bound| == |argTypes|
    ensures r.Ok? <==> 0 <= call.index < |argTypes|
    ensures r.Err? ==> r.error == IndexOutOfBounds(call.index, |argTypes|)
    ensures r.Ok? ==> |r.value.text| == |r.value.bound| == |argTypes|
    ensures r.Ok? ==> forall i :: 0 <= i < |argTypes| && i != call.index ==>
                         r.value.text[i] == slots.text[i] && r.value.bound[i] == slots.bound[i]
    ensures r.Ok? ==> r.value.text[call.index] == valueToString(argTypes[call.index], call.value)
                      && r.value.bound[call.index]
  {
    if 0 <= call.index < |argTypes| then
      Ok(Slots(slots.text[call.index := valueToString(argTypes[call.index], call.value)],
               slots.bound[call.index := true]))
    else
      Err(IndexOutOfBounds(call.index, |argTypes|))
  }

  /** The effect of a binding callback: its `set` calls in order, stopping at
      the first that fails (the ones before it stay applied). */
  function ApplySets<V>(argTypes: seq<PersistentType>, valueToString: (PersistentType, V) -> string,
                        slots: Slots, calls: seq<SetCall<V>>): (r: (Slots, Outcome<BindingError>))
    requires |slots.text| == |slots.bound| == |argTypes|
    ensures |r.0.text| == |r.0.bound| == |argTypes|
    ensures r.1.Fail? <==> exists k :: 0 <= k < |calls| && !(0 <= calls[k].index < |argTypes|)
    decreases |calls|
  {
    if calls == [] then (slots, Pass)
    else match SetSlot(argTypes, valueToString, slots, calls[0])
      case Err(e) => (slots, Fail(e))
      case Ok(next) =>
        var r := ApplySets(argTypes, valueToString, next, calls[1..]);
        assert forall k :: 1 <= k < |calls| ==> calls[k] == calls[1..][k - 1];
        r
  }

  /** A slot that no call touches keeps its text and its bound flag:
      bindings persist from one execution to the next. */
  lemma {:induction false} ApplySetsKeepsUntouched<V>(argTypes: seq<PersistentType>, valueToString: (PersistentType, V) -> string,
                                                      slots: Slots, calls: seq<SetCall<V>>, i: nat)
    requires |slots.text| == |slots.bound| == |argTypes| && i < |argTypes|
    requires forall k :: 0 <= k < |calls| ==> calls[k].index != i
    ensures ApplySets(argTypes, valueToString, slots, calls).0.text[i] == slots.text[i]
    ensures ApplySets(argTypes, valueToString, slots, calls).0.bound[i] == slots.bound[i]
    decreases |calls|
  {
    if calls != [] {
      match SetSlot(argTypes, valueToString, slots, calls[0])
      case Err(_) =>
      case Ok(next) =>
        ApplySetsKeepsUntouched(argTypes, valueToString, next, calls[1..], i);
    }
  }

  /** `QueryArgs`: one string slot per argument type, each starting as the
      `Unbound` sentinel and overwritten only through a bounds-checked `Set`. */
  class QueryArgs<V> {
    const argTypes: seq<PersistentType>
    const valueToString: (PersistentType, V) -> string
    const args: array<string>
    /** Whether each slot was ever set: the state behind `CheckedArguments`. */
    const bound: array<bool>

    ghost predicate Valid()
      reads this
    {
      args.Length == |argTypes| && bound.Length == |argTypes|
    }

    function State(): (s: Slots)
      reads this, args, bound
      requires Valid()
      ensures |s.text| == |s.bound| == |argTypes|
    {
      Slots(args[..], bound[..])
    }

    constructor (argTypes: seq<PersistentType>, valueToString: (PersistentType, V) -> string)
      ensures Valid() && fresh(args) && fresh(bound)
      ensures this.argTypes == argTypes && this.valueToString == valueToString
      ensures args[..] == seq(|argTypes|, _ => Unbound)
      ensures bound[..] == seq(|argTypes|, _ => false)
    {
      this.argTypes := argTypes;
      this.valueToString := valueToString;
      args := new string[|argTypes|](_ => Unbound);
      bound := new bool[|argTypes|](_ => false);
    }

    function ParamCount(): (n: nat)
      ensures n == |argTypes|
    {
      |argTypes|
    }

    /** `set(index, value)`: fails unless `index` addresses a slot; otherwise
        overwrites that slot with the value's bind text and no other. */
    method Set(index: int, value: V) returns (r: Outcome<BindingError>)
      requires Valid()
      modifies args, bound
      ensures Valid()
      ensures r.Pass? <==> 0 <= index < |argTypes|
      ensures r.Pass? ==> args[..] == old(args[..])[index := valueToString(argTypes[index], value)]
                          && bound[..] == old(bound[..])[index := true]
      ensures r.Fail? ==> r.error == IndexOutOfBounds(index, |argTypes|)
                          && args[..] == old(args[..]) && bound[..] == old(bound[..])
      ensures SetSlot(argTypes, valueToString, old(State()), SetCall(index, value))
              == if r.Pass? then Ok(State()) else Err(r.error)
    {
      if !(0 <= index < |argTypes|) {
        return Fail(IndexOutOfBounds(index, |argTypes|));
      }
      args[index] := valueToString(argTypes[index], value);
      bound[index] := true;
      r := Pass;
    }

    /** `arguments`: a copy of the slots, so later changes to the copy leave
        the slots alone. An unset slot is handed over as the `Unbound` text. */
    method Arguments() returns (a: array<string>)
      requires Valid()
      ensures fresh(a) && a[..] == args[..]
    {
      a := new string[args.Length](i requires 0 <= i < args.Length reads args => args[i]);
    }

    /** The first slot never set, if any. */
    method FirstUnbound() returns (r: Option<nat>)
      requires Valid()
      ensures r.Some? ==> r.value < bound.Length && !bound[r.value]
                          && forall j :: 0 <= j < r.value ==> bound[j]
      ensures r.None? ==> forall j :: 0 <= j < bound.Length ==> bound[j]
    {
      var i := 0;
      while i < bound.Length
        invariant 0 <= i <= bound.Length
        invariant forall j :: 0 <= j < i ==> bound[j]
      {
        if !bound[i] {
          return Some(i);
        }
        i := i + 1;
      }
      return None;
    }

    /** `arguments` with the unbound check: fails on the first slot that was
        never set instead of handing over the sentinel text. */
    method CheckedArguments() returns (r: Result<array<string>, BindingError>)
      requires Valid()
      ensures r.Ok? <==> forall j :: 0 <= j < bound.Length ==> bound[j]
      ensures r.Ok? ==> fresh(r.value) && r.value[..] == args[..]
      ensures r.Err? ==> r.error.UnboundArgument? && r.error.slot < bound.Length
                         && !bound[r.error.slot]
                         && forall j :: 0 <= j < r.error.slot ==> bound[j]
    {
      var missing := FirstUnbound();
      if missing.Some? {
        return Err(UnboundArgument(missing.value));
      }
      var a := Arguments();
      r := Ok(a);
    }
  }

  /** A fresh `QueryArgs` hands its unset slot over as the text "Unbound"
      without failing; `CheckedArguments` reports it instead. */
  method UnboundArgumentIsSentAsText(t: PersistentType, valueToString: (PersistentType, int) -> string)
    returns (sent: seq<string>, checked: Option<BindingError>)
    ensures sent == ["Unbound"]
    ensures checked == Some(UnboundArgument(0))
  {
    var queryArgs := new QueryArgs<int>([t], valueToString);
    var copy := queryArgs.Arguments();
    sent := copy[..];
    assert !queryArgs.bound[..][0];
    var result := queryArgs.CheckedArguments();
    checked := if result.Err? then Some(result.error) else None;
  }

  /** True when the SQL, once trimmed, already starts with `SELECT COUNT(*)`
      in any letter case. */
  predicate IsCountQuery(sql: string)
  {
    StartsWithIgnoringCase(Trim(sql), CountPrefix)
  }

  /** The SQL `count` runs: the query itself when it already counts,
      otherwise the query wrapped as `SELECT COUNT(*) FROM ( <sql> )`. */
  function CountQuerySql(sql: string): (r: string)
    ensures IsCountQuery(sql) ==> r == sql
    ensures !IsCountQuery(sql) ==> r == "SELECT COUNT(*) FROM ( " + sql + " )"
  {
    if IsCountQuery(sql) then sql else "SELECT COUNT(*) FROM ( " + sql + " )"
  }

  lemma TrimOfUnpadded(s: string)
    requires s != [] && !IsWhitespace(s[0]) && !IsWhitespace(s[|s| - 1])
    ensures Trim(s) == s
  {
  }

  /** Whatever `count` runs is itself a count query. */
  lemma CountQuerySqlIsCountQuery(sql: string)
    ensures IsCountQuery(CountQuerySql(sql))
  {
    if !IsCountQuery(sql) {
      var wrapped := "SELECT COUNT(*) FROM ( " + sql + " )";
      TrimOfUnpadded(wrapped);
      assert wrapped[..|CountPrefix|] == CountPrefix;
    }
  }

  /** Applying the rewrite to its own output leaves it unchanged. */
  lemma CountQuerySqlIdempotent(sql: string)
    ensures CountQuerySql(CountQuerySql(sql)) == CountQuerySql(sql)
  {
    CountQuerySqlIsCountQuery(sql);
  }

  lemma PlainSelectIsNotCountQuery(plain: string)
    requires plain == "SELECT * FROM \"Artist\""
    ensures !IsCountQuery(plain)
  {
    TrimOfUnpadded(plain);
    assert !MatchesIgnoringCase(plain[7], CountPrefix[7]);
  }

  /** A plain `SELECT` is wrapped. */
  lemma CountQueryWrapsPlainSelect(plain: string)
    requires plain == "SELECT * FROM \"Artist\""
    ensures CountQuerySql(plain) == "SELECT COUNT(*) FROM ( " + plain + " )"
  {
    PlainSelectIsNotCountQuery(plain);
  }

  /** A query that already counts is run as written, whatever whitespace
      surrounds it and whatever the letter case of its `SELECT COUNT(*)`. */
  lemma CountQueryKeepsIndentedCount(pad: string, body: string)
    requires forall i :: 0 <= i < |pad| ==> IsWhitespace(pad[i])
    requires StartsWithIgnoringCase(body, CountPrefix)
    ensures CountQuerySql(pad + body) == pad + body
  {
    var sql := pad + body;
    var n := |CountPrefix|;
    assert sql[|pad|..] == body;
    assert CountPrefix[0] == 'S' && MatchesIgnoringCase(body[0], 'S');
    assert !IsWhitespace(sql[|pad|]);
    TrimStartDrops(sql, |pad|);
    assert CountPrefix[n - 1] == ')' && MatchesIgnoringCase(body[n - 1], ')');
    TrimEndKeepsPrefix(body, n);
    assert forall i :: 0 <= i < n ==> Trim(sql)[i] == body[i];
  }

  lemma IndentedCountHasPrefix(body: string)
    requires body == "select Count(*) FROM \"Artist\" \n"
    ensures StartsWithIgnoringCase(body, CountPrefix)
  {
    assert body[..15] == "select Count(*)";
  }

  lemma CountQueryKeepsCountSelect(pad: string, body: string)
    requires pad == "  " && body == "select Count(*) FROM \"Artist\" \n"
    ensures CountQuerySql(pad + body) == pad + body
  {
    IndentedCountHasPrefix(body);
    CountQueryKeepsIndentedCount(pad, body);
  }

  /** `Query`: a seed's SQL plus one `QueryArgs` kept for the query's whole
      life and never reset, so bindings persist between executions. */
  class QueryImpl<V> {
    const sql: string
    const fields: seq<ExprId>
    const queryArgs: QueryArgs<V>

    constructor (fields: seq<ExprId>, seed: StatementSeed, valueToString: (PersistentType, V) -> string)
      ensures this.sql == seed.sql && this.fields == fields
      ensures fresh(queryArgs) && fresh(queryArgs.args) && fresh(queryArgs.bound) && queryArgs.Valid()
      ensures queryArgs.argTypes == seed.types && queryArgs.valueToString == valueToString
      ensures queryArgs.args[..] == seq(|seed.types|, _ => Unbound)
      ensures queryArgs.bound[..] == seq(|seed.types|, _ => false)
    {
      this.sql := seed.sql;
      this.fields := fields;
      queryArgs := new QueryArgs(seed.types, valueToString);
    }

    function ExpectedArgCount(): (n: nat)
      ensures n == |queryArgs.argTypes|
    {
      queryArgs.ParamCount()
    }

    predicate RequiresBindArguments()
      ensures RequiresBindArguments() <==> |queryArgs.argTypes| > 0
    {
      ExpectedArgCount() > 0
    }

    /** Runs a binding callback, given as its `set` calls, on the query's
        one `QueryArgs`. */
    method Bind(calls: seq<SetCall<V>>) returns (r: Outcome<BindingError>)
      requires queryArgs.Valid()
      modifies queryArgs.args, queryArgs.bound
      ensures queryArgs.Valid()
      ensures (queryArgs.State(), r)
              == ApplySets(queryArgs.argTypes, queryArgs.valueToString, old(queryArgs.State()), calls)
    {
      var i := 0;
      while i < |calls|
        invariant 0 <= i <= |calls| && queryArgs.Valid()
        invariant ApplySets(queryArgs.argTypes, queryArgs.valueToString, old(queryArgs.State()), calls)
                  == ApplySets(queryArgs.argTypes, queryArgs.valueToString, queryArgs.State(), calls[i..])
      {
        ghost var before := queryArgs.State();
        assert calls[i..][1..] == calls[i + 1..];
        var step := queryArgs.Set(calls[i].index, calls[i].value);
        if step.Fail? {
          return step;
        }
        i := i + 1;
      }
      r := Pass;
    }

    /** What one execution (`forEach`, `longForQuery`, `count`) hands to the
        database: the binding callback runs, then the SQL (rewritten for
        `count`) goes out with a copy of every slot, unset ones included. */
    method PrepareExecution(calls: seq<SetCall<V>>, forCount: bool)
      returns (r: Result<(string, array<string>), BindingError>)
      requires queryArgs.Valid()
      modifies queryArgs.args, queryArgs.bound
      ensures queryArgs.Valid()
      ensures queryArgs.State() == ApplySets(queryArgs.argTypes, queryArgs.valueToString, old(queryArgs.State()), calls).0
      ensures r.Ok? <==> ApplySets(queryArgs.argTypes, queryArgs.valueToString, old(queryArgs.State()), calls).1 == Pass
      ensures r.Err? ==> ApplySets(queryArgs.argTypes, queryArgs.valueToString, old(queryArgs.State()), calls).1
                         == Fail(r.error)
      ensures r.Ok? ==> r.value.0 == (if forCount then CountQuerySql(sql) else sql)
      ensures r.Ok? ==> fresh(r.value.1) && r.value.1[..] == queryArgs.args[..]
    {
      var outcome := Bind(calls);
      if outcome.Fail? {
        return Err(outcome.error);
      }
      var sent := queryArgs.Arguments();
      r := Ok((if forCount then CountQuerySql(sql) else sql, sent));
    }

    /** An execution that checks for unset slots: like `PrepareExecution`,
        but it fails on the first slot the callbacks never set instead of
        sending the `Unbound` text. */
    method PrepareCheckedExecution(calls: seq<SetCall<V>>, forCount: bool)
      returns (r: Result<(string, array<string>), BindingError>)
      requires queryArgs.Valid()
      modifies queryArgs.args, queryArgs.bound
      ensures queryArgs.Valid()
      ensures queryArgs.State() == ApplySets(queryArgs.argTypes, queryArgs.valueToString, old(queryArgs.State()), calls).0
      ensures r.Ok? <==> ApplySets(queryArgs.argTypes, queryArgs.valueToString, old(queryArgs.State()), calls).1 == Pass
                         && forall j :: 0 <= j < queryArgs.bound.Length ==> queryArgs.bound[j]
      ensures r.Ok? ==> r.value.0 == (if forCount then CountQuerySql(sql) else sql)
      ensures r.Ok? ==> fresh(r.value.1) && r.value.1[..] == queryArgs.args[..]
      ensures r.Err? && ApplySets(queryArgs.argTypes, queryArgs.valueToString, old(queryArgs.State()), calls).1 == Pass
              ==> r.error.UnboundArgument? && r.error.slot < queryArgs.bound.Length
                  && !queryArgs.bound[r.error.slot]
                  && forall j :: 0 <= j < r.error.slot ==> queryArgs.bound[j]
      ensures ApplySets(queryArgs.argTypes, queryArgs.valueToString, old(queryArgs.State()), calls).1.Fail?
              ==> r == Err(ApplySets(queryArgs.argTypes, queryArgs.valueToString, old(queryArgs.State()), calls).1.error)
    {
      var outcome := Bind(calls);
      if outcome.Fail? {
        return Err(outcome.error);
      }
      var checked := queryArgs.CheckedArguments();
      if checked.Err? {
        return Err(checked.error);
      }
      r := Ok((if forCount then CountQuerySql(sql) else sql, checked.value));
    }
  }

  /** A query whose callback sets nothing hands the database its SQL with
      every slot as the `Unbound` text, and fails nowhere; the checked
      execution reports the first slot instead. */
  method UnboundArgumentsReachDatabase(seed: StatementSeed, valueToString: (PersistentType, int) -> string,
                                       forCount: bool)
    returns (sentSql: string, sent: seq<string>, checked: Option<BindingError>)
    ensures sentSql == if forCount then CountQuerySql(seed.sql) else seed.sql
    ensures sent == seq(|seed.types|, _ => Unbound)
    ensures checked == if seed.types == [] then None else Some(UnboundArgument(0))
  {
    var query := new QueryImpl<int>([], seed, valueToString);
    var execution := query.PrepareExecution([], forCount);
    assert execution.Ok?;
    sentSql := execution.value.0;
    sent := execution.value.1[..];
    var corrected := new QueryImpl<int>([], seed, valueToString);
    var checkedExecution := corrected.PrepareCheckedExecution([], forCount);
    if seed.types != [] {
      assert !corrected.queryArgs.bound[0];
    }
    checked := if checkedExecution.Err? then Some(checkedExecution.error) else None;
  }

  /** A value bound in one execution is still bound in the next one, whose
      callback does not set that slot again. */
  method BindingsPersistExample(t: PersistentType, valueToString: (PersistentType, int) -> string)
    returns (firstSent: Option<seq<string>>, secondSent: Option<seq<string>>)
    ensures firstSent == Some([valueToString(t, 5)])
    ensures secondSent == Some([valueToString(t, 5)])
  {
    var query := new QueryImpl<int>([0], SqlFragment("SELECT \"_id\" FROM \"MediaFile\" WHERE \"_id\" > ?", [t]), valueToString);
    var first := query.PrepareExecution([SetCall(0, 5)], false);
    assert first.Ok?;
    assert query.queryArgs.args[..] == [valueToString(t, 5)];
    firstSent := if first.Ok? then Some(first.value.1[..]) else None;
    var second := query.PrepareExecution([], false);
    assert second.Ok?;
    secondSent := if second.Ok? then Some(second.value.1[..]) else None;
  }

  /** The ordinal a lookup in the expression-to-index table yields: the
      mapped ordinal, or -1 for an expression not in the table. */
  function IndexOf(m: map<ExprId, int>, e: ExprId): int
  {
    if e in m then m[e] else -1
  }

  /** The last position of `e` in `fields`, or -1 when it does not occur. */
  function LastIndex(fields: seq<ExprId>, e: ExprId): (r: int)
    ensures -1 <= r < |fields|
    ensures r == -1 <==> e !in fields
    ensures r >= 0 ==> fields[r] == e && forall j :: r < j < |fields| ==> fields[j] != e
  {
    if fields == [] then -1
    else if fields[|fields| - 1] == e then |fields| - 1
    else LastIndex(fields[..|fields| - 1], e)
  }

  /** `mapExprToIndex`: every selected expression maps to its ordinal; a
      repeated one keeps its last ordinal; any other maps to -1. */
  method MapExprToIndex(fields: seq<ExprId>) returns (m: map<ExprId, int>)
    ensures m.Keys == set e | e in fields
    ensures forall e :: IndexOf(m, e) == LastIndex(fields, e)
  {
    m := map[];
    for index := 0 to |fields|
      invariant m.Keys == set e | e in fields[..index]
      invariant forall e :: IndexOf(m, e) == LastIndex(fields[..index], e)
    {
      assert fields[..index + 1][..index] == fields[..index];
      m := m[fields[index] := index];
    }
    assert fields[..|fields|] == fields;
  }

  /** Kotlin `distinct()`: each element at its first occurrence, in order. */
  function Distinct<T(==)>(xs: seq<T>): seq<T>
  {
    if xs == [] then []
    else
      var init := xs[..|xs| - 1];
      Distinct(init) + (if xs[|xs| - 1] in init then [] else [xs[|xs| - 1]])
  }

  predicate NoDuplicates<T(==)>(xs: seq<T>)
  {
    forall i, j :: 0 <= i < j < |xs| ==> xs[i] != xs[j]
  }

  lemma {:induction false} DistinctElements<T>(xs: seq<T>)
    ensures forall x :: x in Distinct(xs) <==> x in xs
    ensures forall i :: 0 <= i < |Distinct(xs)| ==> Distinct(xs)[i] in xs
    ensures NoDuplicates(Distinct(xs))
  {
    if xs != [] {
      var init := xs[..|xs| - 1];
      DistinctElements(init);
      assert xs == init + [xs[|xs| - 1]];
    }
  }

  /** A sequence without repeats is its own `distinct()`. */
  lemma {:induction false} DistinctOfNoDuplicates<T>(xs: seq<T>)
    requires NoDuplicates(xs)
    ensures Distinct(xs) == xs
  {
    if xs != [] {
      var init := xs[..|xs| - 1];
      DistinctOfNoDuplicates(init);
      assert xs == init + [xs[|xs| - 1]];
    }
  }

  /** Kept elements appear in the order of their first occurrence. */
  lemma {:induction false} DistinctKeepsFirstOccurrenceOrder<T>(xs: seq<T>, i: nat, j: nat)
    requires i < j < |xs| && xs[i] !in xs[..i] && xs[j] !in xs[..j]
    ensures exists p, q :: 0 <= p < q < |Distinct(xs)| && Distinct(xs)[p] == xs[i] && Distinct(xs)[q] == xs[j]
  {
    var init := xs[..|xs| - 1];
    DistinctElements(init);
    if j < |xs| - 1 {
      assert init[..i] == xs[..i] && init[..j] == xs[..j];
      DistinctKeepsFirstOccurrenceOrder(init, i, j);
      var p, q :| 0 <= p < q < |Distinct(init)| && Distinct(init)[p] == xs[i] && Distinct(init)[q] == xs[j];
      assert Distinct(xs)[p] == xs[i] && Distinct(xs)[q] == xs[j];
    } else {
      assert xs[..j] == init;
      assert xs[i] in Distinct(init) by { assert xs[i] == init[i]; }
      var p :| 0 <= p < |Distinct(init)| && Distinct(init)[p] == xs[i];
      assert Distinct(xs) == Distinct(init) + [xs[j]];
      var q := |Distinct(init)|;
      assert Distinct(xs)[p] == xs[i] && Distinct(xs)[q] == xs[j];
    }
  }

  lemma DistinctIdempotent<T>(xs: seq<T>)
    ensures Distinct(Distinct(xs)) == Distinct(xs)
  {
    DistinctElements(xs);
    DistinctOfNoDuplicates(Distinct(xs));
  }

  /** A select's result columns and its source. */
  datatype SelectFrom<E, S> = SelectFrom(resultColumns: seq<E>, sourceSet: S)

  /** `subset(columns)`: the same source with the given columns, each kept
      once, at its first occurrence. */
  function Subset<E(==), S>(select: SelectFrom<E, S>, columns: seq<E>): (r: SelectFrom<E, S>)
    ensures r.sourceSet == select.sourceSet
    ensures NoDuplicates(r.resultColumns)
    ensures forall i :: 0 <= i < |columns| ==> columns[i] in r.resultColumns
    ensures forall i :: 0 <= i < |r.resultColumns| ==> r.resultColumns[i] in columns
  {
    DistinctElements(columns);
    SelectFrom(Distinct(columns), select.sourceSet)
  }
}
