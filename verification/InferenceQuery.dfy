/**
 How an inference request's SQL becomes transform steps, how many rows those steps are predicted
 to give, and in which order the model receives its columns.
 */
module InferenceQuery {
  import opened Wrappers
  import opened Relational
  import opened TrainingQuery
  import opened TrainingMeaning
  import opened SqlMeaning

  datatype Layout = Layout(features: seq<Column>, entity: Column, alias: string, params: map<string, string>)

  datatype Input = Input(columns: seq<string>, steps: seq<Step>)

  // ---------------------------------------------------------------- steps

  predicate FiltersResolve(engine: Engine, l: Layout, sql: Sql, n: nat)
    requires n <= |sql.where|
  {
    forall i :: 0 <= i < n ==> sql.where[i].alias in {None, Some(l.alias)} && Resolve(engine, l.params, sql.where[i]).Some?
  }

  function Filters(engine: Engine, l: Layout, sql: Sql, n: nat): seq<Predicate>
    requires n <= |sql.where| && FiltersResolve(engine, l, sql, n)
  {
    seq(n, i requires 0 <= i < n => Resolve(engine, l.params, sql.where[i]).value)
  }

  // Filters in order, then at most one limit.
  method QueryTransforms(engine: Engine, l: Layout, sql: Sql) returns (steps: Option<seq<Step>>)
    ensures steps.Some? <==> sql.alias in {None, Some(l.alias)} && FiltersResolve(engine, l, sql, |sql.where|)
    ensures steps.Some? ==> steps.value == FilterSteps(Filters(engine, l, sql, |sql.where|)) + LimitSteps(sql.limit)
  {
    hide Resolve;
    if sql.alias !in {None, Some(l.alias)} {
      return None;
    }
    var result: seq<Step> := [];
    for i := 0 to |sql.where|
      invariant FiltersResolve(engine, l, sql, i)
      invariant result == FilterSteps(Filters(engine, l, sql, i))
    {
      var c := sql.where[i];
      var p := Resolve(engine, l.params, c);
      if c.alias !in {None, Some(l.alias)} || p.None? {
        return None;
      }
      result := result + [Filter(p.value)];
    }
    if sql.limit.Some? {
      result := result + [Limit(sql.limit.value)];
    }
    steps := Some(result);
  }

  predicate DistinctSources(cs: seq<Column>) {
    forall i, j :: 0 <= i < j < |cs| ==> cs[i].source != cs[j].source
  }

  function Names(cs: seq<Column>): map<string, string>
    requires DistinctSources(cs)
  {
    map i | 0 <= i < |cs| :: cs[i].source := cs[i].result
  }

  // A feature over the entity's own column names it.
  function ExpectedProjection(l: Layout): map<string, string>
    requires DistinctSources(l.features)
  {
    map[l.entity.source := l.entity.result] + Names(l.features)
  }

  predicate LayoutOk(engine: Engine, l: Layout, sql: Sql) {
    && DistinctSources(l.features)
    && FiltersResolve(engine, l, sql, |sql.where|)
    && sql.alias == Some(l.alias)
    && Plain(sql.items, sql.alias) && Consistent(ColumnsOf(sql.items))
    && MappingOf(ColumnsOf(sql.items)) == ExpectedProjection(l)
  }

  function QueryFor(engine: Engine, l: Layout, sql: Sql): Select
    requires LayoutOk(engine, l, sql)
  {
    Select(ExpectedProjection(l), Filters(engine, l, sql, |sql.where|), sql.limit)
  }

  function InputFor(l: Layout, steps: seq<Step>): Input {
    Input(FirstSeen([l.entity.source] + Sources(l.features) + FilterColumns(steps)), steps)
  }

  method InputLayout(engine: Engine, l: Layout, sql: Sql) returns (input: Option<Input>)
    ensures input.Some? <==> LayoutOk(engine, l, sql)
    ensures input.Some? ==> input.value == InputFor(l, FilterSteps(QueryFor(engine, l, sql).where) + LimitSteps(sql.limit))
  {
    hide Consistent, MappingOf, Plain, FirstSeen, Sources, FiltersResolve, FilterColumns, Names;
    if !DistinctSources(l.features) {
      return None;
    }
    var steps := QueryTransforms(engine, l, sql);
    if steps.None? || sql.alias != Some(l.alias) {
      return None;
    }
    var projection := ProjectionColumns(sql.items, sql.alias);
    if projection != Some(ExpectedProjection(l)) {
      return None;
    }
    input := Some(InputFor(l, steps.value));
  }

  lemma NamesAt(cs: seq<Column>, i: nat)
    requires DistinctSources(cs) && i < |cs|
    ensures cs[i].source in Names(cs) && Names(cs)[cs[i].source] == cs[i].result
  {
  }

  // An accepted layout names its features apart.
  lemma FeatureNamesDiffer(engine: Engine, l: Layout, sql: Sql)
    requires LayoutOk(engine, l, sql)
    ensures OneToOne(ExpectedProjection(l))
    ensures Alone(l.features)
  {
    hide Consistent, MappingOf, Plain, FiltersResolve, Names;
    MappingFacts(ColumnsOf(sql.items));
    var m := ExpectedProjection(l);
    forall i | 0 <= i < |l.features| ensures l.features[i].source in m && m[l.features[i].source] == l.features[i].result {
      NamesAt(l.features, i);
    }
  }

  // ---------------------------------------------------------------- what reaches the model

  ghost function ModelRows(engine: Engine, input: Input, table: seq<Row>): seq<Row> {
    Run(engine, input.steps, Scan(table, input.columns))
  }

  function StepsFor(engine: Engine, l: Layout, sql: Sql): seq<Step>
    requires LayoutOk(engine, l, sql)
  {
    FilterSteps(QueryFor(engine, l, sql).where) + LimitSteps(sql.limit)
  }

  lemma InputColumnsRead(engine: Engine, l: Layout, sql: Sql)
    requires LayoutOk(engine, l, sql)
    ensures
      var columns := InputFor(l, StepsFor(engine, l, sql)).columns;
      && (forall s :: s in ExpectedProjection(l) ==> s in columns)
      && forall i :: 0 <= i < |QueryFor(engine, l, sql).where| ==> QueryFor(engine, l, sql).where[i].column in columns
  {
    hide LayoutOk, FirstSeen;
    var steps, q := StepsFor(engine, l, sql), QueryFor(engine, l, sql);
    var all := [l.entity.source] + Sources(l.features) + FilterColumns(steps);
    FirstSeenMeans(all);
    LayoutSources(engine, l, sql);
    forall s | s in ExpectedProjection(l) ensures s in all {
      if s != l.entity.source {
        var i :| 0 <= i < |l.features| && l.features[i].source == s;
        assert Sources(l.features)[i] == s;
      }
    }
    forall i | 0 <= i < |q.where| ensures q.where[i].column in FilterColumns(steps) {
      assert steps[i] == Filter(q.where[i]);
      FilterColumnsOf(steps, i);
    }
  }

  lemma LayoutSources(engine: Engine, l: Layout, sql: Sql)
    requires LayoutOk(engine, l, sql)
    ensures DistinctSources(l.features)
    ensures forall s :: s in ExpectedProjection(l) && s != l.entity.source ==> exists i :: 0 <= i < |l.features| && l.features[i].source == s
  {
    hide Consistent, MappingOf, Plain, FiltersResolve;
  }

  // The rows that reach the model answer the resolved query.
  lemma InputAnswers(engine: Engine, l: Layout, sql: Sql, table: seq<Row>)
    requires LayoutOk(engine, l, sql) && Complete(table, ExpectedProjection(l).Keys)
    ensures
      var rows, q := ModelRows(engine, InputFor(l, StepsFor(engine, l, sql)), table), QueryFor(engine, l, sql);
      && rows == Scan(Chosen(engine, q, table), InputFor(l, StepsFor(engine, l, sql)).columns)
      && Complete(rows, ExpectedProjection(l).Keys)
      && seq(|rows|, i requires 0 <= i < |rows| => Projected(rows[i], ExpectedProjection(l))) == Answer(engine, q, table)
  {
    hide LayoutOk, Chosen, FirstSeen, ExpectedProjection;
    LayoutSources(engine, l, sql);
    var q, columns := QueryFor(engine, l, sql), InputFor(l, StepsFor(engine, l, sql)).columns;
    InputColumnsRead(engine, l, sql);
    ChoosingRun(engine, q, Scan(table, columns));
    ChosenScan(engine, q, table, columns);
    var chosen, m := Chosen(engine, q, table), ExpectedProjection(l);
    assert Complete(chosen, m.Keys);
    forall i | 0 <= i < |chosen|
      ensures m.Keys <= Narrowed(chosen[i], columns).Keys
      ensures Projected(Narrowed(chosen[i], columns), m) == Projected(chosen[i], m)
    {
    }
  }

  lemma LayoutDecoded(engine: Engine, l: Layout, sql: Sql)
    requires LayoutOk(engine, l, sql)
    ensures DistinctSources(l.features)
    ensures Once(sql.items) && Consistent(ColumnsOf(sql.items)) && MappingOf(ColumnsOf(sql.items)) == ExpectedProjection(l)
    ensures Decoded(engine, l.params, sql.where, QueryFor(engine, l, sql).where) && QueryFor(engine, l, sql).limit == sql.limit
  {
    hide MappingOf, Consistent, Resolve;
    OnceIff(sql.items);
    forall i | 0 <= i < |sql.where| ensures Resolve(engine, l.params, sql.where[i]) == Some(QueryFor(engine, l, sql).where[i]) {}
  }

  // The rows that reach the model are the rows the statement chooses, with every column it
  // selects, and named by their declarations they are the rows it means.
  lemma InputMeansQuery(engine: Engine, l: Layout, sql: Sql, table: seq<Row>)
    requires LayoutOk(engine, l, sql) && Covers(table, sql.items)
    ensures DistinctSources(l.features) && Once(sql.items)
    ensures
      var rows := ModelRows(engine, InputFor(l, StepsFor(engine, l, sql)), table);
      && rows == Scan(First(WantedRows(engine, l.params, sql.where, table), sql.limit), InputFor(l, StepsFor(engine, l, sql)).columns)
      && Complete(rows, ExpectedProjection(l).Keys)
      && seq(|rows|, i requires 0 <= i < |rows| => Projected(rows[i], ExpectedProjection(l))) == SqlRows(engine, l.params, sql, table)
  {
    hide LayoutOk, Consistent, MappingOf, Answer, Once, Covers, Decoded, Kept, WantedRows, ModelRows, Projected, ExpectedProjection, InputFor;
    LayoutDecoded(engine, l, sql);
    CompleteCovers(table, sql.items);
    InputAnswers(engine, l, sql, table);
    var q := QueryFor(engine, l, sql);
    AnswerIsSql(engine, l.params, sql, q, table);
    WantedAreKept(engine, l.params, sql.where, q.where, table);
  }

  // ---------------------------------------------------------------- counting them first

  datatype Clause = Clause(column: string, op: Op, parameter: nat)

  // SELECT count() with one numbered parameter per filter.
  datatype CountQuery = CountQuery(clauses: seq<Clause>, parameters: map<nat, Value>)

  predicate Counts(engine: Engine, q: CountQuery, row: Row) {
    forall i :: 0 <= i < |q.clauses| ==>
      var c := q.clauses[i];
      c.parameter in q.parameters && c.column in row && engine.holds(c.op, row[c.column], q.parameters[c.parameter])
  }

  function CountRows(engine: Engine, q: CountQuery, table: seq<Row>): nat {
    if table == [] then 0 else (if Counts(engine, q, table[0]) then 1 else 0) + CountRows(engine, q, table[1..])
  }

  // Each clause finds the value of its own filter.
  predicate Binds(q: CountQuery, ps: seq<Predicate>) {
    && |q.clauses| == |ps|
    && forall i :: 0 <= i < |ps| ==>
         var c := q.clauses[i];
         c.column == ps[i].column && c.op == ps[i].op && c.parameter in q.parameters && q.parameters[c.parameter] == ps[i].value
  }

  lemma {:induction false} CountRowsIsKept(engine: Engine, q: CountQuery, ps: seq<Predicate>, table: seq<Row>)
    requires Binds(q, ps)
    ensures CountRows(engine, q, table) == |Kept(engine, ps, table)|
  {
    if table != [] {
      CountRowsIsKept(engine, q, ps, table[1..]);
      assert Counts(engine, q, table[0]) <==> Satisfies(engine, ps, table[0]);
    }
  }

  function FiltersOf(steps: seq<Step>): seq<Predicate> {
    if steps == [] then []
    else
      var front, last := FiltersOf(steps[..|steps| - 1]), steps[|steps| - 1];
      if last.Filter? then front + [last.condition] else front
  }

  function LastLimit(steps: seq<Step>): Option<nat> {
    if steps == [] then None
    else if steps[|steps| - 1].Limit? then Some(steps[|steps| - 1].count)
    else LastLimit(steps[..|steps| - 1])
  }

  // All filters, wherever they stand, and then the last limit.
  function Measured(engine: Engine, steps: seq<Step>, table: seq<Row>): nat {
    |First(Kept(engine, FiltersOf(steps), table), LastLimit(steps))|
  }

  lemma PrefixStep(steps: seq<Step>, i: nat)
    requires i < |steps|
    ensures FiltersOf(steps[..i + 1]) == if steps[i].Filter? then FiltersOf(steps[..i]) + [steps[i].condition] else FiltersOf(steps[..i])
    ensures LastLimit(steps[..i + 1]) == if steps[i].Limit? then Some(steps[i].count) else LastLimit(steps[..i])
  {
    assert steps[..i + 1][..i] == steps[..i];
  }

  function WithoutPrefix(s: string, prefix: string): string {
    if |prefix| <= |s| && s[..|prefix|] == prefix then s[|prefix|..] else s
  }

  function WithoutSuffix(s: string, suffix: string): string {
    if |suffix| <= |s| && s[|s| - |suffix|..] == suffix then s[..|s| - |suffix|] else s
  }

  // Whether a column of this ClickHouse type is compared as text.
  predicate TextType(native: string) {
    var bare := WithoutSuffix(WithoutPrefix(WithoutSuffix(WithoutPrefix(native, "Nullable("), ")"), "LowCardinality("), ")");
    bare == "String" || (|bare| >= 12 && bare[..12] == "FixedString(")
  }

  lemma Affixes(affix: string, s: string)
    requires affix != ""
    ensures WithoutPrefix(affix + s, affix) == s && WithoutSuffix(s + affix, affix) == s
    ensures s != "" && s[0] != affix[0] ==> WithoutPrefix(s, affix) == s
    ensures s != "" && s[|s| - 1] != affix[|affix| - 1] ==> WithoutSuffix(s, affix) == s
  {
    assert (affix + s)[..|affix|] == affix && (affix + s)[|affix|..] == s;
    assert (s + affix)[|s|..] == affix && (s + affix)[..|s|] == s;
    if |affix| <= |s| {
      assert s[..|affix|][0] == s[0] && s[|s| - |affix|..][|affix| - 1] == s[|s| - 1];
    }
  }

  // A type is compared as its inner type is, once nullable or once in a dictionary.
  lemma WrappedType(t: string)
    requires t != "" && t[0] != 'N' && t[0] != 'L' && t[|t| - 1] != ')'
    ensures TextType(t) <==> t == "String" || (|t| >= 12 && t[..12] == "FixedString(")
    ensures TextType("Nullable(" + t + ")") <==> TextType(t)
    ensures TextType("LowCardinality(" + t + ")") <==> TextType(t)
  {
    hide WithoutPrefix, WithoutSuffix;
    var n, l := "Nullable(", "LowCardinality(";
    Affixes(n, t);
    Affixes(l, t);
    Affixes(")", t);
    Affixes(n, t + ")");
    assert n + (t + ")") == n + t + ")";
    Affixes(n, l + t + ")");
    Affixes(")", l + t);
  }

  predicate Countable(steps: seq<Step>) {
    forall i :: 0 <= i < |steps| ==> steps[i].Filter? || steps[i].Limit?
  }

  predicate ColumnsPresent(columns: seq<string>, available: map<string, string>) {
    forall i :: 0 <= i < |columns| ==> columns[i] in available
  }

  // Text is compared with text only, and other values with other columns.
  predicate TypesAgree(steps: seq<Step>, available: map<string, string>) {
    forall i :: 0 <= i < |steps| && steps[i].Filter? && steps[i].condition.column in available ==>
      (steps[i].condition.value.Text? <==> TextType(available[steps[i].condition.column]))
  }

  predicate FiltersRead(steps: seq<Step>, columns: seq<string>) {
    forall i :: 0 <= i < |steps| && steps[i].Filter? ==> steps[i].condition.column in columns
  }

  datatype Count = Counted(rows: nat) | Unsupported | ColumnMissing | TypeMismatch

  // The columns are there, the types agree, and the count of the numbered statement is cut by
  // the limit.
  method MeasureInputRows(engine: Engine, input: Input, available: map<string, string>, table: seq<Row>) returns (r: Count)
    requires FiltersRead(input.steps, input.columns)
    ensures r.Counted? <==> Countable(input.steps) && ColumnsPresent(input.columns, available) && TypesAgree(input.steps, available)
    ensures r.Counted? ==> r.rows == Measured(engine, input.steps, table)
    ensures r.Unsupported? <==> !Countable(input.steps)
    ensures r.ColumnMissing? <==> Countable(input.steps) && !ColumnsPresent(input.columns, available)
  {
    hide FiltersOf, LastLimit, Kept, CountRows, TextType;
    var steps := input.steps;
    var clauses: seq<Clause>, parameters: map<nat, Value>, limit: Option<nat> := [], map[], None;
    NoSteps();
    for i := 0 to |steps|
      invariant Countable(steps[..i])
      invariant Binds(CountQuery(clauses, parameters), FiltersOf(steps[..i]))
      invariant forall k :: k in parameters ==> k < i
      invariant limit == LastLimit(steps[..i])
    {
      PrefixStep(steps, i);
      match steps[i]
      case Limit(count) =>
        limit := Some(count);
      case Filter(p) =>
        clauses := clauses + [Clause(p.column, p.op, i)];
        parameters := parameters[i := p.value];
      case _ =>
        return Unsupported;
    }
    assert steps[..|steps|] == steps;
    if !ColumnsPresent(input.columns, available) {
      return ColumnMissing;
    }
    for i := 0 to |steps|
      invariant TypesAgree(steps[..i], available)
    {
      if steps[i].Filter? && steps[i].condition.value.Text? != TextType(available[steps[i].condition.column]) {
        return TypeMismatch;
      }
    }
    var q := CountQuery(clauses, parameters);
    CountRowsIsKept(engine, q, FiltersOf(steps), table);
    var rows := CountRows(engine, q, table);
    r := Counted(if limit.Some? && limit.value < rows then limit.value else rows);
  }

  lemma NoSteps()
    ensures FiltersOf([]) == [] && LastLimit([]) == None
  {
  }

  lemma {:induction false} FiltersOfChain(ps: seq<Predicate>)
    ensures FiltersOf(FilterSteps(ps)) == ps && LastLimit(FilterSteps(ps)) == None
  {
    if ps != [] {
      var front := ps[..|ps| - 1];
      FiltersOfChain(front);
      assert FilterSteps(ps)[..|ps| - 1] == FilterSteps(front);
      assert ps == front + [ps[|ps| - 1]];
    }
  }

  // For every pipeline the query mapping builds, the measured count is the output's length.
  lemma MeasureAgrees(engine: Engine, ps: seq<Predicate>, limit: Option<nat>, table: seq<Row>, columns: seq<string>)
    requires forall i :: 0 <= i < |ps| ==> ps[i].column in columns
    ensures Measured(engine, FilterSteps(ps) + LimitSteps(limit), table) ==
              |Run(engine, FilterSteps(ps) + LimitSteps(limit), Scan(table, columns))|
  {
    var q, steps := Select(map[], ps, limit), FilterSteps(ps) + LimitSteps(limit);
    FiltersOfChain(ps);
    if limit.Some? {
      assert steps[..|ps|] == FilterSteps(ps);
    } else {
      assert steps == FilterSteps(ps);
    }
    ChoosingRun(engine, q, Scan(table, columns));
    ChosenScan(engine, q, table, columns);
  }

  // What an accepted layout asks to be counted can be counted.
  lemma LayoutCountable(engine: Engine, l: Layout, sql: Sql)
    requires LayoutOk(engine, l, sql)
    ensures Countable(StepsFor(engine, l, sql))
    ensures FiltersRead(StepsFor(engine, l, sql), InputFor(l, StepsFor(engine, l, sql)).columns)
  {
    hide LayoutOk, FirstSeen;
    InputColumnsRead(engine, l, sql);
    var q, steps := QueryFor(engine, l, sql), StepsFor(engine, l, sql);
    forall i | 0 <= i < |steps|
      ensures steps[i].Filter? || steps[i].Limit?
      ensures steps[i].Filter? ==> steps[i].condition.column in InputFor(l, steps).columns
    {
      assert i < |q.where| ==> steps[i] == Filter(q.where[i]);
    }
  }

  // The count is zero exactly when no row would reach the model.
  lemma EmptyInputExact(engine: Engine, l: Layout, sql: Sql, table: seq<Row>)
    requires LayoutOk(engine, l, sql)
    ensures Measured(engine, StepsFor(engine, l, sql), table) == |ModelRows(engine, InputFor(l, StepsFor(engine, l, sql)), table)|
    ensures Measured(engine, StepsFor(engine, l, sql), table) == 0 <==> ModelRows(engine, InputFor(l, StepsFor(engine, l, sql)), table) == []
  {
    hide LayoutOk, FirstSeen;
    InputColumnsRead(engine, l, sql);
    MeasureAgrees(engine, QueryFor(engine, l, sql).where, sql.limit, table, InputFor(l, StepsFor(engine, l, sql)).columns);
  }

  predicate AllKept(engine: Engine, ps: seq<Predicate>, rows: seq<Row>) {
    forall i :: 0 <= i < |rows| ==> Satisfies(engine, ps, rows[i])
  }

  predicate NoneKept(engine: Engine, ps: seq<Predicate>, rows: seq<Row>) {
    forall i :: 0 <= i < |rows| ==> !Satisfies(engine, ps, rows[i])
  }

  lemma {:induction false} KeptExtremes(engine: Engine, ps: seq<Predicate>, rows: seq<Row>)
    ensures |Kept(engine, ps, rows)| <= |rows|
    ensures |Kept(engine, ps, rows)| == |rows| <==> AllKept(engine, ps, rows)
    ensures |Kept(engine, ps, rows)| == 0 <==> NoneKept(engine, ps, rows)
  {
    hide Satisfies;
    if rows != [] {
      KeptExtremes(engine, ps, rows[1..]);
      assert AllKept(engine, ps, rows) <==> Satisfies(engine, ps, rows[0]) && AllKept(engine, ps, rows[1..]) by {
        assert forall i :: 0 <= i < |rows| - 1 ==> rows[1..][i] == rows[i + 1];
        assert forall i :: 0 < i < |rows| ==> rows[i] == rows[1..][i - 1];
      }
      assert NoneKept(engine, ps, rows) <==> !Satisfies(engine, ps, rows[0]) && NoneKept(engine, ps, rows[1..]) by {
        assert forall i :: 0 <= i < |rows| - 1 ==> rows[1..][i] == rows[i + 1];
        assert forall i :: 0 < i < |rows| ==> rows[i] == rows[1..][i - 1];
      }
    }
  }

  // With a limit before the filters the prediction would be right only when the limited rows all
  // pass, or none after them does: the order the mapping keeps matters.
  lemma LimitFirstIff(engine: Engine, n: nat, ps: seq<Predicate>, table: seq<Row>)
    ensures Measured(engine, [Limit(n)] + FilterSteps(ps), table) == |Run(engine, [Limit(n)] + FilterSteps(ps), table)| <==>
              var first := First(table, Some(n));
              AllKept(engine, ps, first) || NoneKept(engine, ps, table[|first|..])
  {
    hide Kept, Satisfies, FiltersOf, LastLimit;
    var steps, first, rest := [Limit(n)] + FilterSteps(ps), First(table, Some(n)), table[|First(table, Some(n))|..];
    LimitedFilters(n, ps);
    assert steps[1..] == FilterSteps(ps);
    FilterRun(engine, ps, first);
    KeptConcat(engine, ps, first, rest);
    assert first + rest == table;
    KeptExtremes(engine, ps, first);
    KeptExtremes(engine, ps, rest);
  }

  lemma {:induction false} LimitedFilters(n: nat, ps: seq<Predicate>)
    ensures FiltersOf([Limit(n)] + FilterSteps(ps)) == ps && LastLimit([Limit(n)] + FilterSteps(ps)) == Some(n)
  {
    if ps == [] {
      assert [Limit(n)] + FilterSteps(ps) == [Limit(n)];
      assert [Limit(n)][..0] == [];
    } else {
      var front := ps[..|ps| - 1];
      LimitedFilters(n, front);
      var steps := [Limit(n)] + FilterSteps(ps);
      assert steps[..|steps| - 1] == [Limit(n)] + FilterSteps(front);
      assert ps == front + [ps[|ps| - 1]];
    }
  }

  // ---------------------------------------------------------------- column order

  function Results(cs: seq<Column>): seq<string> {
    seq(|cs|, i requires 0 <= i < |cs| => cs[i].result)
  }

  function ByName(features: seq<Column>): map<string, string>
    requires Alone(features)
  {
    map i | 0 <= i < |features| :: features[i].result := features[i].source
  }

  predicate NamesMatch(features: seq<Column>, names: seq<string>)
    requires Alone(features)
  {
    (set n | n in names) == ByName(features).Keys
  }

  function TensorColumns(features: seq<Column>, names: seq<string>): seq<string>
    requires Alone(features) && NamesMatch(features, names)
  {
    seq(|names|, i requires 0 <= i < |names| => Known(features, names, i); ByName(features)[names[i]])
  }

  lemma Known(features: seq<Column>, names: seq<string>, i: nat)
    requires Alone(features) && NamesMatch(features, names) && i < |names|
    ensures names[i] in ByName(features)
  {
    assert names[i] in (set n | n in names);
  }

  lemma ZipIsByName(features: seq<Column>, names: seq<string>, columns: seq<string>, m: map<string, string>)
    requires Alone(features) && names == Results(features) && columns == Sources(features)
    requires forall n :: n in m <==> n in names
    requires forall i :: 0 <= i < |names| ==> names[i] in m && m[names[i]] == columns[i]
    ensures m == ByName(features)
  {
    forall n ensures n in m <==> n in ByName(features) {
      if n in m {
        var i :| 0 <= i < |names| && names[i] == n;
        assert features[i].result == n;
      }
      if n in ByName(features) {
        var i :| 0 <= i < |features| && features[i].result == n;
        assert names[i] == n;
      }
    }
    forall n | n in m ensures m[n] == ByName(features)[n] {
      var i :| 0 <= i < |names| && names[i] == n;
      assert features[i].result == n && columns[i] == features[i].source;
    }
  }

  // What the result sink knows about the model's columns.
  class Sink {
    var featureColumns: seq<string>
    var featureResultNames: seq<string>
    var modelFeatureNames: seq<string>

    constructor (features: seq<Column>)
      ensures featureColumns == Sources(features) && featureResultNames == Results(features)
      ensures modelFeatureNames == Sources(features)
    {
      featureColumns, featureResultNames := Sources(features), Results(features);
      modelFeatureNames := Sources(features);
    }

    // Orders the columns as the verified model wants them; the sink follows.
    method PrepareModel(features: seq<Column>, names: seq<string>) returns (columns: Option<seq<string>>)
      requires Alone(features) && featureColumns == Sources(features) && featureResultNames == Results(features)
      modifies this
      ensures columns.Some? <==> NamesMatch(features, names)
      ensures columns.Some? ==>
        && columns.value == TensorColumns(features, names)
        && featureColumns == columns.value && featureResultNames == names && modelFeatureNames == names
      ensures columns.None? ==> featureColumns == old(featureColumns) && featureResultNames == old(featureResultNames)
      ensures columns.None? ==> modelFeatureNames == old(modelFeatureNames)
    {
      var byName := map i | 0 <= i < |featureResultNames| :: featureResultNames[i] := featureColumns[i];
      ZipIsByName(features, featureResultNames, featureColumns, byName);
      if (set n | n in names) != byName.Keys {
        return None;
      }
      featureColumns := seq(|names|, i requires 0 <= i < |names| => byName[names[i]]);
      featureResultNames, modelFeatureNames := names, names;
      columns := Some(featureColumns);
    }
  }

  predicate NoRepeat(xs: seq<string>) {
    forall i, j :: 0 <= i < j < |xs| ==> xs[i] != xs[j]
  }

  // Each position of the tensor is the declared column of the name the model has there.
  lemma TensorAligned(features: seq<Column>, names: seq<string>, i: nat)
    requires Alone(features) && NamesMatch(features, names) && i < |names|
    ensures exists k :: 0 <= k < |features| && features[k] == Column(TensorColumns(features, names)[i], names[i])
  {
    Known(features, names, i);
    var k :| 0 <= k < |features| && features[k].result == names[i];
    assert ByName(features)[names[i]] == features[k].source;
    assert features[k] == Column(TensorColumns(features, names)[i], names[i]);
  }

  lemma {:induction false} NoRepeatCounts(xs: seq<string>, x: string)
    requires NoRepeat(xs)
    ensures multiset(xs)[x] == if x in xs then 1 else 0
  {
    if xs != [] {
      var front, last := xs[..|xs| - 1], xs[|xs| - 1];
      NoRepeatCounts(front, x);
      assert xs == front + [last];
    }
  }

  // The tensor's columns are a permutation of the declared ones.
  lemma TensorPermutes(features: seq<Column>, names: seq<string>)
    requires Alone(features) && NamesMatch(features, names) && NoRepeat(names)
    ensures multiset(TensorColumns(features, names)) == multiset(Sources(features))
  {
    var columns, sources := TensorColumns(features, names), Sources(features);
    assert NoRepeat(sources);
    assert NoRepeat(columns) by {
      forall i, j | 0 <= i < j < |columns| ensures columns[i] != columns[j] {
        TensorAligned(features, names, i);
        TensorAligned(features, names, j);
      }
    }
    forall x ensures multiset(columns)[x] == multiset(sources)[x] {
      NoRepeatCounts(columns, x);
      NoRepeatCounts(sources, x);
      SameColumns(features, names, x);
    }
  }

  lemma ByNameAt(features: seq<Column>, k: nat)
    requires Alone(features) && k < |features|
    ensures features[k].result in ByName(features) && ByName(features)[features[k].result] == features[k].source
  {
  }

  lemma NamePosition(features: seq<Column>, names: seq<string>, n: string) returns (i: nat)
    requires Alone(features) && NamesMatch(features, names) && n in ByName(features)
    ensures i < |names| && names[i] == n
  {
    assert n in (set m | m in names);
    i :| 0 <= i < |names| && names[i] == n;
  }

  lemma SameColumns(features: seq<Column>, names: seq<string>, x: string)
    requires Alone(features) && NamesMatch(features, names)
    ensures x in TensorColumns(features, names) <==> x in Sources(features)
  {
    hide Alone, NamesMatch, ByName;
    var columns := TensorColumns(features, names);
    if x in columns {
      var i :| 0 <= i < |columns| && columns[i] == x;
      TensorAligned(features, names, i);
      var k :| 0 <= k < |features| && features[k] == Column(x, names[i]);
      assert Sources(features)[k] == x;
    }
    if x in Sources(features) {
      var k :| 0 <= k < |features| && Sources(features)[k] == x;
      ByNameAt(features, k);
      var i := NamePosition(features, names, features[k].result);
      Known(features, names, i);
      assert columns[i] == x;
    }
  }

  // Declaring the features in another order changes nothing the model sees.
  lemma DeclarationOrderIrrelevant(features: seq<Column>, others: seq<Column>, names: seq<string>)
    requires Alone(features) && Alone(others) && multiset(features) == multiset(others)
    requires NamesMatch(features, names)
    ensures NamesMatch(others, names) && TensorColumns(others, names) == TensorColumns(features, names)
  {
    assert ByName(features) == ByName(others) by {
      forall c ensures c in features <==> c in others {
        assert c in multiset(features) <==> c in multiset(others);
      }
      PairsDecide(features, others);
    }
  }

  lemma PairsDecide(features: seq<Column>, others: seq<Column>)
    requires Alone(features) && Alone(others) && forall c :: c in features <==> c in others
    ensures ByName(features) == ByName(others)
  {
    forall i | 0 <= i < |features| ensures features[i].result in ByName(others) && ByName(others)[features[i].result] == features[i].source {
      assert features[i] in others;
      var k :| 0 <= k < |others| && others[k] == features[i];
      assert others[k].result in ByName(others);
    }
    forall k | 0 <= k < |others| ensures others[k].result in ByName(features) {
      assert others[k] in features;
      var i :| 0 <= i < |features| && features[i] == others[k];
    }
  }
}
