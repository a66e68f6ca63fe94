/**
 How a training request's SQL becomes a read, a chain of transform steps and perhaps a class
 sampler, from the parsed statement on.
 */
module TrainingQuery {
  import opened Wrappers
  import opened Relational

  // A declared feature, target or entity key: where it comes from and what it is called.
  datatype Column = Column(source: string, result: string)

  datatype Item = Item(alias: Option<string>, source: string, result: string)

  datatype Condition = Condition(alias: Option<string>, column: string, op: Op, parameter: string, ptype: string)

  datatype Sql = Sql(alias: Option<string>, items: seq<Item>, where: seq<Condition>, limit: Option<nat>)

  datatype Request = Request(
    features: seq<Column>,
    target: Column,
    entity: Option<Column>,
    declaredAlias: Option<string>,
    params: map<string, string>)

  // What the provider reads and what runs over it.
  datatype Plan = Plan(columns: seq<string>, steps: seq<Step>)

  // ---------------------------------------------------------------- column mappings

  function Columns(r: Request): seq<Column> {
    r.features + [r.target] + (if r.entity.Some? then [r.entity.value] else [])
  }

  // Same source exactly where same result.
  predicate Consistent(cs: seq<Column>) {
    forall i, j :: 0 <= i < |cs| && 0 <= j < |cs| ==> (cs[i].source == cs[j].source <==> cs[i].result == cs[j].result)
  }

  function MappingOf(cs: seq<Column>): map<string, string>
    requires Consistent(cs)
  {
    map i | 0 <= i < |cs| :: cs[i].source := cs[i].result
  }

  function Sources(cs: seq<Column>): seq<string> {
    seq(|cs|, i requires 0 <= i < |cs| => cs[i].source)
  }

  function FirstSeen(xs: seq<string>): seq<string> {
    if xs == [] then []
    else
      var front, last := FirstSeen(xs[..|xs| - 1]), xs[|xs| - 1];
      if last in front then front else front + [last]
  }

  lemma {:induction false} FirstSeenMeans(xs: seq<string>)
    ensures forall x :: x in FirstSeen(xs) <==> x in xs
    ensures forall i, j :: 0 <= i < j < |FirstSeen(xs)| ==> FirstSeen(xs)[i] != FirstSeen(xs)[j]
  {
    if xs != [] {
      FirstSeenMeans(xs[..|xs| - 1]);
      assert xs == xs[..|xs| - 1] + [xs[|xs| - 1]];
    }
  }

  lemma FirstSeenSnoc(xs: seq<string>, x: string)
    ensures FirstSeen(xs + [x]) == if x in FirstSeen(xs) then FirstSeen(xs) else FirstSeen(xs) + [x]
  {
    assert (xs + [x])[..|xs + [x]| - 1] == xs;
  }

  lemma MappingFacts(cs: seq<Column>)
    requires Consistent(cs)
    ensures OneToOne(MappingOf(cs))
    ensures forall s :: s in MappingOf(cs) <==> s in Sources(cs)
    ensures forall s :: s in MappingOf(cs) <==> s in FirstSeen(Sources(cs))
  {
    FirstSeenMeans(Sources(cs));
    forall s | s in MappingOf(cs) ensures s in Sources(cs) {
      var i :| 0 <= i < |cs| && cs[i].source == s;
      assert Sources(cs)[i] == s;
    }
  }

  // Whether one more declaration agrees with the earlier ones.
  predicate Agrees(m: map<string, string>, source: string, result: string) {
    if source in m then m[source] == result else result !in m.Values
  }

  lemma MappingAt(cs: seq<Column>, i: nat)
    requires Consistent(cs) && i < |cs|
    ensures cs[i].source in MappingOf(cs) && MappingOf(cs)[cs[i].source] == cs[i].result
  {
  }

  lemma AgreesIff(cs: seq<Column>, c: Column)
    requires Consistent(cs)
    ensures Agrees(MappingOf(cs), c.source, c.result) <==>
              forall i :: 0 <= i < |cs| ==> (cs[i].source == c.source <==> cs[i].result == c.result)
  {
    var m := MappingOf(cs);
    forall i | 0 <= i < |cs| ensures cs[i].source in m && m[cs[i].source] == cs[i].result {
      MappingAt(cs, i);
    }
    if c.source !in m && c.result in m.Values {
      var s :| s in m && m[s] == c.result;
    }
  }

  lemma MappingGrows(cs: seq<Column>, c: Column)
    requires Consistent(cs)
    ensures Consistent(cs + [c]) <==> Agrees(MappingOf(cs), c.source, c.result)
    ensures Consistent(cs + [c]) ==> MappingOf(cs + [c]) == MappingOf(cs)[c.source := c.result]
  {
    AgreesIff(cs, c);
    var longer := cs + [c];
    assert longer[|cs|] == c && forall i :: 0 <= i < |cs| ==> longer[i] == cs[i];
    if Consistent(longer) {
      MappingExtends(cs, c);
    }
  }

  lemma MappingExtends(cs: seq<Column>, c: Column)
    requires Consistent(cs) && Consistent(cs + [c])
    ensures MappingOf(cs + [c]) == MappingOf(cs)[c.source := c.result]
  {
    var longer := cs + [c];
    forall i | 0 <= i < |cs| ensures longer[i] == cs[i] && MappingOf(longer)[cs[i].source] == cs[i].result {
      MappingAt(longer, i);
    }
    MappingAt(longer, |cs|);
  }

  lemma PrefixConsistent(cs: seq<Column>, n: nat)
    requires n <= |cs| && Consistent(cs)
    ensures Consistent(cs[..n])
  {
  }

  lemma ColumnStep(cs: seq<Column>, i: nat)
    requires i < |cs| && Consistent(cs[..i])
    ensures Consistent(cs) ==> Agrees(MappingOf(cs[..i]), cs[i].source, cs[i].result)
    ensures Agrees(MappingOf(cs[..i]), cs[i].source, cs[i].result) ==>
      && Consistent(cs[..i + 1])
      && MappingOf(cs[..i + 1]) == MappingOf(cs[..i])[cs[i].source := cs[i].result]
    ensures FirstSeen(Sources(cs[..i + 1])) ==
      if cs[i].source in MappingOf(cs[..i]) then FirstSeen(Sources(cs[..i])) else FirstSeen(Sources(cs[..i])) + [cs[i].source]
  {
    hide Consistent, MappingOf, FirstSeen, Agrees;
    MappingGrows(cs[..i], cs[i]);
    MappingFacts(cs[..i]);
    assert cs[..i + 1] == cs[..i] + [cs[i]];
    assert Sources(cs[..i + 1]) == Sources(cs[..i]) + [cs[i].source];
    FirstSeenSnoc(Sources(cs[..i]), cs[i].source);
    if Consistent(cs) {
      PrefixConsistent(cs, i + 1);
    }
  }

  // Accepts exactly the one-to-one declarations; the keys keep the order of first mention.
  method ColumnMapping(cs: seq<Column>) returns (mapping: Option<map<string, string>>, order: seq<string>)
    ensures mapping.Some? <==> Consistent(cs)
    ensures mapping.Some? ==> mapping.value == MappingOf(cs) && order == FirstSeen(Sources(cs))
  {
    hide Consistent, MappingOf, FirstSeen, Sources;
    var m: map<string, string> := map[];
    order := [];
    NoColumns();
    for i := 0 to |cs|
      invariant Consistent(cs[..i]) && m == MappingOf(cs[..i]) && order == FirstSeen(Sources(cs[..i]))
    {
      var source, result := cs[i].source, cs[i].result;
      ColumnStep(cs, i);
      if source in m && m[source] != result {
        return None, order;
      }
      if result in m.Values && (source !in m || m[source] != result) {
        return None, order;
      }
      if source !in m {
        order := order + [source];
      }
      m := m[source := result];
    }
    assert cs[..|cs|] == cs;
    mapping := Some(m);
  }

  lemma NoColumns()
    ensures Consistent([]) && MappingOf([]) == map[] && FirstSeen(Sources([])) == []
  {
  }

  // ---------------------------------------------------------------- select lists

  function ColumnsOf(items: seq<Item>): seq<Column> {
    seq(|items|, i requires 0 <= i < |items| => Column(items[i].source, items[i].result))
  }

  predicate Alone(cs: seq<Column>) {
    forall i, j :: 0 <= i < j < |cs| ==> cs[i].source != cs[j].source && cs[i].result != cs[j].result
  }

  predicate OneTable(items: seq<Item>, alias: Option<string>) {
    alias.Some? ==> forall i :: 0 <= i < |items| ==> items[i].alias in {None, alias}
  }

  // A select list of distinct columns under distinct names, all of the one table.
  predicate Plain(items: seq<Item>, alias: Option<string>) {
    OneTable(items, alias) && Alone(ColumnsOf(items))
  }

  lemma AloneConsistent(cs: seq<Column>)
    requires Alone(cs)
    ensures Consistent(cs)
  {
  }

  lemma AloneStep(cs: seq<Column>, i: nat)
    requires i < |cs| && Alone(cs[..i])
    ensures Consistent(cs[..i])
    ensures Alone(cs) ==> cs[i].source !in MappingOf(cs[..i]) && cs[i].result !in MappingOf(cs[..i]).Values
    ensures cs[i].source !in MappingOf(cs[..i]) && cs[i].result !in MappingOf(cs[..i]).Values ==>
      && Alone(cs[..i + 1]) && Consistent(cs[..i + 1])
      && MappingOf(cs[..i + 1]) == MappingOf(cs[..i])[cs[i].source := cs[i].result]
  {
    hide MappingOf;
    var front, c := cs[..i], cs[i];
    AloneConsistent(front);
    var m := MappingOf(front);
    forall k | 0 <= k < i ensures front[k] == cs[k] && front[k].source in m && m[front[k].source] == front[k].result {
      MappingAt(front, k);
    }
    MappingFacts(front);
    MappingGrows(front, c);
    assert cs[..i + 1] == front + [c];
    if Alone(cs) {
      hide Consistent;
      assert c.source !in m by {
        assert forall k :: 0 <= k < i ==> Sources(front)[k] == front[k].source;
      }
      AgreesIff(front, c);
    }
  }

  method ProjectionColumns(items: seq<Item>, alias: Option<string>) returns (projection: Option<map<string, string>>)
    ensures projection.Some? <==> Plain(items, alias)
    ensures projection.Some? ==> Consistent(ColumnsOf(items)) && projection.value == MappingOf(ColumnsOf(items))
  {
    hide Consistent, MappingOf, Alone;
    var m: map<string, string> := map[];
    ghost var cs := ColumnsOf(items);
    NoColumns();
    AloneStart();
    for i := 0 to |items|
      invariant OneTable(items[..i], alias)
      invariant Alone(cs[..i]) && Consistent(cs[..i]) && m == MappingOf(cs[..i])
    {
      var item := items[i];
      AloneStep(cs, i);
      if alias.Some? && item.alias !in {None, alias} {
        return None;
      }
      if item.source in m || item.result in m.Values {
        return None;
      }
      m := m[item.source := item.result];
    }
    assert items[..|items|] == items && cs[..|items|] == cs;
    projection := Some(m);
  }

  lemma AloneStart()
    ensures Alone([])
  {
  }

  // ---------------------------------------------------------------- the statement

  function Resolve(engine: Engine, params: map<string, string>, c: Condition): Option<Predicate> {
    if c.parameter !in params then None
    else
      match engine.decode(params[c.parameter], c.ptype)
      case None => None
      case Some(value) => Some(Predicate(c.column, c.op, value))
  }

  predicate Resolves(engine: Engine, r: Request, sql: Sql, n: nat)
    requires n <= |sql.where|
  {
    forall i :: 0 <= i < n ==> sql.where[i].alias in {None, sql.alias} && Resolve(engine, r.params, sql.where[i]).Some?
  }

  function Predicates(engine: Engine, r: Request, sql: Sql, n: nat): seq<Predicate>
    requires n <= |sql.where| && Resolves(engine, r, sql, n)
  {
    seq(n, i requires 0 <= i < n => Resolve(engine, r.params, sql.where[i]).value)
  }

  function Parameters(conditions: seq<Condition>, n: nat): set<string>
    requires n <= |conditions|
  {
    set i | 0 <= i < n :: conditions[i].parameter
  }

  // The statement reads exactly the declared columns of the one table, every filter is typed and
  // every parameter is used.
  predicate Readable(engine: Engine, r: Request, sql: Sql) {
    && (sql.alias.Some? && r.declaredAlias.Some? ==> sql.alias == r.declaredAlias)
    && Consistent(Columns(r))
    && Plain(sql.items, sql.alias) && Consistent(ColumnsOf(sql.items))
    && MappingOf(ColumnsOf(sql.items)) == MappingOf(Columns(r))
    && Resolves(engine, r, sql, |sql.where|)
    && Parameters(sql.where, |sql.where|) == r.params.Keys
  }

  function QueryOf(engine: Engine, r: Request, sql: Sql): Select
    requires Readable(engine, r, sql)
  {
    Select(MappingOf(Columns(r)), Predicates(engine, r, sql, |sql.where|), sql.limit)
  }

  function Required(r: Request): seq<string> {
    FirstSeen(Sources(Columns(r)))
  }

  function ReadSteps(engine: Engine, r: Request, sql: Sql): seq<Step>
    requires Readable(engine, r, sql)
  {
    var q := QueryOf(engine, r, sql);
    var core := FilterSteps(q.where) + LimitSteps(q.limit);
    if core == [] then [] else core + [SelectColumns(Required(r))]
  }

  method NativeClickhouseRead(engine: Engine, r: Request, sql: Sql, required: seq<string>, mapping: map<string, string>)
    returns (steps: Option<seq<Step>>)
    requires Consistent(Columns(r)) && mapping == MappingOf(Columns(r)) && required == Required(r)
    ensures steps.Some? <==> Readable(engine, r, sql)
    ensures steps.Some? ==> steps.value == ReadSteps(engine, r, sql)
  {
    hide Consistent, MappingOf, Plain, FirstSeen, Sources, Resolve;
    if sql.alias.Some? && r.declaredAlias.Some? && sql.alias != r.declaredAlias {
      return None;
    }
    var projection := ProjectionColumns(sql.items, sql.alias);
    if projection != Some(mapping) {
      return None;
    }
    var filters: seq<Step>, consumed := [], {};
    for i := 0 to |sql.where|
      invariant Resolves(engine, r, sql, i)
      invariant filters == FilterSteps(Predicates(engine, r, sql, i))
      invariant consumed == Parameters(sql.where, i)
    {
      var c := sql.where[i];
      var p := Resolve(engine, r.params, c);
      if c.alias !in {None, sql.alias} || p.None? {
        return None;
      }
      filters := filters + [Filter(p.value)];
      consumed := consumed + {c.parameter};
    }
    if consumed != r.params.Keys {
      return None;
    }
    var result := filters;
    if sql.limit.Some? {
      result := result + [Limit(sql.limit.value)];
    }
    if result != [] {
      result := result + [SelectColumns(required)];
    }
    steps := Some(result);
  }

  // ---------------------------------------------------------------- the plan

  function FilterColumns(steps: seq<Step>): seq<string> {
    if steps == [] then []
    else
      var front, last := FilterColumns(steps[..|steps| - 1]), steps[|steps| - 1];
      if last.Filter? then front + [last.condition.column] else front
  }

  function RenameSteps(mapping: map<string, string>): seq<Step> {
    if Renames(mapping) == map[] then [] else [RenameColumns(Renames(mapping))]
  }

  function Renames(mapping: map<string, string>): map<string, string> {
    map s | s in mapping && mapping[s] != s :: mapping[s]
  }

  // Filter columns are read after the required ones; renaming comes last.
  function PlanFor(r: Request, steps: seq<Step>): Plan
    requires Consistent(Columns(r))
  {
    Plan(FirstSeen(Required(r) + FilterColumns(steps)), steps + RenameSteps(MappingOf(Columns(r))))
  }

  lemma {:induction false} FirstSeenDistinct(xs: seq<string>)
    requires forall i, j :: 0 <= i < j < |xs| ==> xs[i] != xs[j]
    ensures FirstSeen(xs) == xs
  {
    if xs != [] {
      var front := xs[..|xs| - 1];
      FirstSeenDistinct(front);
      assert xs == front + [xs[|xs| - 1]];
    }
  }

  lemma FilterColumnsAt(steps: seq<Step>, i: nat)
    requires i < |steps|
    ensures FilterColumns(steps[..i + 1]) ==
      if steps[i].Filter? then FilterColumns(steps[..i]) + [steps[i].condition.column] else FilterColumns(steps[..i])
  {
    assert steps[..i + 1][..i] == steps[..i];
  }

  // Required columns first, then each filtered column once; renaming last, if there is any.
  method MakePlan(r: Request, mapping: map<string, string>, required: seq<string>, steps: seq<Step>) returns (plan: Plan)
    requires Consistent(Columns(r)) && mapping == MappingOf(Columns(r)) && required == Required(r)
    ensures plan == PlanFor(r, steps)
  {
    hide Consistent, MappingOf, FirstSeen, Sources;
    var columns := required;
    FirstSeenMeans(Sources(Columns(r)));
    FirstSeenDistinct(required);
    assert required + FilterColumns(steps[..0]) == required;
    for i := 0 to |steps|
      invariant columns == FirstSeen(required + FilterColumns(steps[..i]))
    {
      var step := steps[i];
      ghost var named := required + FilterColumns(steps[..i]);
      FilterColumnsAt(steps, i);
      if step.Filter? {
        FirstSeenSnoc(named, step.condition.column);
        assert required + FilterColumns(steps[..i + 1]) == named + [step.condition.column];
        if step.condition.column !in columns {
          columns := columns + [step.condition.column];
        }
      }
    }
    assert steps[..|steps|] == steps;
    var renames := map s | s in mapping && mapping[s] != s :: mapping[s];
    plan := Plan(columns, if renames != map[] then steps + [RenameColumns(renames)] else steps);
  }
}
