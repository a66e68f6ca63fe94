/**
 Class-balanced training queries: one limited SELECT per class under UNION ALL, run as a sampler
 over one read of the table.
 */
module ClassBalance {
  import opened Wrappers
  import opened Relational
  import opened TrainingQuery
  import opened TrainingMeaning
  import opened SqlMeaning

  // (SELECT items FROM table [alias] WHERE filter = {parameter: ptype} LIMIT limit)
  datatype Branch = Branch(
    alias: Option<string>,
    items: seq<Item>,
    filterAlias: Option<string>,
    filterColumn: string,
    parameter: string,
    ptype: string,
    limit: nat)

  datatype Quota = Quota(value: Value, count: nat)

  // ---------------------------------------------------------------- accepting

  predicate AmountsOk(amounts: map<string, int>) {
    amounts != map[] && forall k :: k in amounts ==> k != "" && amounts[k] > 0
  }

  // One branch reads the declared columns of its class, for its amount.
  predicate BranchOk(engine: Engine, r: Request, amounts: map<string, int>, b: Branch)
    requires Consistent(Columns(r))
  {
    && (b.alias.Some? ==> b.filterAlias in {None, b.alias})
    && b.filterColumn == r.target.source
    && Plain(b.items, b.alias) && Consistent(ColumnsOf(b.items))
    && MappingOf(ColumnsOf(b.items)) == MappingOf(Columns(r))
    && b.parameter in r.params && r.params[b.parameter] in amounts
    && b.limit > 0 && b.limit == amounts[r.params[b.parameter]]
    && engine.decode(r.params[b.parameter], b.ptype).Some?
  }

  predicate BranchesOk(engine: Engine, r: Request, amounts: map<string, int>, bs: seq<Branch>, n: nat)
    requires Consistent(Columns(r)) && n <= |bs|
  {
    && (forall i :: 0 <= i < n ==> BranchOk(engine, r, amounts, bs[i]))
    && (forall i, j :: 0 <= i < j < n ==> bs[i].parameter != bs[j].parameter)
  }

  function Params(bs: seq<Branch>, n: nat): set<string>
    requires n <= |bs|
  {
    set i | 0 <= i < n :: bs[i].parameter
  }

  function Classes(r: Request, bs: seq<Branch>, n: nat): set<string>
    requires n <= |bs|
  {
    set i | 0 <= i < n && bs[i].parameter in r.params :: r.params[bs[i].parameter]
  }

  predicate Balanced(engine: Engine, r: Request, amounts: map<string, int>, bs: seq<Branch>) {
    && AmountsOk(amounts) && |bs| == |amounts|
    && Consistent(Columns(r))
    && BranchesOk(engine, r, amounts, bs, |bs|)
    && Params(bs, |bs|) == r.params.Keys
    && Classes(r, bs, |bs|) == amounts.Keys
  }

  function QuotaOf(engine: Engine, r: Request, b: Branch): Quota
    requires b.parameter in r.params && engine.decode(r.params[b.parameter], b.ptype).Some?
  {
    Quota(engine.decode(r.params[b.parameter], b.ptype).value, b.limit)
  }

  function Quotas(engine: Engine, r: Request, amounts: map<string, int>, bs: seq<Branch>, n: nat): seq<Quota>
    requires Consistent(Columns(r)) && n <= |bs| && BranchesOk(engine, r, amounts, bs, n)
  {
    seq(n, i requires 0 <= i < n => QuotaOf(engine, r, bs[i]))
  }

  // One branch on its own, and the class it reads.
  method ReadBranch(engine: Engine, r: Request, amounts: map<string, int>, b: Branch, mapping: map<string, string>)
    returns (quota: Option<Quota>)
    requires Consistent(Columns(r)) && mapping == MappingOf(Columns(r))
    ensures quota.Some? <==> BranchOk(engine, r, amounts, b)
    ensures quota.Some? ==> quota.value == QuotaOf(engine, r, b)
  {
    hide Consistent, MappingOf, Plain;
    if b.alias.Some? && b.filterAlias !in {None, b.alias} {
      return None;
    }
    if b.filterColumn != r.target.source {
      return None;
    }
    var projection := ProjectionColumns(b.items, b.alias);
    if projection != Some(mapping) || b.parameter !in r.params {
      return None;
    }
    var raw := r.params[b.parameter];
    if raw !in amounts || b.limit == 0 || b.limit != amounts[raw] {
      return None;
    }
    var value := engine.decode(raw, b.ptype);
    if value.None? {
      return None;
    }
    quota := Some(Quota(value.value, b.limit));
  }

  // Every class has a name and a positive amount, and there is one.
  method CheckAmounts(amounts: map<string, int>) returns (ok: bool)
    ensures ok <==> AmountsOk(amounts)
  {
    var left := amounts.Keys;
    while left != {}
      invariant left <= amounts.Keys
      invariant forall k :: k in amounts && k !in left ==> k != "" && amounts[k] > 0
      decreases left
    {
      var k :| k in left;
      if k == "" || amounts[k] < 1 {
        return false;
      }
      left := left - {k};
    }
    ok := amounts != map[];
  }

  method ClassAmountSampler(engine: Engine, r: Request, amounts: map<string, int>, bs: seq<Branch>, mapping: map<string, string>)
    returns (quotas: Option<seq<Quota>>)
    requires Consistent(Columns(r)) && mapping == MappingOf(Columns(r))
    ensures quotas.Some? <==> Balanced(engine, r, amounts, bs)
    ensures quotas.Some? ==> quotas.value == Quotas(engine, r, amounts, bs, |bs|)
  {
    hide Consistent, MappingOf, Columns, BranchOk;
    var amountsOk := CheckAmounts(amounts);
    if !amountsOk || |bs| != |amounts| {
      return None;
    }
    var limits: seq<Quota>, params: set<string>, classes: set<string> := [], {}, {};
    for i := 0 to |bs|
      invariant BranchesOk(engine, r, amounts, bs, i)
      invariant limits == Quotas(engine, r, amounts, bs, i)
      invariant params == Params(bs, i) && classes == Classes(r, bs, i)
    {
      var b := bs[i];
      var quota := ReadBranch(engine, r, amounts, b, mapping);
      if quota.None? || b.parameter in params {
        return None;
      }
      BranchDecodes(engine, r, amounts, b);
      limits := limits + [quota.value];
      params := params + {b.parameter};
      classes := classes + {r.params[b.parameter]};
    }
    if params != r.params.Keys || classes != amounts.Keys {
      return None;
    }
    quotas := Some(limits);
  }

  // ---------------------------------------------------------------- one branch per class

  // The class of each branch.
  function ClassNames(r: Request, bs: seq<Branch>): seq<string> {
    seq(|bs|, i requires 0 <= i < |bs| => if bs[i].parameter in r.params then r.params[bs[i].parameter] else "")
  }

  function Members<T(!new)>(xs: seq<T>): set<T> {
    set x | x in xs
  }

  // Pigeonhole: as many entries as values leaves no value twice.
  lemma {:induction false} NoRepeats<T(!new)>(xs: seq<T>)
    ensures |Members(xs)| <= |xs|
    ensures |Members(xs)| == |xs| ==> forall i, j :: 0 <= i < j < |xs| ==> xs[i] != xs[j]
  {
    if xs == [] {
      assert Members(xs) == {};
    } else {
      var front, last := xs[..|xs| - 1], xs[|xs| - 1];
      NoRepeats(front);
      assert xs == front + [last];
      assert Members(xs) == Members(front) + {last};
    }
  }

  lemma BranchAmount(engine: Engine, r: Request, amounts: map<string, int>, bs: seq<Branch>, i: nat)
    requires Consistent(Columns(r)) && BranchesOk(engine, r, amounts, bs, |bs|) && i < |bs|
    ensures bs[i].parameter in r.params && r.params[bs[i].parameter] in amounts
    ensures amounts[r.params[bs[i].parameter]] == bs[i].limit
  {
    hide MappingOf, Plain, Consistent;
  }

  lemma ClassesAreNames(engine: Engine, r: Request, amounts: map<string, int>, bs: seq<Branch>)
    requires Consistent(Columns(r)) && BranchesOk(engine, r, amounts, bs, |bs|)
    ensures Members(ClassNames(r, bs)) == Classes(r, bs, |bs|)
  {
    hide BranchesOk, Consistent, Columns;
    var names := ClassNames(r, bs);
    forall i | 0 <= i < |bs| ensures bs[i].parameter in r.params && names[i] == r.params[bs[i].parameter] {
      BranchAmount(engine, r, amounts, bs, i);
    }
    forall k | k in Classes(r, bs, |bs|) ensures k in names {
      var i :| 0 <= i < |bs| && bs[i].parameter in r.params && r.params[bs[i].parameter] == k;
      assert names[i] == k;
    }
  }

  // The branches and the classes correspond one to one, each branch with its own amount.
  lemma BranchesMatchClasses(engine: Engine, r: Request, amounts: map<string, int>, bs: seq<Branch>)
    ensures Balanced(engine, r, amounts, bs) ==>
      var names, quotas := ClassNames(r, bs), Quotas(engine, r, amounts, bs, |bs|);
      && Members(names) == amounts.Keys
      && (forall i, j :: 0 <= i < j < |bs| ==> names[i] != names[j])
      && (forall i :: 0 <= i < |bs| ==> names[i] in amounts && quotas[i].count == amounts[names[i]])
  {
    hide BranchesOk, Consistent, Columns;
    if Balanced(engine, r, amounts, bs) {
      ClassesAreNames(engine, r, amounts, bs);
      NoRepeats(ClassNames(r, bs));
      forall i | 0 <= i < |bs|
        ensures bs[i].parameter in r.params && r.params[bs[i].parameter] in amounts
        ensures amounts[r.params[bs[i].parameter]] == bs[i].limit
      {
        BranchAmount(engine, r, amounts, bs, i);
      }
    }
  }

  // ---------------------------------------------------------------- sampling

  function Equals(column: string, value: Value): seq<Predicate> {
    [Predicate(column, Eq, value)]
  }

  function SampleOne(engine: Engine, target: string, q: Quota, rows: seq<Row>): seq<Row> {
    First(Kept(engine, Equals(target, q.value), rows), Some(q.count))
  }

  // The union, in order, of one filtered and limited branch per quota.
  function Sampled(engine: Engine, target: string, quotas: seq<Quota>, rows: seq<Row>): seq<Row> {
    if quotas == [] then []
    else Sampled(engine, target, quotas[..|quotas| - 1], rows) + SampleOne(engine, target, quotas[|quotas| - 1], rows)
  }

  function BranchQuery(engine: Engine, r: Request, b: Branch): Select
    requires Consistent(Columns(r))
    requires b.parameter in r.params && engine.decode(r.params[b.parameter], b.ptype).Some?
  {
    Select(MappingOf(Columns(r)), Equals(b.filterColumn, QuotaOf(engine, r, b).value), Some(b.limit))
  }

  // A branch is a statement of its own.
  function BranchSql(b: Branch): Sql {
    Sql(b.alias, b.items, [Condition(b.filterAlias, b.filterColumn, Eq, b.parameter, b.ptype)], Some(b.limit))
  }

  // What an accepted branch reads is there, and its query is what it says.
  lemma BranchReads(engine: Engine, r: Request, amounts: map<string, int>, b: Branch, table: seq<Row>)
    requires Consistent(Columns(r)) && BranchOk(engine, r, amounts, b)
    requires Complete(table, MappingOf(Columns(r)).Keys)
    ensures Once(b.items) && Covers(table, b.items) && Consistent(ColumnsOf(b.items))
    ensures b.parameter in r.params && engine.decode(r.params[b.parameter], b.ptype).Some?
    ensures
      var q := BranchQuery(engine, r, b);
      && q.projection == MappingOf(ColumnsOf(b.items)) && q.limit == Some(b.limit)
      && Decoded(engine, r.params, BranchSql(b).where, q.where)
  {
    hide MappingOf, Consistent, Columns;
    OnceIff(b.items);
    CompleteCovers(table, b.items);
  }

  // What UNION ALL of the first `n` branches says.
  ghost function UnionAll(engine: Engine, r: Request, amounts: map<string, int>, bs: seq<Branch>, n: nat, table: seq<Row>): seq<Row>
    requires Consistent(Columns(r)) && n <= |bs| && BranchesOk(engine, r, amounts, bs, n)
    requires Complete(table, MappingOf(Columns(r)).Keys)
  {
    if n == 0 then []
    else
      BranchReads(engine, r, amounts, bs[n - 1], table);
      UnionAll(engine, r, amounts, bs, n - 1, table) + SqlRows(engine, r.params, BranchSql(bs[n - 1]), table)
  }

  ghost function AllProjected(rows: seq<Row>, m: map<string, string>): seq<Row>
    requires Complete(rows, m.Keys)
  {
    seq(|rows|, i requires 0 <= i < |rows| => Projected(rows[i], m))
  }

  lemma ProjectedSatisfies(engine: Engine, source: string, value: Value, row: Row, m: map<string, string>)
    requires OneToOne(m) && m.Keys <= row.Keys && source in m
    ensures Satisfies(engine, Equals(m[source], value), Projected(row, m)) <==> Satisfies(engine, Equals(source, value), row)
  {
    ProjectedMeans(row, m);
    hide Projected, OneToOne;
    var p, p' := Equals(source, value), Equals(m[source], value);
    assert Projected(row, m)[m[source]] == row[source];
    assert p[0].op == p'[0].op && p[0].value == p'[0].value;
  }

  lemma KeptHead(row: Row, rest: seq<Row>, m: map<string, string>)
    requires m.Keys <= row.Keys && Complete(rest, m.Keys)
    ensures Complete([row] + rest, m.Keys)
    ensures AllProjected([row] + rest, m) == [Projected(row, m)] + AllProjected(rest, m)
  {
    hide Projected;
  }

  // Filtering by a result column after the read is filtering by its source before it.
  lemma {:induction false} KeptProjected(engine: Engine, source: string, value: Value, rows: seq<Row>, m: map<string, string>)
    requires OneToOne(m) && Complete(rows, m.Keys) && source in m
    ensures Complete(Kept(engine, Equals(source, value), rows), m.Keys)
    ensures Kept(engine, Equals(m[source], value), AllProjected(rows, m)) == AllProjected(Kept(engine, Equals(source, value), rows), m)
  {
    hide Projected, Satisfies, OneToOne, Equals;
    KeptFrom(engine, Equals(source, value), rows);
    if rows != [] {
      var projected := AllProjected(rows, m);
      KeptProjected(engine, source, value, rows[1..], m);
      KeptFrom(engine, Equals(source, value), rows[1..]);
      ProjectedSatisfies(engine, source, value, rows[0], m);
      assert projected[1..] == AllProjected(rows[1..], m);
      assert projected[0] == Projected(rows[0], m);
      if Satisfies(engine, Equals(source, value), rows[0]) {
        KeptHead(rows[0], Kept(engine, Equals(source, value), rows[1..]), m);
      }
    }
  }

  // The rows handed to the sampler: every declared column of every row, renamed.
  lemma SamplerInput(engine: Engine, r: Request, table: seq<Row>)
    requires Consistent(Columns(r)) && Complete(table, MappingOf(Columns(r)).Keys)
    ensures Output(engine, PlanFor(r, []), table) == AllProjected(table, MappingOf(Columns(r)))
  {
    hide MappingOf, Consistent, RenameSteps;
    MappingFacts(Columns(r));
    NothingFiltered(r);
    RenameRun(engine, table, Required(r), MappingOf(Columns(r)));
    assert [] + RenameSteps(MappingOf(Columns(r))) == RenameSteps(MappingOf(Columns(r)));
  }

  // One quota on the whole read gives what its branch says.
  lemma BranchMeans(engine: Engine, r: Request, amounts: map<string, int>, b: Branch, table: seq<Row>)
    requires Consistent(Columns(r)) && BranchOk(engine, r, amounts, b)
    requires Complete(table, MappingOf(Columns(r)).Keys)
    ensures Once(b.items) && Covers(table, b.items)
    ensures b.parameter in r.params && engine.decode(r.params[b.parameter], b.ptype).Some?
    ensures SampleOne(engine, r.target.result, QuotaOf(engine, r, b), AllProjected(table, MappingOf(Columns(r)))) ==
              SqlRows(engine, r.params, BranchSql(b), table)
  {
    hide MappingOf, Consistent, Once, Covers, Decoded, BranchOk, Answer, SampleOne, AllProjected, Complete, Columns;
    BranchReads(engine, r, amounts, b, table);
    BranchAnswers(engine, r, amounts, b, table);
    AnswerIsSql(engine, r.params, BranchSql(b), BranchQuery(engine, r, b), table);
  }

  lemma BranchAnswers(engine: Engine, r: Request, amounts: map<string, int>, b: Branch, table: seq<Row>)
    requires Consistent(Columns(r)) && BranchOk(engine, r, amounts, b)
    requires Complete(table, MappingOf(Columns(r)).Keys)
    ensures SampleOne(engine, r.target.result, QuotaOf(engine, r, b), AllProjected(table, MappingOf(Columns(r)))) ==
              Answer(engine, BranchQuery(engine, r, b), table)
  {
    hide MappingOf, Consistent, Plain, Kept;
    var m := MappingOf(Columns(r));
    MappingFacts(Columns(r));
    MappingAt(Columns(r), |r.features|);
    KeptProjected(engine, r.target.source, QuotaOf(engine, r, b).value, table, m);
  }

  // Sampling the whole read of the table produces what the UNION ALL says.
  lemma {:induction false} SampledReadMeansUnion(engine: Engine, r: Request, amounts: map<string, int>, bs: seq<Branch>, n: nat, table: seq<Row>)
    requires Consistent(Columns(r)) && n <= |bs| && BranchesOk(engine, r, amounts, bs, n)
    requires Complete(table, MappingOf(Columns(r)).Keys)
    ensures Sampled(engine, r.target.result, Quotas(engine, r, amounts, bs, n), Output(engine, PlanFor(r, []), table)) ==
              UnionAll(engine, r, amounts, bs, n, table)
  {
    hide BranchOk, MappingOf, Consistent, SampleOne, Answer, Output;
    if n > 0 {
      var quotas := Quotas(engine, r, amounts, bs, n);
      assert quotas[..n - 1] == Quotas(engine, r, amounts, bs, n - 1);
      SampledReadMeansUnion(engine, r, amounts, bs, n - 1, table);
      SamplerInput(engine, r, table);
      assert BranchOk(engine, r, amounts, bs[n - 1]);
      BranchMeans(engine, r, amounts, bs[n - 1], table);
      assert quotas[n - 1] == QuotaOf(engine, r, bs[n - 1]) by { BranchDecodes(engine, r, amounts, bs[n - 1]); }
    }
  }

  lemma BranchDecodes(engine: Engine, r: Request, amounts: map<string, int>, b: Branch)
    requires Consistent(Columns(r)) && BranchOk(engine, r, amounts, b)
    ensures b.parameter in r.params && engine.decode(r.params[b.parameter], b.ptype).Some?
  {
  }

  // ---------------------------------------------------------------- how many rows

  function Min(a: nat, b: nat): nat {
    if a < b then a else b
  }

  function InClass(engine: Engine, target: string, value: Value, rows: seq<Row>): nat {
    |Kept(engine, Equals(target, value), rows)|
  }

  function Expected(engine: Engine, target: string, quotas: seq<Quota>, rows: seq<Row>): nat {
    if quotas == [] then 0
    else
      var last := quotas[|quotas| - 1];
      Expected(engine, target, quotas[..|quotas| - 1], rows) + Min(last.count, InClass(engine, target, last.value, rows))
  }

  // The whole sample has as many rows as the classes can give, up to their quotas.
  lemma {:induction false} SampleSize(engine: Engine, target: string, quotas: seq<Quota>, rows: seq<Row>)
    ensures |Sampled(engine, target, quotas, rows)| == Expected(engine, target, quotas, rows)
  {
    if quotas != [] {
      SampleSize(engine, target, quotas[..|quotas| - 1], rows);
    }
  }

  // Every class appears in the sample as often as its quota and the table allow.
  predicate QuotasMet(engine: Engine, target: string, quotas: seq<Quota>, rows: seq<Row>) {
    forall i :: 0 <= i < |quotas| ==>
      InClass(engine, target, quotas[i].value, Sampled(engine, target, quotas, rows)) ==
        Min(quotas[i].count, InClass(engine, target, quotas[i].value, rows))
  }

  // All that is asked of the engine's equality; NULL need not equal itself, and a whole number may
  // equal a decimal one.
  ghost predicate EqualityOk(engine: Engine) {
    && (forall a, b :: engine.holds(Eq, a, b) ==> engine.holds(Eq, b, a))
    && (forall a, b, c :: engine.holds(Eq, a, b) && engine.holds(Eq, b, c) ==> engine.holds(Eq, a, c))
  }

  predicate SelfEqual(engine: Engine, quotas: seq<Quota>) {
    forall i :: 0 <= i < |quotas| ==> engine.holds(Eq, quotas[i].value, quotas[i].value)
  }

  // The engine tells the classes apart.
  predicate Apart(engine: Engine, quotas: seq<Quota>) {
    forall i, j :: 0 <= i < j < |quotas| ==> !engine.holds(Eq, quotas[i].value, quotas[j].value)
  }

  lemma ClassCell(engine: Engine, target: string, v: Value, row: Row)
    ensures Satisfies(engine, Equals(target, v), row) <==> target in row && engine.holds(Eq, row[target], v)
  {
    assert Equals(target, v)[0] == Predicate(target, Eq, v);
  }

  // A row of one class is a row of another exactly when the engine equates the two.
  lemma SameClass(engine: Engine, target: string, v: Value, w: Value, row: Row)
    requires EqualityOk(engine) && Satisfies(engine, Equals(target, v), row)
    ensures Satisfies(engine, Equals(target, w), row) <==> engine.holds(Eq, v, w)
  {
    ClassCell(engine, target, v, row);
    ClassCell(engine, target, w, row);
  }

  // Equated values have the same rows.
  lemma {:induction false} EquatedClasses(engine: Engine, target: string, v: Value, w: Value, rows: seq<Row>)
    requires EqualityOk(engine) && engine.holds(Eq, v, w)
    ensures Kept(engine, Equals(target, v), rows) == Kept(engine, Equals(target, w), rows)
  {
    if rows != [] {
      EquatedClasses(engine, target, v, w, rows[1..]);
      ClassCell(engine, target, v, rows[0]);
      ClassCell(engine, target, w, rows[0]);
    }
  }

  // One branch holds only rows of its own class.
  lemma OneBranch(engine: Engine, target: string, q: Quota, v: Value, rows: seq<Row>)
    requires EqualityOk(engine)
    ensures InClass(engine, target, v, SampleOne(engine, target, q, rows)) ==
              if engine.holds(Eq, q.value, v) then Min(q.count, InClass(engine, target, v, rows)) else 0
  {
    var branch := SampleOne(engine, target, q, rows);
    KeptFrom(engine, Equals(target, q.value), rows);
    forall i | 0 <= i < |branch|
      ensures Satisfies(engine, Equals(target, v), branch[i]) <==> engine.holds(Eq, q.value, v)
    {
      SameClass(engine, target, q.value, v, branch[i]);
    }
    AllOrNone(engine, Equals(target, v), branch);
    if engine.holds(Eq, q.value, v) {
      EquatedClasses(engine, target, q.value, v, rows);
    }
  }

  lemma {:induction false} CountInSample(engine: Engine, target: string, quotas: seq<Quota>, rows: seq<Row>, v: Value)
    requires EqualityOk(engine) && Apart(engine, quotas)
    ensures forall i :: 0 <= i < |quotas| && engine.holds(Eq, quotas[i].value, v) ==>
      InClass(engine, target, v, Sampled(engine, target, quotas, rows)) == Min(quotas[i].count, InClass(engine, target, v, rows))
    ensures (forall i :: 0 <= i < |quotas| ==> !engine.holds(Eq, quotas[i].value, v)) ==>
      InClass(engine, target, v, Sampled(engine, target, quotas, rows)) == 0
  {
    hide EqualityOk, SampleOne;
    if quotas != [] {
      var front, last := quotas[..|quotas| - 1], quotas[|quotas| - 1];
      CountInSample(engine, target, front, rows, v);
      OneBranch(engine, target, last, v, rows);
      KeptConcat(engine, Equals(target, v), Sampled(engine, target, front, rows), SampleOne(engine, target, last, rows));
      assert forall i :: 0 <= i < |front| ==> front[i] == quotas[i];
      forall i | 0 <= i < |front| && engine.holds(Eq, quotas[i].value, v) ensures !engine.holds(Eq, last.value, v) {
        OnlyOneEquates(engine, quotas[i].value, last.value, v);
      }
    }
  }

  lemma OnlyOneEquates(engine: Engine, a: Value, b: Value, v: Value)
    requires EqualityOk(engine) && !engine.holds(Eq, a, b) && engine.holds(Eq, a, v)
    ensures !engine.holds(Eq, b, v)
  {
  }

  // A table of one row, of a value that two quotas equate: the sample has it twice.
  lemma {:induction false} Repeated(engine: Engine, target: string, quotas: seq<Quota>, v: Value, i: nat, j: nat)
    requires EqualityOk(engine) && i <= j < |quotas| && engine.holds(Eq, v, v)
    requires engine.holds(Eq, quotas[i].value, v) && engine.holds(Eq, quotas[j].value, v) && quotas[i].count > 0 && quotas[j].count > 0
    ensures InClass(engine, target, v, Sampled(engine, target, quotas, [map[target := v]])) >= if i < j then 2 else 1
    decreases |quotas|
  {
    hide EqualityOk, SampleOne;
    var front, last, rows := quotas[..|quotas| - 1], quotas[|quotas| - 1], [map[target := v]];
    OneBranch(engine, target, last, v, rows);
    KeptConcat(engine, Equals(target, v), Sampled(engine, target, front, rows), SampleOne(engine, target, last, rows));
    OneRow(engine, target, v);
    if j < |front| {
      Repeated(engine, target, front, v, i, j);
    } else if i < j {
      Repeated(engine, target, front, v, i, i);
    }
  }

  lemma OneRow(engine: Engine, target: string, v: Value)
    requires engine.holds(Eq, v, v)
    ensures InClass(engine, target, v, [map[target := v]]) == 1
  {
    var row: Row := map[target := v];
    ClassCell(engine, target, v, row);
    AllOrNone(engine, Equals(target, v), [row]);
  }

  // Quotas are met on every table exactly when the engine tells the classes apart.
  lemma QuotasMetIffApart(engine: Engine, target: string, quotas: seq<Quota>)
    requires EqualityOk(engine) && SelfEqual(engine, quotas) && forall i :: 0 <= i < |quotas| ==> quotas[i].count > 0
    ensures (forall rows: seq<Row> :: QuotasMet(engine, target, quotas, rows)) <==> Apart(engine, quotas)
  {
    hide EqualityOk, InClass, Sampled;
    if Apart(engine, quotas) {
      forall rows: seq<Row> ensures QuotasMet(engine, target, quotas, rows) {
        forall i | 0 <= i < |quotas|
          ensures InClass(engine, target, quotas[i].value, Sampled(engine, target, quotas, rows)) ==
                    Min(quotas[i].count, InClass(engine, target, quotas[i].value, rows))
        {
          CountInSample(engine, target, quotas, rows, quotas[i].value);
        }
      }
    } else {
      var i, j :| 0 <= i < j < |quotas| && engine.holds(Eq, quotas[i].value, quotas[j].value);
      var v := quotas[i].value;
      Symmetric(engine, v, quotas[j].value);
      Repeated(engine, target, quotas, v, i, j);
      OneRow(engine, target, v);
      assert !QuotasMet(engine, target, quotas, [map[target := v]]);
    }
  }

  lemma Symmetric(engine: Engine, a: Value, b: Value)
    requires EqualityOk(engine) && engine.holds(Eq, a, b)
    ensures engine.holds(Eq, b, a)
  {
  }

  // For an accepted request: every class gets its share of whatever rows are sampled exactly when
  // the engine equates no two of its decoded classes.
  lemma AcceptedQuotasMet(engine: Engine, r: Request, amounts: map<string, int>, bs: seq<Branch>)
    requires EqualityOk(engine)
    ensures Balanced(engine, r, amounts, bs) && SelfEqual(engine, Quotas(engine, r, amounts, bs, |bs|)) ==>
      var quotas := Quotas(engine, r, amounts, bs, |bs|);
      (forall rows: seq<Row> :: QuotasMet(engine, r.target.result, quotas, rows)) <==> Apart(engine, quotas)
  {
    hide QuotasMet, Apart, EqualityOk, SelfEqual, Columns, Consistent, BranchOk;
    if Balanced(engine, r, amounts, bs) && SelfEqual(engine, Quotas(engine, r, amounts, bs, |bs|)) {
      var quotas := Quotas(engine, r, amounts, bs, |bs|);
      forall i | 0 <= i < |quotas| ensures quotas[i].count > 0 {
        BranchLimit(engine, r, amounts, bs[i]);
      }
      QuotasMetIffApart(engine, r.target.result, quotas);
    }
  }

  // Equality as SQL has it: NULL equals nothing, and numbers are compared by what they are.
  function NumberOf(v: Value): Option<real> {
    match v
    case Whole(n) => Some(n as real)
    case Decimal(r) => Some(r)
    case _ => None
  }

  predicate SqlEqual(a: Value, b: Value) {
    if NumberOf(a).Some? && NumberOf(b).Some? then NumberOf(a) == NumberOf(b) else a == b && !a.Null?
  }

  // That equality is one the results are about, and it equates 1 and 1.0.
  lemma SqlEqualityOk(engine: Engine)
    requires forall a, b :: engine.holds(Eq, a, b) <==> SqlEqual(a, b)
    ensures EqualityOk(engine)
    ensures engine.holds(Eq, Whole(1), Decimal(1.0)) && !engine.holds(Eq, Null, Null)
    ensures forall quotas: seq<Quota> :: (forall i :: 0 <= i < |quotas| ==> !quotas[i].value.Null?) ==> SelfEqual(engine, quotas)
  {
  }

  lemma BranchLimit(engine: Engine, r: Request, amounts: map<string, int>, b: Branch)
    requires Consistent(Columns(r)) && BranchOk(engine, r, amounts, b)
    ensures b.limit > 0
    ensures b.parameter in r.params && engine.decode(r.params[b.parameter], b.ptype).Some? && QuotaOf(engine, r, b).count == b.limit
  {
  }
}
