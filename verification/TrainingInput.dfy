/**
 The whole input of a training run: the statement becomes a plan and perhaps a sampler, the read
 is reduced to one row per entity, and what is left is sampled.
 */
module TrainingInput {
  import opened Wrappers
  import opened Relational
  import opened TrainingQuery
  import opened TrainingMeaning
  import opened SqlMeaning
  import opened ClassBalance
  import opened EntityGrain

  // One SELECT, or a limited SELECT per class under UNION ALL.
  datatype Statement = Single(sql: Sql) | PerClass(branches: seq<Branch>)

  // `amounts` are given when the request balances classes, and then decide the statement's form.
  predicate Accepts(engine: Engine, r: Request, amounts: Option<map<string, int>>, st: Statement) {
    if amounts.Some? then st.PerClass? && Balanced(engine, r, amounts.value, st.branches)
    else st.Single? && Readable(engine, r, st.sql)
  }

  lemma AcceptsConsistent(engine: Engine, r: Request, amounts: Option<map<string, int>>, st: Statement)
    requires Accepts(engine, r, amounts, st)
    ensures Consistent(Columns(r))
    ensures amounts.Some? ==> BranchesOk(engine, r, amounts.value, st.branches, |st.branches|)
  {
  }

  // A balanced statement is read without steps; its filters and limits are the sampler's.
  function StatementSteps(engine: Engine, r: Request, amounts: Option<map<string, int>>, st: Statement): seq<Step>
    requires Accepts(engine, r, amounts, st)
  {
    if st.Single? then ReadSteps(engine, r, st.sql) else []
  }

  function PlanOf(engine: Engine, r: Request, amounts: Option<map<string, int>>, st: Statement): Plan
    requires Accepts(engine, r, amounts, st)
  {
    AcceptsConsistent(engine, r, amounts, st);
    PlanFor(r, StatementSteps(engine, r, amounts, st))
  }

  // The sampler's quotas, where the statement is accepted.
  function QuotasFor(engine: Engine, r: Request, amounts: map<string, int>, st: Statement): seq<Quota> {
    if !Accepts(engine, r, Some(amounts), st) then []
    else
      AcceptsConsistent(engine, r, Some(amounts), st);
      Quotas(engine, r, amounts, st.branches, |st.branches|)
  }

  method Ingestion(engine: Engine, r: Request, amounts: Option<map<string, int>>, st: Statement)
    returns (plan: Option<Plan>, quotas: Option<seq<Quota>>)
    ensures plan.Some? <==> Accepts(engine, r, amounts, st)
    ensures plan.Some? ==> plan.value == PlanOf(engine, r, amounts, st)
    ensures plan.Some? && amounts.Some? ==> quotas == Some(QuotasFor(engine, r, amounts.value, st))
    ensures plan.None? || amounts.None? ==> quotas == None
  {
    hide Consistent, MappingOf, FirstSeen, Sources, ReadSteps, BranchesOk, AmountsOk, PlanFor;
    plan, quotas := None, None;
    var mapping, required := ColumnMapping(Columns(r));
    if mapping.None? {
      return;
    }
    var steps: seq<Step> := [];
    if amounts.Some? {
      if st.PerClass? {
        quotas := ClassAmountSampler(engine, r, amounts.value, st.branches, mapping.value);
      }
      if quotas.None? {
        return;
      }
    } else {
      var read := None;
      if st.Single? {
        read := NativeClickhouseRead(engine, r, st.sql, required, mapping.value);
      }
      if read.None? {
        return;
      }
      steps := read.value;
    }
    var made := MakePlan(r, mapping.value, required, steps);
    plan := Some(made);
  }

  // ---------------------------------------------------------------- what training receives

  // What may come of the plan's output: where the request names an entity, a row of each, any of
  // them and in any order.
  predicate Reduces(r: Request, out: seq<Row>, given: seq<Row>) {
    if r.entity.Some? then OnePerEntity(out, r.entity.value.result, given) else given == out
  }

  // The rows the run trains on when `given` is left of the read.
  function TrainingRows(engine: Engine, r: Request, amounts: Option<map<string, int>>, st: Statement, given: seq<Row>): seq<Row>
    requires Accepts(engine, r, amounts, st)
  {
    if amounts.Some? then Sampled(engine, r.target.result, QuotasFor(engine, r, amounts.value, st), given) else given
  }

  // What an accepted statement selects is there.
  lemma SingleReads(engine: Engine, r: Request, sql: Sql, table: seq<Row>)
    requires Readable(engine, r, sql) && Consistent(Columns(r)) && Complete(table, MappingOf(Columns(r)).Keys)
    ensures Once(sql.items) && Covers(table, sql.items)
  {
    hide Consistent, MappingOf, Once, Covers, Decoded, Readable;
    ReadableDecoded(engine, r, sql);
    CompleteCovers(table, sql.items);
  }

  // The rows the statement denotes when LIMIT takes the first ones.
  ghost function Denoted(engine: Engine, r: Request, amounts: Option<map<string, int>>, st: Statement, table: seq<Row>): seq<Row>
    requires Accepts(engine, r, amounts, st)
    requires Consistent(Columns(r)) && Complete(table, MappingOf(Columns(r)).Keys)
  {
    AcceptsConsistent(engine, r, amounts, st);
    if st.Single? then
      SingleReads(engine, r, st.sql, table);
      SqlRows(engine, r.params, st.sql, table)
    else UnionAll(engine, r, amounts.value, st.branches, |st.branches|, table)
  }

  // Rows that UNION ALL of the first `n` branches may give, a part for each branch.
  ghost predicate MayUnion(engine: Engine, r: Request, amounts: map<string, int>, bs: seq<Branch>, n: nat, table: seq<Row>, rows: seq<Row>)
    requires Consistent(Columns(r)) && n <= |bs| && BranchesOk(engine, r, amounts, bs, n)
    requires Complete(table, MappingOf(Columns(r)).Keys)
  {
    if n == 0 then rows == []
    else
      BranchReads(engine, r, amounts, bs[n - 1], table);
      exists k :: 0 <= k <= |rows|
        && MayUnion(engine, r, amounts, bs, n - 1, table, rows[..k])
        && SqlMay(engine, r.params, BranchSql(bs[n - 1]), table, rows[k..])
  }

  // Rows the statement may denote, whichever ones its limits take.
  ghost predicate MayDenote(engine: Engine, r: Request, amounts: Option<map<string, int>>, st: Statement, table: seq<Row>, rows: seq<Row>)
    requires Accepts(engine, r, amounts, st)
    requires Consistent(Columns(r)) && Complete(table, MappingOf(Columns(r)).Keys)
  {
    AcceptsConsistent(engine, r, amounts, st);
    if st.Single? then
      SingleReads(engine, r, st.sql, table);
      SqlMay(engine, r.params, st.sql, table, rows)
    else MayUnion(engine, r, amounts.value, st.branches, |st.branches|, table, rows)
  }

  // The reduction costs the statement nothing: of one SELECT no two rows share an entity, of a
  // balanced statement every class is left its quota, or all there was of it.
  predicate GrainKept(engine: Engine, r: Request, amounts: Option<map<string, int>>, st: Statement, out: seq<Row>, given: seq<Row>)
    requires Accepts(engine, r, amounts, st)
  {
    r.entity.Some? ==>
      if st.Single? then EntitiesDiffer(out, r.entity.value.result)
      else AllLeftEnough(engine, r.target.result, QuotasFor(engine, r, amounts.value, st), out, given)
  }

  // Every row the plan puts out names its entity.
  lemma ProjectedKeyed(r: Request, rows: seq<Row>)
    requires Consistent(Columns(r)) && r.entity.Some? && Complete(rows, MappingOf(Columns(r)).Keys)
    ensures Keyed(AllProjected(rows, MappingOf(Columns(r))), r.entity.value.result)
  {
    hide MappingOf, Consistent;
    var m, last := MappingOf(Columns(r)), |Columns(r)| - 1;
    MappingFacts(Columns(r));
    MappingAt(Columns(r), last);
    assert Columns(r)[last] == r.entity.value;
    forall i | 0 <= i < |rows| ensures r.entity.value.result in Projected(rows[i], m) {
      ProjectedMeans(rows[i], m);
      assert m[r.entity.value.source] in m.Values;
    }
  }

  lemma AnswerKeyed(engine: Engine, r: Request, q: Select, table: seq<Row>)
    requires Consistent(Columns(r)) && r.entity.Some? && Complete(table, MappingOf(Columns(r)).Keys)
    requires q.projection == MappingOf(Columns(r))
    ensures Keyed(Answer(engine, q, table), r.entity.value.result)
  {
    hide MappingOf, Consistent, Keyed, Projected, Chosen;
    var chosen := Chosen(engine, q, table);
    assert Complete(chosen, MappingOf(Columns(r)).Keys);
    ProjectedKeyed(r, chosen);
    assert Answer(engine, q, table) == AllProjected(chosen, MappingOf(Columns(r)));
  }

  // ---------------------------------------------------------------- one SELECT

  // What is left of a plain read may be the statement's exactly when nothing was taken from it.
  lemma SingleRows(engine: Engine, r: Request, sql: Sql, table: seq<Row>, given: seq<Row>)
    requires Readable(engine, r, sql) && Consistent(Columns(r)) && Complete(table, MappingOf(Columns(r)).Keys)
    requires Reduces(r, Output(engine, PlanFor(r, ReadSteps(engine, r, sql)), table), given)
    ensures Once(sql.items) && Covers(table, sql.items)
    ensures
      var out := Output(engine, PlanFor(r, ReadSteps(engine, r, sql)), table);
      && out == SqlRows(engine, r.params, sql, table)
      && (SqlMay(engine, r.params, sql, table, given) <==>
            (r.entity.Some? ==> EntitiesDiffer(out, r.entity.value.result)))
      && (multiset(given) == multiset(out) <==> (r.entity.Some? ==> EntitiesDiffer(out, r.entity.value.result)))
  {
    hide Readable, Consistent, MappingOf, ReadSteps, OnePerEntity, EntitiesDiffer, Answer, Output, Keyed, Once, Covers, Decoded, SqlRows, SqlMay, Complete;
    var q := QueryOf(engine, r, sql);
    SingleReads(engine, r, sql, table);
    PlanMeansQuery(engine, r, sql, table);
    ReadableDecoded(engine, r, sql);
    AnswerIsSql(engine, r.params, sql, q, table);
    MayAnswerIsSql(engine, r.params, sql, q, table, given);
    AnswerMayAnswer(engine, q, table);
    if r.entity.Some? {
      AnswerKeyed(engine, r, q, table);
      FewWithin(Answer(engine, q, table), r.entity.value.result, given);
      DuplicatesDetected(Answer(engine, q, table), r.entity.value.result, given);
    }
  }

  // ---------------------------------------------------------------- a SELECT per class

  // All rows of a class, read and renamed, are its branch without the limit.
  lemma BranchClass(engine: Engine, r: Request, amounts: map<string, int>, b: Branch, table: seq<Row>)
    requires Consistent(Columns(r)) && BranchOk(engine, r, amounts, b)
    requires Complete(table, MappingOf(Columns(r)).Keys)
    ensures b.parameter in r.params && engine.decode(r.params[b.parameter], b.ptype).Some?
    ensures
      var q, v := BranchQuery(engine, r, b), QuotaOf(engine, r, b).value;
      && Answer(engine, q.(limit := None), table) == Kept(engine, Equals(r.target.result, v), AllProjected(table, MappingOf(Columns(r))))
      && q.limit == Some(QuotaOf(engine, r, b).count)
  {
    hide MappingOf, Consistent, Plain, Kept;
    var m := MappingOf(Columns(r));
    MappingFacts(Columns(r));
    MappingAt(Columns(r), |r.features|);
    KeptProjected(engine, r.target.source, QuotaOf(engine, r, b).value, table, m);
  }

  // Rows a branch may give: of its class, and as many as it allows.
  lemma BranchMay(engine: Engine, r: Request, amounts: map<string, int>, b: Branch, table: seq<Row>, rows: seq<Row>)
    requires Consistent(Columns(r)) && BranchOk(engine, r, amounts, b)
    requires Complete(table, MappingOf(Columns(r)).Keys)
    ensures b.parameter in r.params && engine.decode(r.params[b.parameter], b.ptype).Some?
    ensures Once(b.items) && Covers(table, b.items)
    ensures
      var q, out := QuotaOf(engine, r, b), AllProjected(table, MappingOf(Columns(r)));
      SqlMay(engine, r.params, BranchSql(b), table, rows) <==>
        && multiset(rows) <= multiset(Kept(engine, Equals(r.target.result, q.value), out))
        && |rows| == Min(q.count, InClass(engine, r.target.result, q.value, out))
  {
    hide MappingOf, Consistent, Plain, Kept, BranchOk, Answer, AllProjected, Once, Covers, Decoded, SqlMay, Complete, Columns;
    BranchClass(engine, r, amounts, b, table);
    BranchReads(engine, r, amounts, b, table);
    MayAnswerIsSql(engine, r.params, BranchSql(b), BranchQuery(engine, r, b), table, rows);
  }

  lemma QuotaFront(engine: Engine, r: Request, amounts: map<string, int>, bs: seq<Branch>, n: nat)
    requires Consistent(Columns(r)) && 0 < n <= |bs| && BranchesOk(engine, r, amounts, bs, n)
    ensures BranchesOk(engine, r, amounts, bs, n - 1) && BranchOk(engine, r, amounts, bs[n - 1])
    ensures bs[n - 1].parameter in r.params && engine.decode(r.params[bs[n - 1].parameter], bs[n - 1].ptype).Some?
    ensures
      var quotas := Quotas(engine, r, amounts, bs, n);
      quotas[..n - 1] == Quotas(engine, r, amounts, bs, n - 1) && quotas[n - 1] == QuotaOf(engine, r, bs[n - 1])
  {
    hide MappingOf, Consistent, Plain, Columns;
    BranchDecodes(engine, r, amounts, bs[n - 1]);
  }

  // Every union the statement may give has the same size.
  lemma {:induction false} UnionSize(engine: Engine, r: Request, amounts: map<string, int>, bs: seq<Branch>, n: nat, table: seq<Row>, rows: seq<Row>)
    requires Consistent(Columns(r)) && n <= |bs| && BranchesOk(engine, r, amounts, bs, n)
    requires Complete(table, MappingOf(Columns(r)).Keys)
    requires MayUnion(engine, r, amounts, bs, n, table, rows)
    ensures |rows| == Expected(engine, r.target.result, Quotas(engine, r, amounts, bs, n), AllProjected(table, MappingOf(Columns(r))))
  {
    hide MappingOf, Consistent, BranchOk, BranchesOk, InClass, AllProjected, SqlMay, Once, Covers, Complete, Columns;
    if n > 0 {
      QuotaFront(engine, r, amounts, bs, n);
      BranchReads(engine, r, amounts, bs[n - 1], table);
      var k :| 0 <= k <= |rows|
        && MayUnion(engine, r, amounts, bs, n - 1, table, rows[..k])
        && SqlMay(engine, r.params, BranchSql(bs[n - 1]), table, rows[k..]);
      UnionSize(engine, r, amounts, bs, n - 1, table, rows[..k]);
      BranchMay(engine, r, amounts, bs[n - 1], table, rows[k..]);
    }
  }

  // A sample of rows that leave every class enough is one of those unions.
  lemma {:induction false} SampleMayUnion(engine: Engine, r: Request, amounts: map<string, int>, bs: seq<Branch>, n: nat, table: seq<Row>, given: seq<Row>)
    requires Consistent(Columns(r)) && n <= |bs| && BranchesOk(engine, r, amounts, bs, n)
    requires Complete(table, MappingOf(Columns(r)).Keys)
    requires multiset(given) <= multiset(AllProjected(table, MappingOf(Columns(r))))
    requires AllLeftEnough(engine, r.target.result, Quotas(engine, r, amounts, bs, n), AllProjected(table, MappingOf(Columns(r))), given)
    ensures MayUnion(engine, r, amounts, bs, n, table, Sampled(engine, r.target.result, Quotas(engine, r, amounts, bs, n), given))
  {
    hide MappingOf, Consistent, BranchOk, BranchesOk, Kept, AllProjected, SqlMay, Once, Covers, Complete, Columns;
    if n > 0 {
      QuotaFront(engine, r, amounts, bs, n);
      var target, quotas, out := r.target.result, Quotas(engine, r, amounts, bs, n), AllProjected(table, MappingOf(Columns(r)));
      var front, last := Quotas(engine, r, amounts, bs, n - 1), quotas[n - 1];
      assert forall i :: 0 <= i < n - 1 ==> front[i] == quotas[i];
      SampleMayUnion(engine, r, amounts, bs, n - 1, table, given);
      var a, b := Sampled(engine, target, front, given), SampleOne(engine, target, last, given);
      var rows := Sampled(engine, target, quotas, given);
      assert rows == a + b && rows[..|a|] == a && rows[|a|..] == b;
      KeptWithin(engine, Equals(target, last.value), given, out);
      var kept := Kept(engine, Equals(target, last.value), given);
      assert kept == b + kept[|b|..];
      assert LeavesEnough(engine, target, last, out, given);
      BranchMay(engine, r, amounts, bs[n - 1], table, b);
    }
  }

  // The sample of whatever is left of the read may be the statement's exactly when enough of
  // every class is left; of the whole read it is the statement's first rows.
  lemma PerClassRows(engine: Engine, r: Request, amounts: map<string, int>, bs: seq<Branch>, table: seq<Row>, given: seq<Row>)
    requires Consistent(Columns(r)) && BranchesOk(engine, r, amounts, bs, |bs|)
    requires Complete(table, MappingOf(Columns(r)).Keys)
    requires Reduces(r, Output(engine, PlanFor(r, []), table), given)
    ensures
      var out, quotas := Output(engine, PlanFor(r, []), table), Quotas(engine, r, amounts, bs, |bs|);
      var rows := Sampled(engine, r.target.result, quotas, given);
      && (MayUnion(engine, r, amounts, bs, |bs|, table, rows) <==> AllLeftEnough(engine, r.target.result, quotas, out, given))
      && Sampled(engine, r.target.result, quotas, out) == UnionAll(engine, r, amounts, bs, |bs|, table)
  {
    hide BranchesOk, Consistent, MappingOf, Sampled, OnePerEntity, AllLeftEnough, Keyed, Output, MayUnion, Complete;
    var out, quotas := AllProjected(table, MappingOf(Columns(r))), Quotas(engine, r, amounts, bs, |bs|);
    SampledReadMeansUnion(engine, r, amounts, bs, |bs|, table);
    SamplerInput(engine, r, table);
    if r.entity.Some? {
      ProjectedKeyed(r, table);
      FewWithin(out, r.entity.value.result, given);
    }
    var rows := Sampled(engine, r.target.result, quotas, given);
    ExpectedIff(engine, r.target.result, quotas, out, given);
    SampleSize(engine, r.target.result, quotas, given);
    if MayUnion(engine, r, amounts, bs, |bs|, table, rows) {
      UnionSize(engine, r, amounts, bs, |bs|, table, rows);
    }
    if AllLeftEnough(engine, r.target.result, quotas, out, given) {
      SampleMayUnion(engine, r, amounts, bs, |bs|, table, given);
    }
  }

  // ---------------------------------------------------------------- the statement and the run

  // However the read is reduced, training runs on rows its statement may denote if and only if
  // the reduction costs it nothing.
  lemma TrainingRowsMayBeDenoted(engine: Engine, r: Request, amounts: Option<map<string, int>>, st: Statement, table: seq<Row>, given: seq<Row>)
    requires Accepts(engine, r, amounts, st) && Consistent(Columns(r)) && Complete(table, MappingOf(Columns(r)).Keys)
    requires Reduces(r, Output(engine, PlanOf(engine, r, amounts, st), table), given)
    ensures MayDenote(engine, r, amounts, st, table, TrainingRows(engine, r, amounts, st, given)) <==>
              GrainKept(engine, r, amounts, st, Output(engine, PlanOf(engine, r, amounts, st), table), given)
  {
    hide Readable, BranchesOk, AmountsOk, Consistent, MappingOf, Sampled, MayUnion, SqlMay, SqlRows, Once, Covers, OnePerEntity, EntitiesDiffer,
         LeavesEnough, Output, PlanFor, ReadSteps, Complete;
    AcceptsConsistent(engine, r, amounts, st);
    if st.Single? {
      SingleRows(engine, r, st.sql, table, given);
    } else {
      PerClassRows(engine, r, amounts.value, st.branches, table, given);
      if r.entity.None? {
        WholeReadEnough(engine, r.target.result, QuotasFor(engine, r, amounts.value, st), given);
      }
    }
  }

  lemma WholeReadEnough(engine: Engine, target: string, quotas: seq<Quota>, rows: seq<Row>)
    ensures AllLeftEnough(engine, target, quotas, rows, rows)
  {
  }

  // An accepted statement over a table that has what it selects.
  predicate Applies(engine: Engine, r: Request, amounts: Option<map<string, int>>, st: Statement, table: seq<Row>) {
    Accepts(engine, r, amounts, st) && Consistent(Columns(r)) && Complete(table, MappingOf(Columns(r)).Keys)
  }

  // Without an entity key they are the very rows, in their order.
  lemma UnreducedRowsDenoted(engine: Engine, r: Request, amounts: Option<map<string, int>>, st: Statement, table: seq<Row>)
    requires r.entity.None?
    ensures Applies(engine, r, amounts, st, table) ==>
      TrainingRows(engine, r, amounts, st, Output(engine, PlanOf(engine, r, amounts, st), table)) == Denoted(engine, r, amounts, st, table)
  {
    hide Readable, BranchesOk, AmountsOk, Consistent, MappingOf, Sampled, UnionAll, SqlRows, SqlMay, Once, Covers, Output, PlanFor, ReadSteps, Complete;
    if Applies(engine, r, amounts, st, table) {
      AcceptsConsistent(engine, r, amounts, st);
      var out := Output(engine, PlanOf(engine, r, amounts, st), table);
      if st.Single? {
        SingleRows(engine, r, st.sql, table, out);
      } else {
        PerClassRows(engine, r, amounts.value, st.branches, table, out);
      }
    }
  }

  // No repeated entity in the read is enough, for either form and every reduction.
  lemma DistinctEntitiesSuffice(engine: Engine, r: Request, amounts: Option<map<string, int>>, st: Statement, table: seq<Row>, given: seq<Row>)
    requires r.entity.Some?
    ensures Applies(engine, r, amounts, st, table)
            && Reduces(r, Output(engine, PlanOf(engine, r, amounts, st), table), given)
            && EntitiesDiffer(Output(engine, PlanOf(engine, r, amounts, st), table), r.entity.value.result) ==>
      MayDenote(engine, r, amounts, st, table, TrainingRows(engine, r, amounts, st, given))
  {
    hide AllLeftEnough, EntitiesDiffer, Balanced, Readable, Output, OnePerEntity, Keyed, MappingOf, Consistent, Complete, MayDenote, TrainingRows;
    if Applies(engine, r, amounts, st, table)
       && Reduces(r, Output(engine, PlanOf(engine, r, amounts, st), table), given)
       && EntitiesDiffer(Output(engine, PlanOf(engine, r, amounts, st), table), r.entity.value.result) {
      if st.PerClass? {
        SamplerInput(engine, r, table);
        ProjectedKeyed(r, table);
        DifferLeavesAll(engine, r.target.result, QuotasFor(engine, r, amounts.value, st),
                        Output(engine, PlanOf(engine, r, amounts, st), table), r.entity.value.result, given);
      }
      TrainingRowsMayBeDenoted(engine, r, amounts, st, table, given);
    }
  }

  // ---------------------------------------------------------------- requests that go wrong

  // Feature x, target y, entity id, and one row of each of two classes.
  function TwoClasses(a: string, b: string): Request {
    Request([Column("x", "x")], Column("y", "y"), Some(Column("id", "id")), None, map["p" := a, "q" := b])
  }

  function OneOf(parameter: string, ptype: string): Branch {
    Branch(None, [Item(None, "x", "x"), Item(None, "y", "y"), Item(None, "id", "id")], None, "y", parameter, ptype, 1)
  }

  function BothClasses(s: string, t: string): seq<Branch> {
    [OneOf("p", s), OneOf("q", t)]
  }

  lemma TwoClassColumns(a: string, b: string)
    ensures Columns(TwoClasses(a, b)) == [Column("x", "x"), Column("y", "y"), Column("id", "id")]
    ensures Alone(Columns(TwoClasses(a, b))) && Consistent(Columns(TwoClasses(a, b)))
    ensures ColumnsOf(OneOf("p", "").items) == Columns(TwoClasses(a, b))
  {
    AloneConsistent(Columns(TwoClasses(a, b)));
  }

  lemma OneOfOk(engine: Engine, r: Request, amounts: map<string, int>, parameter: string, ptype: string)
    requires Consistent(Columns(r)) && Alone(Columns(r)) && ColumnsOf(OneOf("p", "").items) == Columns(r) && r.target.source == "y"
    requires parameter in r.params && r.params[parameter] in amounts && amounts[r.params[parameter]] == 1
    requires engine.decode(r.params[parameter], ptype).Some?
    ensures BranchOk(engine, r, amounts, OneOf(parameter, ptype))
  {
    hide Consistent, MappingOf, Alone, Columns;
    assert OneOf(parameter, ptype).items == OneOf("p", "").items;
  }

  lemma TwoClassesBalanced(engine: Engine, a: string, s: string, b: string, t: string)
    requires a != "" && b != "" && a != b
    requires engine.decode(a, s).Some? && engine.decode(b, t).Some?
    ensures Balanced(engine, TwoClasses(a, b), map[a := 1, b := 1], BothClasses(s, t))
  {
    hide BranchOk, Consistent, Alone, Columns, ColumnsOf;
    var r, amounts, bs := TwoClasses(a, b), map[a := 1, b := 1], BothClasses(s, t);
    TwoClassColumns(a, b);
    assert amounts.Keys == {a, b} && |amounts| == |amounts.Keys| == 2;
    OneOfOk(engine, r, amounts, "p", s);
    OneOfOk(engine, r, amounts, "q", t);
    assert "p"[0] != "q"[0];
    assert bs[0] == OneOf("p", s) && bs[1] == OneOf("q", t);
    assert Params(bs, 2) == {"p", "q"} && r.params.Keys == {"p", "q"};
    assert Classes(r, bs, 2) == {a, b};
  }

  // Two classes the engine equates: the request is accepted, and its quotas are not met on every
  // table.
  lemma EquatedClassesAccepted(engine: Engine, a: string, s: string, b: string, t: string, v: Value, w: Value)
    requires EqualityOk(engine) && engine.holds(Eq, v, w)
    requires a != "" && b != "" && a != b && engine.decode(a, s) == Some(v) && engine.decode(b, t) == Some(w)
    ensures Balanced(engine, TwoClasses(a, b), map[a := 1, b := 1], BothClasses(s, t))
    ensures
      var quotas := Quotas(engine, TwoClasses(a, b), map[a := 1, b := 1], BothClasses(s, t), 2);
      quotas == [Quota(v, 1), Quota(w, 1)] && exists rows: seq<Row> :: !QuotasMet(engine, "y", quotas, rows)
  {
    hide QuotasMet, Balanced, EqualityOk;
    TwoClassesBalanced(engine, a, s, b, t);
    Both(engine, TwoClasses(a, b), map[a := 1, b := 1], BothClasses(s, t), v, w);
    EquatedQuotas(engine, v, w);
    AcceptedQuotasMet(engine, TwoClasses(a, b), map[a := 1, b := 1], BothClasses(s, t));
  }

  lemma EquatedQuotas(engine: Engine, v: Value, w: Value)
    requires EqualityOk(engine) && engine.holds(Eq, v, w)
    ensures SelfEqual(engine, [Quota(v, 1), Quota(w, 1)]) && !Apart(engine, [Quota(v, 1), Quota(w, 1)])
  {
    assert engine.holds(Eq, w, v);
    assert engine.holds(Eq, v, v) && engine.holds(Eq, w, w);
    var quotas := [Quota(v, 1), Quota(w, 1)];
    assert quotas[0].value == v && quotas[1].value == w;
  }

  // The integer classes "1" and "01" are one value.
  lemma CollidingClasses(engine: Engine)
    requires EqualityOk(engine) && engine.holds(Eq, Whole(1), Whole(1))
    requires engine.decode("1", "Int32") == Some(Whole(1)) == engine.decode("01", "Int32")
    ensures Balanced(engine, TwoClasses("1", "01"), map["1" := 1, "01" := 1], BothClasses("Int32", "Int32"))
    ensures
      var quotas := Quotas(engine, TwoClasses("1", "01"), map["1" := 1, "01" := 1], BothClasses("Int32", "Int32"), 2);
      exists rows: seq<Row> :: !QuotasMet(engine, "y", quotas, rows)
  {
    hide QuotasMet, Balanced, EqualityOk;
    assert |"1"| != |"01"|;
    EquatedClassesAccepted(engine, "1", "Int32", "01", "Int32", Whole(1), Whole(1));
  }

  // The integer class "1" and the decimal class "1.0" are two values that the engine equates.
  lemma MixedNumberClasses(engine: Engine)
    requires EqualityOk(engine) && engine.holds(Eq, Whole(1), Decimal(1.0))
    requires engine.decode("1", "Int32") == Some(Whole(1)) && engine.decode("1.0", "Float64") == Some(Decimal(1.0))
    ensures Balanced(engine, TwoClasses("1", "1.0"), map["1" := 1, "1.0" := 1], BothClasses("Int32", "Float64"))
    ensures
      var quotas := Quotas(engine, TwoClasses("1", "1.0"), map["1" := 1, "1.0" := 1], BothClasses("Int32", "Float64"), 2);
      quotas == [Quota(Whole(1), 1), Quota(Decimal(1.0), 1)] && exists rows: seq<Row> :: !QuotasMet(engine, "y", quotas, rows)
  {
    hide QuotasMet, Balanced, EqualityOk;
    assert |"1"| != |"1.0"|;
    EquatedClassesAccepted(engine, "1", "Int32", "1.0", "Float64", Whole(1), Decimal(1.0));
  }

  lemma Both(engine: Engine, r: Request, amounts: map<string, int>, bs: seq<Branch>, v: Value, w: Value)
    requires |bs| == 2
    requires forall i :: 0 <= i < 2 ==> bs[i].limit == 1 && bs[i].parameter in r.params
    requires engine.decode(r.params[bs[0].parameter], bs[0].ptype) == Some(v)
    requires engine.decode(r.params[bs[1].parameter], bs[1].ptype) == Some(w)
    ensures Balanced(engine, r, amounts, bs) ==> Quotas(engine, r, amounts, bs, 2) == [Quota(v, 1), Quota(w, 1)]
  {
    hide Consistent, Columns, MappingOf, Plain;
  }

  // A row of entity 1 in a class.
  function OneEntity(c: string): Row {
    map["id" := Whole(1), "x" := Whole(0), "y" := Text(c)]
  }

  // Equality that knows two texts apart.
  ghost predicate KnowsTexts(engine: Engine) {
    && engine.holds(Eq, Text("a"), Text("a")) && engine.holds(Eq, Text("b"), Text("b"))
    && !engine.holds(Eq, Text("a"), Text("b")) && !engine.holds(Eq, Text("b"), Text("a"))
  }

  // One entity with a row of each class: whichever row is kept, training gets none of the other
  // class, which the statement must give.
  lemma SharedEntity(engine: Engine, given: seq<Row>)
    requires KnowsTexts(engine)
    requires engine.decode("a", "String") == Some(Text("a")) && engine.decode("b", "String") == Some(Text("b"))
    requires OnePerEntity([OneEntity("a"), OneEntity("b")], "id", given)
    ensures
      var r, amounts, st := TwoClasses("a", "b"), Some(map["a" := 1, "b" := 1]), PerClass(BothClasses("String", "String"));
      var table := [OneEntity("a"), OneEntity("b")];
      && Accepts(engine, r, amounts, st) && Apart(engine, QuotasFor(engine, r, amounts.value, st))
      && Consistent(Columns(r)) && Complete(table, MappingOf(Columns(r)).Keys)
      && Reduces(r, Output(engine, PlanOf(engine, r, amounts, st), table), given)
      && !MayDenote(engine, r, amounts, st, table, TrainingRows(engine, r, amounts, st, given))
  {
    hide Balanced, TrainingRows, MayDenote, KnowsTexts, MappingOf, Columns, Consistent, Complete, AllLeftEnough, Output, Apart, OnePerEntity;
    var r, amounts, st := TwoClasses("a", "b"), Some(map["a" := 1, "b" := 1]), PerClass(BothClasses("String", "String"));
    TwoClassColumns("a", "b");
    TextQuotas(engine);
    TwoClassMapping();
    TwoClassOutput(engine);
    OneClassGone(engine, given);
    TrainingRowsMayBeDenoted(engine, r, amounts, st, [OneEntity("a"), OneEntity("b")], given);
  }

  lemma TextQuotas(engine: Engine)
    requires KnowsTexts(engine)
    requires engine.decode("a", "String") == Some(Text("a")) && engine.decode("b", "String") == Some(Text("b"))
    ensures Balanced(engine, TwoClasses("a", "b"), map["a" := 1, "b" := 1], BothClasses("String", "String"))
    ensures Quotas(engine, TwoClasses("a", "b"), map["a" := 1, "b" := 1], BothClasses("String", "String"), 2)
            == [Quota(Text("a"), 1), Quota(Text("b"), 1)]
    ensures Apart(engine, [Quota(Text("a"), 1), Quota(Text("b"), 1)])
  {
    hide Balanced;
    assert "a"[0] != "b"[0];
    TwoClassesBalanced(engine, "a", "String", "b", "String");
    Both(engine, TwoClasses("a", "b"), map["a" := 1, "b" := 1], BothClasses("String", "String"), Text("a"), Text("b"));
  }

  lemma TwoClassMapping()
    requires Consistent(Columns(TwoClasses("a", "b")))
    ensures MappingOf(Columns(TwoClasses("a", "b"))).Keys == {"x", "y", "id"}
    ensures forall s :: s in MappingOf(Columns(TwoClasses("a", "b"))) ==> MappingOf(Columns(TwoClasses("a", "b")))[s] == s
    ensures Complete([OneEntity("a"), OneEntity("b")], MappingOf(Columns(TwoClasses("a", "b"))).Keys)
  {
    hide MappingOf, Consistent, Columns;
    TwoClassColumns("a", "b");
    var cs := Columns(TwoClasses("a", "b"));
    MappingFacts(cs);
    assert Sources(cs) == ["x", "y", "id"];
    MappingAt(cs, 0);
    MappingAt(cs, 1);
    MappingAt(cs, 2);
  }

  lemma SameRow(row: Row, m: map<string, string>)
    requires OneToOne(m) && m.Keys == row.Keys && forall s :: s in m ==> m[s] == s
    ensures Projected(row, m) == row
  {
    ProjectedMeans(row, m);
    hide Projected;
    forall s | s in m ensures s in m.Values { assert m[s] == s; }
  }

  // Every column keeps its name, so the rows are read as they are.
  lemma TwoClassOutput(engine: Engine)
    requires Consistent(Columns(TwoClasses("a", "b")))
    ensures Output(engine, PlanFor(TwoClasses("a", "b"), []), [OneEntity("a"), OneEntity("b")]) == [OneEntity("a"), OneEntity("b")]
  {
    hide MappingOf, Consistent, Output, Columns, Projected, OneToOne;
    TwoClassMapping();
    MappingFacts(Columns(TwoClasses("a", "b")));
    var m, rows := MappingOf(Columns(TwoClasses("a", "b"))), [OneEntity("a"), OneEntity("b")];
    SamplerInput(engine, TwoClasses("a", "b"), rows);
    SameRow(rows[0], m);
    SameRow(rows[1], m);
  }

  lemma ClassOfOne(engine: Engine, c: string, d: string)
    ensures InClass(engine, "y", Text(c), [OneEntity(d)]) == if engine.holds(Eq, Text(d), Text(c)) then 1 else 0
  {
    var rows := [OneEntity(d)];
    ClassCell(engine, "y", Text(c), rows[0]);
    AllOrNone(engine, Equals("y", Text(c)), rows);
  }

  lemma OnlyOneKept(given: seq<Row>)
    requires OnePerEntity([OneEntity("a"), OneEntity("b")], "id", given)
    ensures given == [OneEntity("a")] || given == [OneEntity("b")]
  {
    var rows := [OneEntity("a"), OneEntity("b")];
    assert SeenIn(given, "id", rows[0]);
    assert rows[0]["id"] == rows[1]["id"];
    DuplicatesDetected(rows, "id", given);
    FewWithin(rows, "id", given);
    assert |given| == 1 && given[0] in rows;
  }

  lemma OneClassGone(engine: Engine, given: seq<Row>)
    requires KnowsTexts(engine) && OnePerEntity([OneEntity("a"), OneEntity("b")], "id", given)
    ensures !AllLeftEnough(engine, "y", [Quota(Text("a"), 1), Quota(Text("b"), 1)], [OneEntity("a"), OneEntity("b")], given)
  {
    hide InClass, OnePerEntity;
    OnlyOneKept(given);
    var lost := if given == [OneEntity("a")] then 1 else 0;
    var quotas := [Quota(Text("a"), 1), Quota(Text("b"), 1)];
    ClassOfOne(engine, "a", "a");
    ClassOfOne(engine, "a", "b");
    ClassOfOne(engine, "b", "a");
    ClassOfOne(engine, "b", "b");
    TwoRowClass(engine, "a");
    TwoRowClass(engine, "b");
    assert !LeavesEnough(engine, "y", quotas[lost], [OneEntity("a"), OneEntity("b")], given);
  }

  lemma TwoRowClass(engine: Engine, c: string)
    ensures InClass(engine, "y", Text(c), [OneEntity("a"), OneEntity("b")]) ==
              InClass(engine, "y", Text(c), [OneEntity("a")]) + InClass(engine, "y", Text(c), [OneEntity("b")])
  {
    hide Kept;
    KeptConcat(engine, Equals("y", Text(c)), [OneEntity("a")], [OneEntity("b")]);
    assert [OneEntity("a")] + [OneEntity("b")] == [OneEntity("a"), OneEntity("b")];
  }
}
