/**
 What an accepted training plan produces is what its SQL says.
 */
module TrainingMeaning {
  import opened Wrappers
  import opened Relational
  import opened TrainingQuery
  import opened SqlMeaning

  ghost function Output(engine: Engine, plan: Plan, table: seq<Row>): seq<Row> {
    Run(engine, plan.steps, Scan(table, plan.columns))
  }

  lemma ReadableMeans(engine: Engine, r: Request, sql: Sql)
    requires Readable(engine, r, sql)
    ensures Consistent(Columns(r))
  {
  }

  // Selecting the sources and renaming them is projecting, when the names are one-to-one.
  lemma RenameProjects(row: Row, required: seq<string>, m: map<string, string>)
    requires OneToOne(m) && m.Keys <= row.Keys
    requires forall s :: s in m <==> s in required
    ensures Projected(row, m) == Renamed(Narrowed(row, required), Renames(m))
    ensures Renames(m) == map[] ==> Projected(row, m) == Narrowed(row, required)
  {
    ProjectedMeans(row, m);
    NewNames(row, required, m);
    if Renames(m) == map[] {
      SameNames(m);
    }
  }

  lemma NewNames(row: Row, required: seq<string>, m: map<string, string>)
    requires m.Keys <= row.Keys
    requires forall s :: s in m <==> s in required
    ensures Narrowed(row, required).Keys == m.Keys
    ensures (map c | c in Narrowed(row, required).Keys :: NewName(Renames(m), c)) == m
  {
    assert forall s :: s in m ==> NewName(Renames(m), s) == m[s];
  }

  lemma SameNames(m: map<string, string>)
    requires Renames(m) == map[]
    ensures m.Values == m.Keys && forall s :: s in m ==> m[s] == s
  {
    forall s | s in m ensures m[s] == s && s in m.Values {
      assert s !in Renames(m);
    }
  }

  lemma RenameRun(engine: Engine, rows: seq<Row>, required: seq<string>, m: map<string, string>)
    requires OneToOne(m) && Complete(rows, m.Keys)
    requires forall s :: s in m <==> s in required
    ensures Run(engine, RenameSteps(m), Scan(rows, required)) ==
              seq(|rows|, i requires 0 <= i < |rows| => Projected(rows[i], m))
  {
    forall i | 0 <= i < |rows|
      ensures Projected(rows[i], m) == Renamed(Narrowed(rows[i], required), Renames(m))
      ensures Renames(m) == map[] ==> Projected(rows[i], m) == Narrowed(rows[i], required)
    {
      RenameProjects(rows[i], required, m);
    }
    var steps := RenameSteps(m);
    if steps != [] {
      assert steps == [RenameColumns(Renames(m))] && steps[1..] == [];
    }
  }

  lemma ScanTwice(rows: seq<Row>, columns: seq<string>, required: seq<string>)
    requires forall c :: c in required ==> c in columns
    ensures Scan(Scan(rows, columns), required) == Scan(rows, required)
  {
    forall i | 0 <= i < |rows| ensures Narrowed(Narrowed(rows[i], columns), required) == Narrowed(rows[i], required) {}
  }

  lemma {:induction false} FilterColumnsOf(steps: seq<Step>, i: nat)
    requires i < |steps| && steps[i].Filter?
    ensures steps[i].condition.column in FilterColumns(steps)
    decreases |steps|
  {
    var front := steps[..|steps| - 1];
    if i < |front| {
      FilterColumnsOf(front, i);
      assert front[i] == steps[i];
    }
  }

  // Every filtered and every required column is read.
  lemma ColumnsRead(engine: Engine, r: Request, sql: Sql)
    requires Readable(engine, r, sql)
    ensures
      var plan := PlanFor(r, ReadSteps(engine, r, sql));
      && (forall c :: c in Required(r) ==> c in plan.columns)
      && forall i :: 0 <= i < |QueryOf(engine, r, sql).where| ==> QueryOf(engine, r, sql).where[i].column in plan.columns
  {
    hide Readable, MappingOf, FirstSeen;
    ReadableMeans(engine, r, sql);
    var steps, q := ReadSteps(engine, r, sql), QueryOf(engine, r, sql);
    FirstSeenMeans(Required(r) + FilterColumns(steps));
    forall i | 0 <= i < |q.where| ensures q.where[i].column in FilterColumns(steps) {
      assert steps[i] == Filter(q.where[i]);
      FilterColumnsOf(steps, i);
    }
  }

  lemma NothingFiltered(r: Request)
    ensures FirstSeen(Required(r) + FilterColumns([])) == Required(r)
  {
    FirstSeenMeans(Sources(Columns(r)));
    FirstSeenDistinct(Required(r));
    assert Required(r) + [] == Required(r);
  }

  // Read, filter, limit and select leave the chosen rows with the required columns.
  lemma ReadRun(engine: Engine, r: Request, sql: Sql, table: seq<Row>)
    requires Readable(engine, r, sql)
    ensures
      var plan := PlanFor(r, ReadSteps(engine, r, sql));
      Run(engine, ReadSteps(engine, r, sql), Scan(table, plan.columns)) == Scan(Chosen(engine, QueryOf(engine, r, sql), table), Required(r))
  {
    hide Readable, Required;
    ReadableMeans(engine, r, sql);
    var q, columns := QueryOf(engine, r, sql), PlanFor(r, ReadSteps(engine, r, sql)).columns;
    var core := FilterSteps(q.where) + LimitSteps(q.limit);
    ColumnsRead(engine, r, sql);
    ChoosingRun(engine, q, Scan(table, columns));
    ChosenScan(engine, q, table, columns);
    if core == [] {
      assert q.where == [] && q.limit.None? by { assert |core| == |q.where| + |LimitSteps(q.limit)|; }
      KeptAll(engine, table);
      NothingFiltered(r);
    } else {
      var last := [SelectColumns(Required(r))];
      RunConcat(engine, core, last, Scan(table, columns));
      assert last[1..] == [];
      ScanTwice(Chosen(engine, q, table), columns, Required(r));
    }
  }

  // The plan's output is the answer of its resolved query.
  lemma PlanAnswers(engine: Engine, r: Request, sql: Sql, table: seq<Row>)
    requires Readable(engine, r, sql) && Complete(table, MappingOf(Columns(r)).Keys)
    ensures Output(engine, PlanFor(r, ReadSteps(engine, r, sql)), table) == Answer(engine, QueryOf(engine, r, sql), table)
  {
    hide Readable, Consistent, FirstSeen, MappingOf, ReadSteps, RenameSteps, Chosen;
    ReadableMeans(engine, r, sql);
    var m, q, steps := MappingOf(Columns(r)), QueryOf(engine, r, sql), ReadSteps(engine, r, sql);
    var columns := PlanFor(r, steps).columns;
    MappingFacts(Columns(r));
    RunConcat(engine, steps, RenameSteps(m), Scan(table, columns));
    ReadRun(engine, r, sql, table);
    var chosen := Chosen(engine, q, table);
    assert Complete(chosen, m.Keys);
    RenameRun(engine, chosen, Required(r), m);
  }

  lemma ReadableDecoded(engine: Engine, r: Request, sql: Sql)
    requires Readable(engine, r, sql)
    ensures Once(sql.items) && Consistent(ColumnsOf(sql.items)) && QueryOf(engine, r, sql).projection == MappingOf(ColumnsOf(sql.items))
    ensures Decoded(engine, r.params, sql.where, QueryOf(engine, r, sql).where) && QueryOf(engine, r, sql).limit == sql.limit
  {
    hide MappingOf, Consistent, Resolve;
    OnceIff(sql.items);
    forall i | 0 <= i < |sql.where| ensures Resolve(engine, r.params, sql.where[i]) == Some(QueryOf(engine, r, sql).where[i]) {}
  }

  // Over any table, an accepted plan produces exactly the rows the statement means.
  lemma PlanMeansQuery(engine: Engine, r: Request, sql: Sql, table: seq<Row>)
    requires Readable(engine, r, sql) && Covers(table, sql.items)
    ensures Once(sql.items)
    ensures Output(engine, PlanFor(r, ReadSteps(engine, r, sql)), table) == SqlRows(engine, r.params, sql, table)
  {
    hide Readable, Consistent, MappingOf, ReadSteps, Output, Answer, Once, Covers, Complete, Decoded;
    ReadableMeans(engine, r, sql);
    ReadableDecoded(engine, r, sql);
    CompleteCovers(table, sql.items);
    PlanAnswers(engine, r, sql, table);
    AnswerIsSql(engine, r.params, sql, QueryOf(engine, r, sql), table);
  }

  // Each output row has the result columns and no other, each with its declared cell.
  lemma OutputColumns(engine: Engine, r: Request, sql: Sql, table: seq<Row>, i: nat)
    requires Readable(engine, r, sql) && Complete(table, MappingOf(Columns(r)).Keys)
    requires i < |Chosen(engine, QueryOf(engine, r, sql), table)|
    ensures
      var out := Output(engine, PlanFor(r, ReadSteps(engine, r, sql)), table);
      var row := Chosen(engine, QueryOf(engine, r, sql), table)[i];
      && i < |out| && out[i].Keys == MappingOf(Columns(r)).Values
      && forall k :: 0 <= k < |Columns(r)| ==>
           var c := Columns(r)[k]; c.result in out[i] && c.source in row && out[i][c.result] == row[c.source]
  {
    hide Readable, MappingOf, ReadSteps, Chosen, Output;
    ReadableMeans(engine, r, sql);
    PlanAnswers(engine, r, sql, table);
    MappingFacts(Columns(r));
    var q := QueryOf(engine, r, sql);
    var row := Chosen(engine, q, table)[i];
    assert Complete(Chosen(engine, q, table), MappingOf(Columns(r)).Keys);
    ProjectedMeans(row, MappingOf(Columns(r)));
    forall k | 0 <= k < |Columns(r)|
      ensures Columns(r)[k].source in MappingOf(Columns(r)) && MappingOf(Columns(r))[Columns(r)[k].source] == Columns(r)[k].result
    {
      MappingAt(Columns(r), k);
    }
  }
}
