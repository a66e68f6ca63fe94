/**
 What a restricted SELECT means, read off the parsed statement itself: its conditions on the
 table's rows, its limit, and its select list.
 */
module SqlMeaning {
  import opened Wrappers
  import opened Relational
  import opened TrainingQuery

  // The row's cell compares with the parameter's value as the condition says.
  predicate Passes(engine: Engine, params: map<string, string>, c: Condition, row: Row) {
    && c.column in row && c.parameter in params
    && engine.decode(params[c.parameter], c.ptype).Some?
    && engine.holds(c.op, row[c.column], engine.decode(params[c.parameter], c.ptype).value)
  }

  predicate PassesAll(engine: Engine, params: map<string, string>, where: seq<Condition>, row: Row) {
    forall i :: 0 <= i < |where| ==> Passes(engine, params, where[i], row)
  }

  // The rows that pass every condition, in order.
  function WantedRows(engine: Engine, params: map<string, string>, where: seq<Condition>, rows: seq<Row>): (wanted: seq<Row>)
    ensures forall i :: 0 <= i < |wanted| ==> wanted[i] in rows && PassesAll(engine, params, where, wanted[i])
  {
    if rows == [] then []
    else (if PassesAll(engine, params, where, rows[0]) then [rows[0]] else []) + WantedRows(engine, params, where, rows[1..])
  }

  // The table has every selected column.
  predicate Covers(rows: seq<Row>, items: seq<Item>) {
    forall i, k :: 0 <= i < |rows| && 0 <= k < |items| ==> items[k].source in rows[i]
  }

  // Names and columns of the select list occur once.
  predicate Once(items: seq<Item>) {
    forall j, k :: 0 <= j < k < |items| ==> items[j].source != items[k].source && items[j].result != items[k].result
  }

  // Each item's name holds the cell of its column, and there is nothing else.
  function ItemRow(row: Row, items: seq<Item>): Row
    requires Once(items) && forall k :: 0 <= k < |items| ==> items[k].source in row
  {
    map k | 0 <= k < |items| :: items[k].result := row[items[k].source]
  }

  function SqlRows(engine: Engine, params: map<string, string>, sql: Sql, table: seq<Row>): seq<Row>
    requires Once(sql.items) && Covers(table, sql.items)
  {
    var chosen := First(WantedRows(engine, params, sql.where, table), sql.limit);
    seq(|chosen|, i requires 0 <= i < |chosen| => ItemRow(ChosenRow(table, chosen, sql.items, i), sql.items))
  }

  function ChosenRow(table: seq<Row>, chosen: seq<Row>, items: seq<Item>, i: nat): (row: Row)
    requires i < |chosen| && chosen[i] in table && Covers(table, items)
    ensures row == chosen[i] && forall k :: 0 <= k < |items| ==> items[k].source in row
  {
    chosen[i]
  }

  // Without an order LIMIT may take any rows, as many as it allows.
  predicate SqlMay(engine: Engine, params: map<string, string>, sql: Sql, table: seq<Row>, rows: seq<Row>)
    requires Once(sql.items) && Covers(table, sql.items)
  {
    && multiset(rows) <= multiset(SqlRows(engine, params, sql.(limit := None), table))
    && |rows| == |SqlRows(engine, params, sql, table)|
  }

  // ---------------------------------------------------------------- against resolved predicates

  // `ps` are the conditions with their parameters decoded.
  predicate Decoded(engine: Engine, params: map<string, string>, where: seq<Condition>, ps: seq<Predicate>) {
    && |ps| == |where|
    && forall i :: 0 <= i < |where| ==> Resolve(engine, params, where[i]) == Some(ps[i])
  }

  lemma {:induction false} WantedAreKept(engine: Engine, params: map<string, string>, where: seq<Condition>, ps: seq<Predicate>, rows: seq<Row>)
    requires Decoded(engine, params, where, ps)
    ensures Kept(engine, ps, rows) == WantedRows(engine, params, where, rows)
  {
    if rows != [] {
      WantedAreKept(engine, params, where, ps, rows[1..]);
      SatisfiesIff(engine, params, where, ps, rows[0]);
    }
  }

  lemma SatisfiesIff(engine: Engine, params: map<string, string>, where: seq<Condition>, ps: seq<Predicate>, row: Row)
    requires Decoded(engine, params, where, ps)
    ensures Satisfies(engine, ps, row) <==> PassesAll(engine, params, where, row)
  {
    forall i | 0 <= i < |where|
      ensures Passes(engine, params, where[i], row) <==>
        ps[i].column in row && engine.holds(ps[i].op, row[ps[i].column], ps[i].value)
    {
      assert Resolve(engine, params, where[i]) == Some(ps[i]);
    }
  }

  // A condition resolves exactly when its parameter is there and decodes, to its own comparison.
  lemma ResolveExact(engine: Engine, params: map<string, string>, c: Condition)
    ensures Resolve(engine, params, c) ==
      if c.parameter in params && engine.decode(params[c.parameter], c.ptype).Some?
      then Some(Predicate(c.column, c.op, engine.decode(params[c.parameter], c.ptype).value))
      else None
  {
  }

  lemma OnceIff(items: seq<Item>)
    ensures Once(items) <==> Alone(ColumnsOf(items))
    ensures Once(items) ==> Consistent(ColumnsOf(items))
  {
    var cs := ColumnsOf(items);
    assert forall k :: 0 <= k < |items| ==> cs[k].source == items[k].source && cs[k].result == items[k].result;
    if Once(items) {
      AloneConsistent(cs);
    }
  }

  function ResultNames(items: seq<Item>): seq<string> {
    seq(|items|, k requires 0 <= k < |items| => items[k].result)
  }

  function SourceNames(items: seq<Item>): seq<string> {
    seq(|items|, k requires 0 <= k < |items| => items[k].source)
  }

  // Projecting by the select list's mapping is reading its items.
  lemma ProjectedItems(row: Row, items: seq<Item>)
    requires Once(items) && forall k :: 0 <= k < |items| ==> items[k].source in row
    requires Consistent(ColumnsOf(items))
    ensures MappingOf(ColumnsOf(items)).Keys <= row.Keys && Projected(row, MappingOf(ColumnsOf(items))) == ItemRow(row, items)
  {
    hide MappingOf, Consistent, Once, ItemRow, Projected, OneToOne;
    var cs, m := ColumnsOf(items), MappingOf(ColumnsOf(items));
    MappingFacts(cs);
    assert Sources(cs) == SourceNames(items);
    forall s | s in m ensures s in row {
      var k :| 0 <= k < |items| && SourceNames(items)[k] == s;
      assert items[k].source == s;
    }
    forall k | 0 <= k < |items| ensures m[SourceNames(items)[k]] == ResultNames(items)[k] {
      MappingAt(cs, k);
    }
    ProjectedMeans(row, m);
    ItemRowMeans(row, items);
    SameRows(row, m, SourceNames(items), ResultNames(items), Projected(row, m), ItemRow(row, items));
  }

  lemma SameRows(row: Row, m: map<string, string>, sources: seq<string>, results: seq<string>, p: Row, q: Row)
    requires m.Keys <= row.Keys && |results| == |sources|
    requires p.Keys == m.Values && forall s :: s in m ==> m[s] in p && p[m[s]] == row[s]
    requires forall s :: s in m <==> s in sources
    requires forall t :: t in q ==> t in results
    requires forall k :: 0 <= k < |sources| ==> m[sources[k]] == results[k] && results[k] in q && q[results[k]] == row[sources[k]]
    ensures p == q
  {
    forall t ensures t in p <==> t in q {
      if t in p {
        var s :| s in m && m[s] == t;
        var k :| 0 <= k < |sources| && sources[k] == s;
        assert results[k] == t;
      }
      if t in q {
        var k :| 0 <= k < |results| && results[k] == t;
        assert m[sources[k]] == t;
      }
    }
    forall t | t in q ensures p[t] == q[t] {
      var k :| 0 <= k < |results| && results[k] == t;
      assert p[m[sources[k]]] == row[sources[k]];
    }
  }

  lemma ItemRowMeans(row: Row, items: seq<Item>)
    requires Once(items) && forall k :: 0 <= k < |items| ==> items[k].source in row
    ensures forall t :: t in ItemRow(row, items) ==> t in ResultNames(items)
    ensures forall k :: 0 <= k < |items| ==>
      ResultNames(items)[k] in ItemRow(row, items) && ItemRow(row, items)[ResultNames(items)[k]] == row[SourceNames(items)[k]]
  {
    forall t | t in ItemRow(row, items) ensures t in ResultNames(items) {
      var k :| 0 <= k < |items| && items[k].result == t;
      assert ResultNames(items)[k] == t;
    }
  }

  // The answer of the resolved query is what the statement means.
  lemma AnswerIsSql(engine: Engine, params: map<string, string>, sql: Sql, q: Select, table: seq<Row>)
    requires Once(sql.items) && Covers(table, sql.items) && Consistent(ColumnsOf(sql.items))
    requires q.projection == MappingOf(ColumnsOf(sql.items)) && q.limit == sql.limit && Decoded(engine, params, sql.where, q.where)
    requires Complete(table, q.projection.Keys)
    ensures Answer(engine, q, table) == SqlRows(engine, params, sql, table)
  {
    hide MappingOf, Consistent, Projected, Kept, WantedRows, Decoded;
    WantedAreKept(engine, params, sql.where, q.where, table);
    var chosen := Chosen(engine, q, table);
    assert chosen == First(WantedRows(engine, params, sql.where, table), sql.limit);
    forall i | 0 <= i < |chosen|
      ensures chosen[i] in table && q.projection.Keys <= chosen[i].Keys
      ensures Projected(chosen[i], q.projection) == ItemRow(ChosenRow(table, chosen, sql.items, i), sql.items)
    {
      assert chosen[i] in table;
      ProjectedItems(chosen[i], sql.items);
    }
  }

  // And so are the answers its limit may take.
  lemma MayAnswerIsSql(engine: Engine, params: map<string, string>, sql: Sql, q: Select, table: seq<Row>, rows: seq<Row>)
    requires Once(sql.items) && Covers(table, sql.items) && Consistent(ColumnsOf(sql.items))
    requires q.projection == MappingOf(ColumnsOf(sql.items)) && q.limit == sql.limit && Decoded(engine, params, sql.where, q.where)
    requires Complete(table, q.projection.Keys)
    ensures MayAnswer(engine, q, table, rows) <==> SqlMay(engine, params, sql, table, rows)
  {
    hide MappingOf, Consistent, Answer, SqlRows, Decoded, Once, Covers, Complete;
    AnswerIsSql(engine, params, sql, q, table);
    AnswerIsSql(engine, params, sql.(limit := None), q.(limit := None), table);
    AnswerMayAnswer(engine, q, table);
  }

  // A table with the mapped columns has the selected ones.
  lemma CompleteCovers(rows: seq<Row>, items: seq<Item>)
    requires Consistent(ColumnsOf(items))
    ensures Complete(rows, MappingOf(ColumnsOf(items)).Keys) <==> Covers(rows, items)
  {
    hide MappingOf, Consistent;
    var cs, m := ColumnsOf(items), MappingOf(ColumnsOf(items));
    MappingFacts(cs);
    assert Sources(cs) == seq(|items|, k requires 0 <= k < |items| => items[k].source);
    forall s ensures s in m <==> exists k :: 0 <= k < |items| && items[k].source == s {
      if s in m {
        var k :| 0 <= k < |cs| && Sources(cs)[k] == s;
        assert items[k].source == s;
      }
      if k :| 0 <= k < |items| && items[k].source == s {
        assert Sources(cs)[k] == s;
      }
    }
    if Covers(rows, items) {
      forall i | 0 <= i < |rows| ensures m.Keys <= rows[i].Keys {}
    }
  }
}
