/**
 Rows, the ingestion transform steps that run over them, and what a restricted SELECT means.
 How a parameter is decoded and how a cell compares with a value belong to the engine.
 */
module Relational {
  import opened Wrappers

  datatype Value = Whole(n: int) | Decimal(r: real) | Flag(b: bool) | Text(s: string) | Null

  type Row = map<string, Value>

  datatype Op = Eq | Ne | Lt | Le | Gt | Ge

  // `decode` reads a parameter of a ClickHouse type, `holds` compares a cell with a value; SQL and
  // the ingestion engine agree on both.
  datatype Engine = Engine(decode: (string, string) -> Option<Value>, holds: (Op, Value, Value) -> bool)

  datatype Predicate = Predicate(column: string, op: Op, value: Value)

  // ---------------------------------------------------------------- what a SELECT means

  // `projection` maps each source column to its result column.
  datatype Select = Select(projection: map<string, string>, where: seq<Predicate>, limit: Option<nat>)

  predicate OneToOne(m: map<string, string>) {
    forall a, b :: a in m && b in m && m[a] == m[b] ==> a == b
  }

  ghost function SourceOf(m: map<string, string>, result: string): (s: string)
    requires result in m.Values
    ensures s in m && m[s] == result
  {
    var s :| s in m && m[s] == result;
    s
  }

  predicate Satisfies(engine: Engine, ps: seq<Predicate>, row: Row) {
    forall i :: 0 <= i < |ps| ==> ps[i].column in row && engine.holds(ps[i].op, row[ps[i].column], ps[i].value)
  }

  // The rows that satisfy every predicate, in order.
  function Kept(engine: Engine, ps: seq<Predicate>, rows: seq<Row>): seq<Row> {
    if rows == [] then []
    else (if Satisfies(engine, ps, rows[0]) then [rows[0]] else []) + Kept(engine, ps, rows[1..])
  }

  function First(rows: seq<Row>, limit: Option<nat>): seq<Row> {
    if limit.Some? && limit.value < |rows| then rows[..limit.value] else rows
  }

  predicate Complete(rows: seq<Row>, columns: set<string>) {
    forall i :: 0 <= i < |rows| ==> columns <= rows[i].Keys
  }

  // Each result column holds the cell of its source column.
  ghost function Projected(row: Row, m: map<string, string>): Row
    requires m.Keys <= row.Keys
  {
    map t | t in m.Values :: row[SourceOf(m, t)]
  }

  ghost function Answer(engine: Engine, q: Select, table: seq<Row>): seq<Row>
    requires Complete(table, q.projection.Keys)
  {
    var rows := Chosen(engine, q, table);
    seq(|rows|, i requires 0 <= i < |rows| => Projected(rows[i], q.projection))
  }

  function Chosen(engine: Engine, q: Select, table: seq<Row>): (r: seq<Row>)
    ensures forall columns :: Complete(table, columns) ==> Complete(r, columns)
  {
    KeptFrom(engine, q.where, table);
    First(Kept(engine, q.where, table), q.limit)
  }

  // Without an order LIMIT may take any rows, as many as it allows.
  ghost predicate MayAnswer(engine: Engine, q: Select, table: seq<Row>, rows: seq<Row>)
    requires Complete(table, q.projection.Keys)
  {
    var all := Answer(engine, q.(limit := None), table);
    multiset(rows) <= multiset(all) && |rows| == |First(all, q.limit)|
  }

  // The first rows are one such answer.
  lemma AnswerMayAnswer(engine: Engine, q: Select, table: seq<Row>)
    requires Complete(table, q.projection.Keys)
    ensures Answer(engine, q, table) == First(Answer(engine, q.(limit := None), table), q.limit)
    ensures MayAnswer(engine, q, table, Answer(engine, q, table))
  {
    var all, some := Answer(engine, q.(limit := None), table), Answer(engine, q, table);
    assert some == First(all, q.limit);
    assert all == some + all[|some|..];
  }

  lemma ProjectedMeans(row: Row, m: map<string, string>)
    requires m.Keys <= row.Keys && OneToOne(m)
    ensures Projected(row, m).Keys == m.Values
    ensures forall s :: s in m ==> m[s] in m.Values && Projected(row, m)[m[s]] == row[s]
  {
  }

  lemma {:induction false} KeptFrom(engine: Engine, ps: seq<Predicate>, rows: seq<Row>)
    ensures |Kept(engine, ps, rows)| <= |rows|
    ensures forall columns :: Complete(rows, columns) ==> Complete(Kept(engine, ps, rows), columns)
    ensures forall i :: 0 <= i < |Kept(engine, ps, rows)| ==> Satisfies(engine, ps, Kept(engine, ps, rows)[i])
  {
    if rows != [] {
      KeptFrom(engine, ps, rows[1..]);
      assert forall columns :: Complete(rows, columns) ==> Complete(rows[1..], columns);
    }
  }

  // ---------------------------------------------------------------- transform steps

  datatype Step =
    | Filter(condition: Predicate)
    | Limit(count: nat)
    | SelectColumns(columns: seq<string>)
    | RenameColumns(renames: map<string, string>)

  function Narrowed(row: Row, columns: seq<string>): Row {
    map c | c in columns && c in row :: row[c]
  }

  function NewName(renames: map<string, string>, column: string): string {
    if column in renames then renames[column] else column
  }

  // All columns are renamed at once; when two get one name, either may survive.
  ghost function Renamed(row: Row, renames: map<string, string>): Row {
    var names := map c | c in row.Keys :: NewName(renames, c);
    map t | t in names.Values :: row[SourceOf(names, t)]
  }

  ghost function Apply(engine: Engine, step: Step, rows: seq<Row>): seq<Row> {
    match step
    case Filter(p) => Kept(engine, [p], rows)
    case Limit(count) => First(rows, Some(count))
    case SelectColumns(columns) => Scan(rows, columns)
    case RenameColumns(renames) => seq(|rows|, i requires 0 <= i < |rows| => Renamed(rows[i], renames))
  }

  ghost function Run(engine: Engine, steps: seq<Step>, rows: seq<Row>): seq<Row> {
    if steps == [] then rows else Run(engine, steps[1..], Apply(engine, steps[0], rows))
  }

  // Reading some columns of a table.
  function Scan(rows: seq<Row>, columns: seq<string>): seq<Row> {
    seq(|rows|, i requires 0 <= i < |rows| => Narrowed(rows[i], columns))
  }

  function FilterSteps(ps: seq<Predicate>): seq<Step> {
    seq(|ps|, i requires 0 <= i < |ps| => Filter(ps[i]))
  }

  function LimitSteps(limit: Option<nat>): seq<Step> {
    if limit.Some? then [Limit(limit.value)] else []
  }

  lemma {:induction false} RunConcat(engine: Engine, a: seq<Step>, b: seq<Step>, rows: seq<Row>)
    ensures Run(engine, a + b, rows) == Run(engine, b, Run(engine, a, rows))
    decreases |a|
  {
    if a == [] {
      assert a + b == b;
    } else {
      assert (a + b)[1..] == a[1..] + b;
      RunConcat(engine, a[1..], b, Apply(engine, a[0], rows));
    }
  }

  // Filtering twice is filtering by both conditions.
  lemma {:induction false} KeptTwice(engine: Engine, ps: seq<Predicate>, qs: seq<Predicate>, rows: seq<Row>)
    ensures Kept(engine, qs, Kept(engine, ps, rows)) == Kept(engine, ps + qs, rows)
  {
    if rows != [] {
      var row, rest := rows[0], Kept(engine, ps, rows[1..]);
      KeptTwice(engine, ps, qs, rows[1..]);
      BothSatisfied(engine, ps, qs, row);
      if Satisfies(engine, ps, row) {
        assert ([row] + rest)[1..] == rest;
      } else {
        assert [] + rest == rest;
      }
    }
  }

  lemma BothSatisfied(engine: Engine, ps: seq<Predicate>, qs: seq<Predicate>, row: Row)
    ensures Satisfies(engine, ps + qs, row) <==> Satisfies(engine, ps, row) && Satisfies(engine, qs, row)
  {
    if Satisfies(engine, ps + qs, row) {
      forall i | 0 <= i < |ps| ensures (ps + qs)[i] == ps[i] {}
      forall i | 0 <= i < |qs| ensures (ps + qs)[|ps| + i] == qs[i] {}
    }
  }

  lemma {:induction false} KeptAll(engine: Engine, rows: seq<Row>)
    ensures Kept(engine, [], rows) == rows
  {
    if rows != [] {
      KeptAll(engine, rows[1..]);
    }
  }

  // A chain of filter steps is one filter by all their predicates.
  lemma {:induction false} FilterRun(engine: Engine, ps: seq<Predicate>, rows: seq<Row>)
    ensures Run(engine, FilterSteps(ps), rows) == Kept(engine, ps, rows)
    decreases |ps|
  {
    if ps == [] {
      KeptAll(engine, rows);
    } else {
      assert FilterSteps(ps)[1..] == FilterSteps(ps[1..]);
      FilterRun(engine, ps[1..], Kept(engine, [ps[0]], rows));
      KeptTwice(engine, [ps[0]], ps[1..], rows);
      assert [ps[0]] + ps[1..] == ps;
    }
  }

  // Filters in sequence and then a limit choose what WHERE and LIMIT choose.
  lemma ChoosingRun(engine: Engine, q: Select, rows: seq<Row>)
    ensures Run(engine, FilterSteps(q.where) + LimitSteps(q.limit), rows) == Chosen(engine, q, rows)
  {
    RunConcat(engine, FilterSteps(q.where), LimitSteps(q.limit), rows);
    FilterRun(engine, q.where, rows);
    var kept := Kept(engine, q.where, rows);
    if q.limit.Some? {
      assert [Limit(q.limit.value)][1..] == [];
    }
  }

  // Choosing rows by columns that have been read is choosing them before the read.
  lemma {:induction false} KeptScan(engine: Engine, ps: seq<Predicate>, rows: seq<Row>, columns: seq<string>)
    requires forall i :: 0 <= i < |ps| ==> ps[i].column in columns
    ensures Kept(engine, ps, Scan(rows, columns)) == Scan(Kept(engine, ps, rows), columns)
  {
    if rows != [] {
      KeptScan(engine, ps, rows[1..], columns);
      var row, scanned := rows[0], Scan(rows, columns);
      assert scanned[1..] == Scan(rows[1..], columns);
      assert scanned[0] == Narrowed(row, columns);
      assert Satisfies(engine, ps, scanned[0]) <==> Satisfies(engine, ps, row);
    }
  }

  lemma ChosenScan(engine: Engine, q: Select, rows: seq<Row>, columns: seq<string>)
    requires forall i :: 0 <= i < |q.where| ==> q.where[i].column in columns
    ensures Chosen(engine, q, Scan(rows, columns)) == Scan(Chosen(engine, q, rows), columns)
  {
    KeptScan(engine, q.where, rows, columns);
  }

  // ---------------------------------------------------------------- choosing from parts

  lemma {:induction false} KeptConcat(engine: Engine, ps: seq<Predicate>, a: seq<Row>, b: seq<Row>)
    ensures Kept(engine, ps, a + b) == Kept(engine, ps, a) + Kept(engine, ps, b)
  {
    if a == [] {
      assert a + b == b;
    } else {
      KeptConcat(engine, ps, a[1..], b);
      assert (a + b)[1..] == a[1..] + b;
    }
  }

  lemma {:induction false} AllOrNone(engine: Engine, ps: seq<Predicate>, rows: seq<Row>)
    ensures (forall i :: 0 <= i < |rows| ==> Satisfies(engine, ps, rows[i])) ==> Kept(engine, ps, rows) == rows
    ensures (forall i :: 0 <= i < |rows| ==> !Satisfies(engine, ps, rows[i])) ==> Kept(engine, ps, rows) == []
  {
    if rows != [] {
      AllOrNone(engine, ps, rows[1..]);
    }
  }
}
