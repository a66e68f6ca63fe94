/**
 Keeping one row per entity, in whatever order and whichever row of it, and what that does to a
 class-balanced sample drawn afterwards.
 */
module EntityGrain {
  import opened Wrappers
  import opened Relational
  import opened ClassBalance

  predicate SeenIn(rows: seq<Row>, key: string, row: Row) {
    exists i :: 0 <= i < |rows| && key in rows[i] && key in row && rows[i][key] == row[key]
  }

  predicate EntitiesDiffer(rows: seq<Row>, key: string) {
    forall i, j :: 0 <= i < j < |rows| && key in rows[i] && key in rows[j] ==> rows[i][key] != rows[j][key]
  }

  predicate Keyed(rows: seq<Row>, key: string) {
    forall i :: 0 <= i < |rows| ==> key in rows[i]
  }

  // Grouping by the key and taking a row of each group: exactly one of the rows of each entity,
  // any of them, in any order.
  predicate OnePerEntity(rows: seq<Row>, key: string, few: seq<Row>) {
    && (forall i :: 0 <= i < |few| ==> few[i] in rows)
    && EntitiesDiffer(few, key)
    && (forall i :: 0 <= i < |rows| ==> SeenIn(few, key, rows[i]))
  }

  // The first row of each entity, in the order of the read, is one such choice.
  function FirstPerEntity(rows: seq<Row>, key: string): seq<Row> {
    if rows == [] then []
    else
      var front, last := rows[..|rows| - 1], rows[|rows| - 1];
      FirstPerEntity(front, key) + if SeenIn(front, key, last) then [] else [last]
  }

  lemma {:induction false} FirstRowsQualify(rows: seq<Row>, key: string)
    requires Keyed(rows, key)
    ensures OnePerEntity(rows, key, FirstPerEntity(rows, key))
  {
    if rows != [] {
      var front, last := rows[..|rows| - 1], rows[|rows| - 1];
      FirstRowsQualify(front, key);
      assert rows == front + [last];
      OneMoreRow(front, key, FirstPerEntity(front, key), last);
    }
  }

  lemma OneMoreRow(front: seq<Row>, key: string, few: seq<Row>, last: Row)
    requires Keyed(front, key) && key in last && OnePerEntity(front, key, few)
    ensures OnePerEntity(front + [last], key, few + if SeenIn(front, key, last) then [] else [last])
  {
    var rows, more := front + [last], few + if SeenIn(front, key, last) then [] else [last];
    forall i | 0 <= i < |few| ensures more[i] == few[i] && few[i] in rows && key in few[i] {
      assert few[i] in front;
    }
    forall i | 0 <= i < |rows| ensures SeenIn(more, key, rows[i]) {
      if i < |front| {
        var k :| 0 <= k < |few| && key in few[k] && few[k][key] == front[i][key];
        assert more[k] == few[k];
      } else if SeenIn(front, key, last) {
        var j :| 0 <= j < |front| && key in front[j] && front[j][key] == last[key];
        var k :| 0 <= k < |few| && key in few[k] && few[k][key] == front[j][key];
        assert more[k] == few[k];
      } else {
        assert more[|few|] == last;
      }
    }
    if !SeenIn(front, key, last) {
      forall k | 0 <= k < |few| ensures few[k][key] != last[key] {
        assert few[k] in front;
        var j :| 0 <= j < |front| && front[j] == few[k];
      }
    }
  }

  // ---------------------------------------------------------------- what is left

  lemma {:induction false} NoRowTwice(rows: seq<Row>, x: Row)
    requires forall i, j :: 0 <= i < j < |rows| ==> rows[i] != rows[j]
    ensures multiset(rows)[x] == if x in rows then 1 else 0
  {
    if rows != [] {
      var front, last := rows[..|rows| - 1], rows[|rows| - 1];
      NoRowTwice(front, x);
      assert rows == front + [last];
    }
  }

  lemma DifferCounts(rows: seq<Row>, key: string, x: Row)
    requires Keyed(rows, key) && EntitiesDiffer(rows, key)
    ensures multiset(rows)[x] == if x in rows then 1 else 0
  {
    NoRowTwice(rows, x);
  }

  lemma FewKeyed(rows: seq<Row>, key: string, few: seq<Row>)
    requires Keyed(rows, key) && OnePerEntity(rows, key, few)
    ensures Keyed(few, key)
  {
    forall i | 0 <= i < |few| ensures key in few[i] {
      assert few[i] in rows;
    }
  }

  // The reduction adds nothing.
  lemma FewWithin(rows: seq<Row>, key: string, few: seq<Row>)
    requires Keyed(rows, key) && OnePerEntity(rows, key, few)
    ensures multiset(few) <= multiset(rows) && |few| <= |rows|
    ensures |few| == |rows| ==> multiset(few) == multiset(rows)
  {
    FewKeyed(rows, key, few);
    forall x ensures multiset(few)[x] <= multiset(rows)[x] {
      DifferCounts(few, key, x);
      if x in few {
        assert x in rows && x in multiset(rows);
      }
    }
    var rest := multiset(rows) - multiset(few);
    assert multiset(rows) == multiset(few) + rest;
    assert |multiset(rows)| == |few| + |rest|;
  }

  lemma TwiceCounted(rows: seq<Row>, i: nat, j: nat)
    requires i < j < |rows| && rows[i] == rows[j]
    ensures multiset(rows)[rows[i]] >= 2
  {
    var a, b := rows[..j], rows[j..];
    assert rows == a + b && a[i] == rows[i] && b[0] == rows[i];
    assert rows[i] in multiset(a) && rows[i] in multiset(b);
  }

  // A permutation of rows of different entities has different entities.
  lemma PermutationDiffers(rows: seq<Row>, key: string, few: seq<Row>)
    requires Keyed(few, key) && EntitiesDiffer(few, key) && multiset(few) == multiset(rows)
    ensures EntitiesDiffer(rows, key)
  {
    forall i, j | 0 <= i < j < |rows| && key in rows[i] && key in rows[j] ensures rows[i][key] != rows[j][key] {
      var x, y := rows[i], rows[j];
      if x == y {
        TwiceCounted(rows, i, j);
        DifferCounts(few, key, x);
      } else {
        assert x in multiset(rows) && y in multiset(rows);
        assert x in few && y in few;
        var p :| 0 <= p < |few| && few[p] == x;
        var q :| 0 <= q < |few| && few[q] == y;
        assert p < q || q < p;
      }
    }
  }

  // Rows of different entities are all kept.
  lemma DifferKept(rows: seq<Row>, key: string, few: seq<Row>)
    requires Keyed(rows, key) && OnePerEntity(rows, key, few) && EntitiesDiffer(rows, key)
    ensures multiset(few) == multiset(rows)
  {
    FewKeyed(rows, key, few);
    forall x ensures multiset(few)[x] == multiset(rows)[x] {
      DifferCounts(few, key, x);
      DifferCounts(rows, key, x);
      if x in rows {
        var i :| 0 <= i < |rows| && rows[i] == x;
        var k :| 0 <= k < |few| && key in few[k] && few[k][key] == x[key];
        assert few[k] in rows;
        var j :| 0 <= j < |rows| && rows[j] == few[k];
        assert i == j;
      }
    }
  }

  // The row count drops exactly when some entity appears twice; otherwise nothing is lost.
  lemma DuplicatesDetected(rows: seq<Row>, key: string, few: seq<Row>)
    requires Keyed(rows, key) && OnePerEntity(rows, key, few)
    ensures |few| == |rows| <==> EntitiesDiffer(rows, key)
    ensures multiset(few) == multiset(rows) <==> EntitiesDiffer(rows, key)
  {
    FewKeyed(rows, key, few);
    FewWithin(rows, key, few);
    if EntitiesDiffer(rows, key) {
      DifferKept(rows, key, few);
      assert |multiset(few)| == |multiset(rows)|;
    }
    if multiset(few) == multiset(rows) {
      PermutationDiffers(rows, key, few);
    }
  }

  // ---------------------------------------------------------------- sampling what is left

  lemma {:induction false} KeptCounts(engine: Engine, ps: seq<Predicate>, rows: seq<Row>, x: Row)
    ensures multiset(Kept(engine, ps, rows))[x] == if Satisfies(engine, ps, x) then multiset(rows)[x] else 0
  {
    if rows != [] {
      KeptCounts(engine, ps, rows[1..], x);
      assert rows == [rows[0]] + rows[1..];
    }
  }

  lemma KeptWithin(engine: Engine, ps: seq<Predicate>, few: seq<Row>, rows: seq<Row>)
    requires multiset(few) <= multiset(rows)
    ensures multiset(Kept(engine, ps, few)) <= multiset(Kept(engine, ps, rows))
    ensures |Kept(engine, ps, few)| <= |Kept(engine, ps, rows)|
  {
    hide Satisfies, Kept;
    forall x ensures multiset(Kept(engine, ps, few))[x] <= multiset(Kept(engine, ps, rows))[x] {
      KeptCounts(engine, ps, few, x);
      KeptCounts(engine, ps, rows, x);
    }
    var a, b := Kept(engine, ps, few), Kept(engine, ps, rows);
    assert multiset(b) == multiset(a) + (multiset(b) - multiset(a));
    assert |multiset(b)| == |a| + |multiset(b) - multiset(a)|;
  }

  // What is left of a class fills its quota, or is all there was of it.
  predicate LeavesEnough(engine: Engine, target: string, q: Quota, rows: seq<Row>, few: seq<Row>) {
    || q.count <= InClass(engine, target, q.value, few)
    || InClass(engine, target, q.value, few) == InClass(engine, target, q.value, rows)
  }

  predicate AllLeftEnough(engine: Engine, target: string, quotas: seq<Quota>, rows: seq<Row>, few: seq<Row>) {
    forall i :: 0 <= i < |quotas| ==> LeavesEnough(engine, target, quotas[i], rows, few)
  }

  // One quota on whatever rows are left: rows of its class, from the read, each entity once, and
  // as many as it would take of the whole read exactly when enough are left.
  lemma BranchOfFew(engine: Engine, target: string, q: Quota, rows: seq<Row>, key: string, few: seq<Row>)
    requires Keyed(rows, key) && OnePerEntity(rows, key, few)
    ensures
      var branch := SampleOne(engine, target, q, few);
      && multiset(branch) <= multiset(Kept(engine, Equals(target, q.value), rows))
      && (forall i :: 0 <= i < |branch| ==> branch[i] in few && Satisfies(engine, Equals(target, q.value), branch[i]))
      && EntitiesDiffer(branch, key)
      && (|branch| == Min(q.count, InClass(engine, target, q.value, rows)) <==> LeavesEnough(engine, target, q, rows, few))
  {
    hide Satisfies, Kept, OnePerEntity, Keyed, SeenIn;
    var kept, branch := Kept(engine, Equals(target, q.value), few), SampleOne(engine, target, q, few);
    FewWithin(rows, key, few);
    KeptWithin(engine, Equals(target, q.value), few, rows);
    KeptFrom(engine, Equals(target, q.value), few);
    assert kept == branch + kept[|branch|..];
    FewDiffer(rows, key, few);
    KeptDiffer(engine, Equals(target, q.value), few, key);
    forall i | 0 <= i < |branch| ensures branch[i] in few {
      assert branch[i] == kept[i];
      KeptMember(engine, Equals(target, q.value), few, i);
    }
  }

  lemma FewDiffer(rows: seq<Row>, key: string, few: seq<Row>)
    requires OnePerEntity(rows, key, few)
    ensures EntitiesDiffer(few, key)
  {
  }

  lemma {:induction false} KeptMember(engine: Engine, ps: seq<Predicate>, rows: seq<Row>, i: nat)
    requires i < |Kept(engine, ps, rows)|
    ensures Kept(engine, ps, rows)[i] in rows
  {
    var head := if Satisfies(engine, ps, rows[0]) then 1 else 0;
    if i >= head {
      KeptMember(engine, ps, rows[1..], i - head);
      assert Kept(engine, ps, rows)[i] == Kept(engine, ps, rows[1..])[i - head];
    }
  }

  lemma {:induction false} KeptDiffer(engine: Engine, ps: seq<Predicate>, rows: seq<Row>, key: string)
    requires EntitiesDiffer(rows, key)
    ensures EntitiesDiffer(Kept(engine, ps, rows), key)
  {
    hide Satisfies;
    if rows != [] {
      var rest := Kept(engine, ps, rows[1..]);
      assert EntitiesDiffer(rows[1..], key) by {
        forall i | 0 <= i < |rows| - 1 ensures rows[1..][i] == rows[i + 1] {}
      }
      KeptDiffer(engine, ps, rows[1..], key);
      forall i | 0 <= i < |rest| && key in rest[i] && key in rows[0] ensures rest[i][key] != rows[0][key] {
        KeptMember(engine, ps, rows[1..], i);
        var j :| 0 <= j < |rows[1..]| && rows[1..][j] == rest[i];
        assert rows[j + 1] == rest[i];
      }
    }
  }

  // Of classes the engine tells apart, no entity is sampled twice.
  lemma {:induction false} NoEntityTwice(engine: Engine, target: string, quotas: seq<Quota>, rows: seq<Row>, key: string, few: seq<Row>)
    requires EqualityOk(engine) && Apart(engine, quotas) && Keyed(rows, key) && OnePerEntity(rows, key, few)
    ensures EntitiesDiffer(Sampled(engine, target, quotas, few), key)
    ensures forall i :: 0 <= i < |Sampled(engine, target, quotas, few)| ==> FromClasses(engine, target, quotas, few, Sampled(engine, target, quotas, few)[i])
  {
    hide EqualityOk, Satisfies, SampleOne, OnePerEntity, Keyed, EntitiesDiffer;
    if quotas == [] {
      NothingSampled(key);
    } else {
      var front, last := quotas[..|quotas| - 1], quotas[|quotas| - 1];
      var a, b := Sampled(engine, target, front, few), SampleOne(engine, target, last, few);
      NoEntityTwice(engine, target, front, rows, key, few);
      BranchOfFew(engine, target, last, rows, key, few);
      FewDiffer(rows, key, few);
      forall i | 0 <= i < |a| ensures FromClasses(engine, target, quotas, few, a[i]) {
        var k :| 0 <= k < |front| && Satisfies(engine, Equals(target, front[k].value), a[i]);
        assert quotas[k] == front[k];
      }
      forall i | 0 <= i < |b| ensures FromClasses(engine, target, quotas, few, b[i]) {
        assert quotas[|quotas| - 1] == last;
      }
      forall i, j | 0 <= i < |a| && 0 <= j < |b| ensures a[i] != b[j] {
        var k :| 0 <= k < |front| && Satisfies(engine, Equals(target, front[k].value), a[i]);
        assert quotas[k] == front[k];
        SameClass(engine, target, front[k].value, last.value, a[i]);
      }
      PartsDiffer(few, key, a, b);
    }
  }

  lemma NothingSampled(key: string)
    ensures EntitiesDiffer([], key)
  {
  }

  predicate FromClasses(engine: Engine, target: string, quotas: seq<Quota>, few: seq<Row>, row: Row) {
    row in few && exists k :: 0 <= k < |quotas| && Satisfies(engine, Equals(target, quotas[k].value), row)
  }

  lemma PartsDiffer(few: seq<Row>, key: string, a: seq<Row>, b: seq<Row>)
    requires EntitiesDiffer(few, key) && EntitiesDiffer(a, key) && EntitiesDiffer(b, key)
    requires (forall i :: 0 <= i < |a| ==> a[i] in few) && (forall j :: 0 <= j < |b| ==> b[j] in few)
    requires forall i, j :: 0 <= i < |a| && 0 <= j < |b| ==> a[i] != b[j]
    ensures EntitiesDiffer(a + b, key)
  {
    forall i, j | 0 <= i < |a| && 0 <= j < |b| && key in a[i] && key in b[j] ensures a[i][key] != b[j][key] {
      var p :| 0 <= p < |few| && few[p] == a[i];
      var q :| 0 <= q < |few| && few[q] == b[j];
      assert p < q || q < p;
    }
  }

  // Every class appears in a sample of `given` as often as its quota and `rows` allow.
  predicate SharesMet(engine: Engine, target: string, quotas: seq<Quota>, given: seq<Row>, rows: seq<Row>) {
    forall i :: 0 <= i < |quotas| ==>
      InClass(engine, target, quotas[i].value, Sampled(engine, target, quotas, given)) ==
        Min(quotas[i].count, InClass(engine, target, quotas[i].value, rows))
  }

  // Whatever rows are left, every class the engine tells apart gets its share of the whole read
  // exactly when enough of each is left.
  lemma SharesAfterReduction(engine: Engine, target: string, quotas: seq<Quota>, rows: seq<Row>, key: string, few: seq<Row>)
    requires EqualityOk(engine) && SelfEqual(engine, quotas) && Apart(engine, quotas)
    requires Keyed(rows, key) && OnePerEntity(rows, key, few)
    ensures SharesMet(engine, target, quotas, few, rows) <==> AllLeftEnough(engine, target, quotas, rows, few)
  {
    hide EqualityOk, Kept, Sampled, OnePerEntity, Keyed;
    FewWithin(rows, key, few);
    forall i | 0 <= i < |quotas|
      ensures InClass(engine, target, quotas[i].value, Sampled(engine, target, quotas, few)) ==
                Min(quotas[i].count, InClass(engine, target, quotas[i].value, few))
      ensures InClass(engine, target, quotas[i].value, few) <= InClass(engine, target, quotas[i].value, rows)
    {
      CountInSample(engine, target, quotas, few, quotas[i].value);
      KeptWithin(engine, Equals(target, quotas[i].value), few, rows);
    }
  }

  // Without a repeated entity all of every class is left.
  lemma DifferLeavesAll(engine: Engine, target: string, quotas: seq<Quota>, rows: seq<Row>, key: string, few: seq<Row>)
    requires Keyed(rows, key) && OnePerEntity(rows, key, few) && EntitiesDiffer(rows, key)
    ensures AllLeftEnough(engine, target, quotas, rows, few)
  {
    hide Kept, OnePerEntity, Keyed;
    DifferKept(rows, key, few);
    forall i | 0 <= i < |quotas| ensures LeavesEnough(engine, target, quotas[i], rows, few) {
      KeptWithin(engine, Equals(target, quotas[i].value), few, rows);
      KeptWithin(engine, Equals(target, quotas[i].value), rows, few);
    }
  }

  // The sample is as large as the whole read's exactly when enough of every class is left.
  lemma {:induction false} ExpectedIff(engine: Engine, target: string, quotas: seq<Quota>, rows: seq<Row>, few: seq<Row>)
    requires multiset(few) <= multiset(rows)
    ensures Expected(engine, target, quotas, few) <= Expected(engine, target, quotas, rows)
    ensures Expected(engine, target, quotas, few) == Expected(engine, target, quotas, rows) <==> AllLeftEnough(engine, target, quotas, rows, few)
  {
    hide Kept;
    if quotas != [] {
      var front, last := quotas[..|quotas| - 1], quotas[|quotas| - 1];
      ExpectedIff(engine, target, front, rows, few);
      KeptWithin(engine, Equals(target, last.value), few, rows);
      assert forall i :: 0 <= i < |front| ==> front[i] == quotas[i];
      assert AllLeftEnough(engine, target, quotas, rows, few) <==>
        AllLeftEnough(engine, target, front, rows, few) && LeavesEnough(engine, target, last, rows, few);
    }
  }
}
