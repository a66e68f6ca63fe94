/**
 The relation graph of a request: which tables and relations are accepted, and that what is
 accepted is a tree grown from the primary table.
 */
module Topology {
  import opened Wrappers

  datatype Table = Table(alias: string, database: string, name: string, role: string)

  datatype Condition = Condition(leftColumn: string, rightColumn: string)

  // An alias that is not a string is `None`.
  datatype Relation = Relation(left: Option<string>, right: Option<string>, joinType: string, on: seq<Condition>)

  // ---------------------------------------------------------------- what is accepted

  predicate TableOk(t: Table) {
    Text(t.alias) && Text(t.database) && Text(t.name) && t.role in {"PRIMARY", "JOINED"}
  }

  predicate AliasesDiffer(ts: seq<Table>) {
    forall i, j :: 0 <= i < j < |ts| ==> ts[i].alias != ts[j].alias
  }

  predicate TablesOk(ts: seq<Table>) {
    && (forall i :: 0 <= i < |ts| ==> TableOk(ts[i]))
    && AliasesDiffer(ts)
    && (forall i, j :: 0 <= i < j < |ts| ==> !(ts[i].role == "PRIMARY" && ts[j].role == "PRIMARY"))
  }

  function Aliases(ts: seq<Table>): set<string> {
    set i | 0 <= i < |ts| :: ts[i].alias
  }

  predicate PrimaryAt(ts: seq<Table>, alias: string) {
    exists i :: 0 <= i < |ts| && ts[i].role == "PRIMARY" && ts[i].alias == alias
  }

  predicate FormOk(r: Relation) {
    && r.left.Some? && r.right.Some?
    && r.joinType in {"INNER", "LEFT"}
    && r.on != [] && forall k :: 0 <= k < |r.on| ==> Text(r.on[k].leftColumn) && Text(r.on[k].rightColumn)
  }

  // The primary table and what the relations add.
  function Connected(primary: string, rs: seq<Relation>): set<string> {
    {primary} + set i | 0 <= i < |rs| && rs[i].right.Some? :: rs[i].right.value
  }

  // Each relation leaves the part already connected for a declared table outside it.
  predicate Expands(primary: string, aliases: set<string>, rs: seq<Relation>) {
    forall i :: 0 <= i < |rs| ==>
      && FormOk(rs[i])
      && rs[i].left.value in Connected(primary, rs[..i])
      && rs[i].right.value in aliases && rs[i].right.value !in Connected(primary, rs[..i])
  }

  predicate Accepted(ts: seq<Table>, rs: seq<Relation>, primary: string) {
    && TablesOk(ts) && PrimaryAt(ts, primary)
    && Expands(primary, Aliases(ts), rs)
    && Connected(primary, rs) == Aliases(ts)
  }

  lemma ConnectedGrows(primary: string, rs: seq<Relation>, i: nat)
    requires i < |rs| && rs[i].right.Some?
    ensures Connected(primary, rs[..i + 1]) == Connected(primary, rs[..i]) + {rs[i].right.value}
  {
    assert rs[..i + 1] == rs[..i] + [rs[i]];
  }

  lemma ExpandsPrefix(primary: string, aliases: set<string>, rs: seq<Relation>, n: nat)
    requires n <= |rs| && Expands(primary, aliases, rs)
    ensures Expands(primary, aliases, rs[..n])
  {
    forall i | 0 <= i < n ensures rs[..n][..i] == rs[..i] && rs[..n][i] == rs[i] {}
  }

  lemma ExpandsStep(primary: string, aliases: set<string>, rs: seq<Relation>, i: nat)
    requires i < |rs| && Expands(primary, aliases, rs[..i])
    ensures Expands(primary, aliases, rs[..i + 1]) <==>
      && FormOk(rs[i]) && rs[i].left.value in Connected(primary, rs[..i])
      && rs[i].right.value in aliases && rs[i].right.value !in Connected(primary, rs[..i])
  {
    hide FormOk, Connected;
    var longer := rs[..i + 1];
    forall k | 0 <= k <= i ensures longer[..k] == rs[..k] && longer[k] == rs[k] {}
    forall k | 0 <= k < i ensures rs[..i][..k] == rs[..k] && rs[..i][k] == rs[k] {}
  }

  // ---------------------------------------------------------------- checking

  lemma TableMeans(t: Table)
    ensures TableOk(t) <==> Text(t.alias) && Text(t.database) && Text(t.name) && (t.role == "PRIMARY" || t.role == "JOINED")
  {
  }

  method ReadTables(ts: seq<Table>) returns (aliases: Option<set<string>>, primary: Option<string>)
    ensures aliases.Some? <==> TablesOk(ts)
    ensures aliases.Some? ==> aliases.value == Aliases(ts)
    ensures aliases.Some? ==> (primary.Some? <==> exists p :: PrimaryAt(ts, p)) && (primary.Some? ==> PrimaryAt(ts, primary.value))
  {
    hide TableOk;
    var known: set<string> := {};
    primary := None;
    for i := 0 to |ts|
      invariant TablesOk(ts[..i]) && known == Aliases(ts[..i])
      invariant primary.None? ==> forall k :: 0 <= k < i ==> ts[k].role != "PRIMARY"
      invariant primary.Some? ==> exists k :: 0 <= k < i && ts[k].role == "PRIMARY" && ts[k].alias == primary.value
    {
      var table := ts[i];
      TableMeans(table);
      if !Text(table.alias) || table.alias in known || !Text(table.database) || !Text(table.name) {
        return None, primary;
      }
      if table.role != "PRIMARY" && table.role != "JOINED" {
        return None, primary;
      }
      if table.role == "PRIMARY" {
        if primary.Some? {
          return None, primary;
        }
        primary := Some(table.alias);
      }
      assert ts[..i + 1] == ts[..i] + [table];
      assert forall k :: 0 <= k < i ==> ts[..i][k].alias in known;
      known := known + {table.alias};
    }
    assert ts[..|ts|] == ts;
    assert primary.Some? ==> PrimaryAt(ts, primary.value);
    aliases := Some(known);
  }

  // The join type and the columns of a relation between two aliases.
  method CheckForm(r: Relation) returns (ok: bool)
    requires r.left.Some? && r.right.Some?
    ensures ok <==> FormOk(r)
  {
    if (r.joinType != "INNER" && r.joinType != "LEFT") || r.on == [] {
      return false;
    }
    for k := 0 to |r.on|
      invariant forall j :: 0 <= j < k ==> Text(r.on[j].leftColumn) && Text(r.on[j].rightColumn)
    {
      if !Text(r.on[k].leftColumn) || !Text(r.on[k].rightColumn) {
        return false;
      }
    }
    ok := true;
  }

  // Accepts exactly the requests whose relations grow from the primary table to all the others.
  method CheckTopology(ts: seq<Table>, rs: seq<Relation>) returns (aliases: Option<set<string>>)
    ensures aliases.Some? <==> ts != [] && exists p :: Accepted(ts, rs, p)
    ensures aliases.Some? ==> aliases.value == Aliases(ts)
  {
    hide TablesOk, Aliases, FormOk, PrimaryAt, Connected, Expands;
    if ts == [] {
      return None;
    }
    var known, primary := ReadTables(ts);
    if known.None? || primary.None? {
      return None;
    }
    OnePrimary(ts, primary.value);
    Start(primary.value, known.value, rs);
    if |known.value| > 1 && rs == [] {
      SingleConnected(primary.value, known.value);
      return None;
    }
    var connected := {primary.value};
    for i := 0 to |rs|
      invariant Expands(primary.value, known.value, rs[..i]) && connected == Connected(primary.value, rs[..i])
    {
      var r := rs[i];
      ExpandsStep(primary.value, known.value, rs, i);
      if Expands(primary.value, known.value, rs) {
        ExpandsPrefix(primary.value, known.value, rs, i + 1);
      }
      HasAliases(r);
      if r.left.None? || r.right.None? || r.left.value !in connected || r.right.value !in known.value || r.right.value in connected {
        return None;
      }
      var formed := CheckForm(r);
      if !formed {
        return None;
      }
      ConnectedGrows(primary.value, rs, i);
      connected := connected + {r.right.value};
    }
    assert rs[..|rs|] == rs;
    if connected != known.value {
      return None;
    }
    assert Accepted(ts, rs, primary.value);
    aliases := known;
  }

  lemma HasAliases(r: Relation)
    ensures FormOk(r) ==> r.left.Some? && r.right.Some?
  {
  }

  lemma OnePrimary(ts: seq<Table>, primary: string)
    requires TablesOk(ts) && PrimaryAt(ts, primary)
    ensures forall p :: PrimaryAt(ts, p) ==> p == primary
  {
  }

  lemma Start(primary: string, aliases: set<string>, rs: seq<Relation>)
    ensures Expands(primary, aliases, rs[..0]) && Connected(primary, rs[..0]) == {primary}
    ensures Connected(primary, []) == {primary}
  {
  }

  lemma SingleConnected(primary: string, aliases: set<string>)
    requires |aliases| > 1
    ensures Connected(primary, []) != aliases
  {
    assert Connected(primary, []) == {primary};
  }

  // ---------------------------------------------------------------- the tree

  predicate Joins(r: Relation, left: string, right: string) {
    r.left == Some(left) && r.right == Some(right)
  }

  predicate Edge(rs: seq<Relation>, left: string, right: string) {
    exists k :: 0 <= k < |rs| && Joins(rs[k], left, right)
  }

  // A walk along relations from the primary table.
  predicate Path(primary: string, rs: seq<Relation>, p: seq<string>) {
    p != [] && p[0] == primary && forall i :: 0 <= i < |p| - 1 ==> Edge(rs, p[i], p[i + 1])
  }

  predicate Reaches(primary: string, rs: seq<Relation>, p: seq<string>, alias: string) {
    Path(primary, rs, p) && p[|p| - 1] == alias
  }

  lemma {:induction false} ConnectedReachable(primary: string, aliases: set<string>, rs: seq<Relation>, alias: string) returns (p: seq<string>)
    requires Expands(primary, aliases, rs) && alias in Connected(primary, rs)
    ensures Reaches(primary, rs, p, alias)
    decreases |rs|
  {
    if alias == primary {
      p := [primary];
    } else {
      var i :| 0 <= i < |rs| && rs[i].right == Some(alias);
      var front := rs[..i];
      ExpandsPrefix(primary, aliases, rs, i);
      var q := ConnectedReachable(primary, aliases, front, rs[i].left.value);
      p := q + [alias];
      forall k | 0 <= k < |p| - 1 ensures Edge(rs, p[k], p[k + 1]) {
        if k < |q| - 1 {
          assert Edge(front, q[k], q[k + 1]);
          var m :| 0 <= m < |front| && Joins(front[m], q[k], q[k + 1]);
          assert Joins(rs[m], p[k], p[k + 1]);
        } else {
          assert Joins(rs[i], p[k], p[k + 1]);
        }
      }
    }
  }

  lemma {:induction false} ConnectedCount(primary: string, aliases: set<string>, rs: seq<Relation>)
    requires Expands(primary, aliases, rs)
    ensures |Connected(primary, rs)| == |rs| + 1
    decreases |rs|
  {
    if rs == [] {
      Start(primary, aliases, rs);
    } else {
      var n := |rs| - 1;
      ExpandsPrefix(primary, aliases, rs, n);
      ConnectedCount(primary, aliases, rs[..n]);
      ConnectedGrows(primary, rs, n);
      assert rs[..n + 1] == rs;
    }
  }

  // No table is joined twice, and the primary table never.
  lemma OneParent(primary: string, aliases: set<string>, rs: seq<Relation>, i: nat, j: nat)
    requires Expands(primary, aliases, rs) && i < j < |rs|
    ensures rs[i].right != rs[j].right && rs[i].right != Some(primary) && rs[j].right != Some(primary)
  {
    assert rs[..j][i] == rs[i];
    assert rs[i].right.value in Connected(primary, rs[..j]);
    assert primary in Connected(primary, rs[..i]) && primary in Connected(primary, rs[..j]);
  }

  lemma NotPrimary(primary: string, aliases: set<string>, rs: seq<Relation>, i: nat)
    requires Expands(primary, aliases, rs) && i < |rs|
    ensures rs[i].right != Some(primary)
  {
    assert primary in Connected(primary, rs[..i]);
  }

  // The last step of a walk is some relation.
  lemma LastStep(primary: string, rs: seq<Relation>, p: seq<string>, alias: string) returns (i: nat)
    requires Reaches(primary, rs, p, alias) && |p| > 1
    ensures i < |rs| && Joins(rs[i], p[|p| - 2], alias)
    ensures Reaches(primary, rs, p[..|p| - 1], p[|p| - 2])
  {
    var n := |p| - 1;
    assert Edge(rs, p[n - 1], p[n]);
    i :| 0 <= i < |rs| && Joins(rs[i], p[n - 1], p[n]);
    var front := p[..n];
    forall k | 0 <= k < |front| - 1 ensures Edge(rs, front[k], front[k + 1]) {
      assert Edge(rs, p[k], p[k + 1]);
    }
  }

  // Two walks to one table are the same walk.
  lemma {:induction false} OnePath(primary: string, aliases: set<string>, rs: seq<Relation>, p: seq<string>, q: seq<string>, alias: string)
    requires Expands(primary, aliases, rs)
    requires Reaches(primary, rs, p, alias) && Reaches(primary, rs, q, alias)
    ensures p == q
    decreases |p|
  {
    ReachesMeans(primary, rs, p, alias);
    ReachesMeans(primary, rs, q, alias);
    hide Expands, Reaches;
    if |p| > 1 {
      var i := LastStep(primary, rs, p, alias);
      NotPrimary(primary, aliases, rs, i);
      var j := LastStep(primary, rs, q, alias);
      if i < j {
        OneParent(primary, aliases, rs, i, j);
      } else if j < i {
        OneParent(primary, aliases, rs, j, i);
      }
      OnePath(primary, aliases, rs, p[..|p| - 1], q[..|q| - 1], p[|p| - 2]);
      assert p == p[..|p| - 1] + [alias] && q == q[..|q| - 1] + [alias];
    } else if |q| > 1 {
      var j := LastStep(primary, rs, q, alias);
      NotPrimary(primary, aliases, rs, j);
    }
  }

  lemma ReachesMeans(primary: string, rs: seq<Relation>, p: seq<string>, alias: string)
    requires Reaches(primary, rs, p, alias)
    ensures |p| > 0 && p[0] == primary && p[|p| - 1] == alias
  {
  }

  lemma AliasesWithout(ts: seq<Table>)
    requires ts != [] && AliasesDiffer(ts)
    ensures
      var front, last := ts[..|ts| - 1], ts[|ts| - 1].alias;
      AliasesDiffer(front) && last !in Aliases(front) && Aliases(ts) == Aliases(front) + {last}
  {
    var front, last := ts[..|ts| - 1], ts[|ts| - 1].alias;
    forall i | 0 <= i < |front| ensures front[i] == ts[i] && ts[i].alias != last {}
  }

  lemma {:induction false} AliasCount(ts: seq<Table>)
    requires AliasesDiffer(ts)
    ensures |Aliases(ts)| == |ts|
  {
    hide AliasesDiffer, Aliases;
    if ts == [] {
      NoAliases();
    } else {
      AliasesWithout(ts);
      AliasCount(ts[..|ts| - 1]);
    }
  }

  lemma NoAliases()
    ensures Aliases([]) == {}
  {
  }

  predicate Joined(rs: seq<Relation>, alias: string) {
    exists k :: 0 <= k < |rs| && rs[k].right == Some(alias)
  }

  // Exactly one walk leads to the table.
  ghost predicate OneWalk(primary: string, rs: seq<Relation>, alias: string) {
    && (exists p :: Reaches(primary, rs, p, alias))
    && (forall p, q :: Reaches(primary, rs, p, alias) && Reaches(primary, rs, q, alias) ==> p == q)
  }

  lemma WalkedOnce(primary: string, aliases: set<string>, rs: seq<Relation>, alias: string)
    requires Expands(primary, aliases, rs) && alias in Connected(primary, rs)
    ensures OneWalk(primary, rs, alias)
  {
    hide Expands, Reaches, Connected;
    var p := ConnectedReachable(primary, aliases, rs, alias);
    assert Reaches(primary, rs, p, alias);
    forall p, q | Reaches(primary, rs, p, alias) && Reaches(primary, rs, q, alias) ensures p == q {
      OnePath(primary, aliases, rs, p, q, alias);
    }
  }

  // Each table but the primary is joined by exactly one relation, there is one relation fewer
  // than tables, and exactly one walk leads from the primary to each table.
  lemma AcceptedIsTree(ts: seq<Table>, rs: seq<Relation>, primary: string)
    requires Accepted(ts, rs, primary)
    ensures |rs| == |ts| - 1
    ensures forall alias :: alias in Aliases(ts) ==> (Joined(rs, alias) <==> alias != primary)
    ensures forall k, l :: 0 <= k < l < |rs| ==> rs[k].right != rs[l].right
    ensures forall alias :: alias in Aliases(ts) ==> OneWalk(primary, rs, alias)
  {
    hide Expands, OneWalk, PrimaryAt;
    var aliases := Aliases(ts);
    ConnectedCount(primary, aliases, rs);
    AliasCount(ts);
    forall alias | alias in aliases
      ensures Joined(rs, alias) <==> alias != primary
      ensures OneWalk(primary, rs, alias)
    {
      assert alias in Connected(primary, rs);
      WalkedOnce(primary, aliases, rs, alias);
      if k :| 0 <= k < |rs| && rs[k].right == Some(alias) {
        NotPrimary(primary, aliases, rs, k);
      }
    }
    forall k, l | 0 <= k < l < |rs| ensures rs[k].right != rs[l].right {
      OneParent(primary, aliases, rs, k, l);
    }
  }
}
