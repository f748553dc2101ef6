/** Workspace erasure: the order in which the tables of a wedding are emptied
    (packages/persistence/src/retention.ts, the loop inside `erase`). */
module ErasureOrder {
  import opened Seqs

  type Table = string

  /** One foreign key: rows of `child` point at rows of `parent`. */
  datatype Dependency = Dependency(child: Table, parent: Table)

  datatype Outcome = Erased | DependencyCycle | InvalidTable

  // ---------- the graph ----------

  /** The key that keeps `parent` waiting for `child`: not a self reference, and not the album
      cover, which is cleared beforehand. */
  predicate Blocks(child: Table, parent: Table, deps: seq<Dependency>) {
    && Dependency(child, parent) in deps
    && child != parent
    && !(child == "std_albums" && parent == "std_media_assets")
  }

  ghost predicate IsCycle(p: seq<Table>, tables: seq<Table>, deps: seq<Dependency>) {
    && p != []
    && (forall i :: 0 <= i < |p| ==> p[i] in tables)
    && (forall i :: 0 <= i < |p| - 1 ==> Blocks(p[i + 1], p[i], deps))
    && Blocks(p[0], p[|p| - 1], deps)
  }

  ghost predicate Cyclic(tables: seq<Table>, deps: seq<Dependency>) {
    exists p :: IsCycle(p, tables, deps)
  }

  /** `std_` followed by lower-case letters and underscores. */
  predicate ValidName(t: Table) {
    |t| > 4 && t[..4] == "std_" && forall i :: 4 <= i < |t| ==> 'a' <= t[i] <= 'z' || t[i] == '_'
  }

  /** Nothing that still has rows points at `t`. */
  predicate Ready(t: Table, remaining: seq<Table>, deps: seq<Dependency>) {
    forall child :: child in remaining ==> !Blocks(child, t, deps)
  }

  function Filter(ts: seq<Table>, remaining: seq<Table>, deps: seq<Dependency>): (ready: seq<Table>)
    ensures forall t :: t in ready <==> t in ts && Ready(t, remaining, deps)
  {
    if ts == [] then []
    else (if Ready(ts[0], remaining, deps) then [ts[0]] else []) + Filter(ts[1..], remaining, deps)
  }

  lemma {:induction false} FilterDistinct(ts: seq<Table>, remaining: seq<Table>, deps: seq<Dependency>)
    requires Distinct(ts)
    ensures Distinct(Filter(ts, remaining, deps))
  {
    if ts != [] {
      FilterDistinct(ts[1..], remaining, deps);
      assert ts[0] !in ts[1..];
    }
  }

  function Without(ts: seq<Table>, t: Table): (rest: seq<Table>)
    ensures forall x :: x in rest <==> x in ts && x != t
    ensures |rest| <= |ts| && (t in ts ==> |rest| < |ts|)
  {
    if ts == [] then [] else (if ts[0] == t then [] else [ts[0]]) + Without(ts[1..], t)
  }

  lemma {:induction false} WithoutDistinct(ts: seq<Table>, t: Table)
    requires Distinct(ts)
    ensures Distinct(Without(ts, t))
  {
    if ts != [] {
      WithoutDistinct(ts[1..], t);
      assert ts[0] !in ts[1..];
    }
  }

  // ---------- cycles ----------

  /** When nothing is ready, every remaining table waits for another one: follow the waits
      until a table repeats. */
  lemma StuckHasCycle(remaining: seq<Table>, deps: seq<Dependency>)
    requires remaining != []
    requires forall t :: t in remaining ==> !Ready(t, remaining, deps)
    ensures Cyclic(remaining, deps)
  {
    var n := |Elements(remaining)|;
    var walk := Walk(remaining, deps, n + 1);
    var i, j := Pigeonhole(walk, Elements(remaining));
    var p := walk[i..j];
    forall k | 0 <= k < |p| - 1 ensures Blocks(p[k + 1], p[k], deps) {
      assert Blocks(walk[i + k + 1], walk[i + k], deps);
    }
    assert Blocks(walk[j], walk[j - 1], deps);
    assert IsCycle(p, remaining, deps);
  }

  lemma Blocker(t: Table, remaining: seq<Table>, deps: seq<Dependency>) returns (child: Table)
    requires !Ready(t, remaining, deps)
    ensures child in remaining && Blocks(child, t, deps)
  {
    child :| child in remaining && Blocks(child, t, deps);
  }

  lemma {:induction false} Walk(remaining: seq<Table>, deps: seq<Dependency>, n: nat) returns (walk: seq<Table>)
    requires remaining != []
    requires forall t :: t in remaining ==> !Ready(t, remaining, deps)
    ensures |walk| == n && forall k :: 0 <= k < n ==> walk[k] in remaining
    ensures forall k :: 0 <= k < n - 1 ==> Blocks(walk[k + 1], walk[k], deps)
  {
    if n == 0 {
      walk := [];
    } else if n == 1 {
      walk := [remaining[0]];
    } else {
      var shorter := Walk(remaining, deps, n - 1);
      var child := Blocker(shorter[n - 2], remaining, deps);
      walk := shorter + [child];
      hide Blocks, Ready;
    }
  }

  // ---------- the order ----------

  ghost predicate Before(a: Table, b: Table, order: seq<Table>) {
    exists i, j :: 0 <= i < j < |order| && order[i] == a && order[j] == b
  }

  /** Every blocking child among `tables` was emptied earlier than its parent. */
  ghost predicate ChildrenFirst(order: seq<Table>, tables: seq<Table>, deps: seq<Dependency>) {
    forall child, parent :: parent in order && child in tables && Blocks(child, parent, deps) ==>
      Before(child, parent, order)
  }

  lemma BeforeExtends(a: Table, b: Table, order: seq<Table>, more: seq<Table>)
    requires Before(a, b, order)
    ensures Before(a, b, order + more)
  {
    var i, j :| 0 <= i < j < |order| && order[i] == a && order[j] == b;
    assert (order + more)[i] == a && (order + more)[j] == b;
  }

  lemma AppendReady(order: seq<Table>, t: Table, tables: seq<Table>, deps: seq<Dependency>)
    requires ChildrenFirst(order, tables, deps)
    requires forall child :: child in tables && Blocks(child, t, deps) ==> child in order
    ensures ChildrenFirst(order + [t], tables, deps)
  {
    var longer := order + [t];
    forall child, parent | parent in longer && child in tables && Blocks(child, parent, deps)
      ensures Before(child, parent, longer)
    {
      if parent in order {
        BeforeExtends(child, parent, order, [t]);
      } else {
        var i :| 0 <= i < |order| && order[i] == child;
        assert longer[i] == child && longer[|order|] == parent;
      }
    }
  }

  // ---------- what the rounds come to ----------

  function Named(ready: seq<Table>): (front: seq<Table>)
    ensures |front| <= |ready| && front == ready[..|front|]
  {
    if ready == [] || !ValidName(ready[0]) then [] else [ready[0]] + Named(ready[1..])
  }

  function WithoutAll(ts: seq<Table>, gone: seq<Table>): (rest: seq<Table>)
    ensures forall x :: x in rest <==> x in ts && x !in gone
    ensures |rest| <= |ts|
    ensures (exists x :: x in ts && x in gone) ==> |rest| < |ts|
  {
    if ts == [] then [] else (if ts[0] in gone then [] else [ts[0]]) + WithoutAll(ts[1..], gone)
  }

  /** The verdict on the tables that remain, and the order in which they are emptied. */
  function Erasure(remaining: seq<Table>, deps: seq<Dependency>): (Outcome, seq<Table>)
    decreases |remaining|
  {
    if remaining == [] then (Erased, [])
    else
      var ready := Filter(remaining, remaining, deps);
      if ready == [] then (DependencyCycle, [])
      else if |Named(ready)| < |ready| then (InvalidTable, Named(ready))
      else
        assert ready[0] in ready;
        var (outcome, order) := Erasure(WithoutAll(remaining, ready), deps);
        (outcome, ready + order)
  }

  lemma {:induction false} WithoutNext(ts: seq<Table>, gone: seq<Table>, t: Table)
    ensures Without(WithoutAll(ts, gone), t) == WithoutAll(ts, gone + [t])
  {
    if ts != [] {
      WithoutNext(ts[1..], gone, t);
      var rest := WithoutAll(ts[1..], gone);
      assert WithoutAll(ts, gone) == if ts[0] in gone then rest else [ts[0]] + rest;
      assert ts[0] !in gone ==> ([ts[0]] + rest)[1..] == rest;
    }
  }

  lemma {:induction false} WithoutNone(ts: seq<Table>)
    ensures WithoutAll(ts, []) == ts
  {
    if ts != [] {
      WithoutNone(ts[1..]);
    }
  }

  lemma {:induction false} NamedAll(ready: seq<Table>)
    requires forall i :: 0 <= i < |ready| ==> ValidName(ready[i])
    ensures Named(ready) == ready
  {
    if ready != [] {
      NamedAll(ready[1..]);
    }
  }

  lemma {:induction false} NamedUpTo(ready: seq<Table>, k: nat)
    requires k < |ready| && !ValidName(ready[k]) && forall i :: 0 <= i < k ==> ValidName(ready[i])
    ensures Named(ready) == ready[..k]
  {
    if k > 0 {
      NamedUpTo(ready[1..], k - 1);
      assert ready[..k] == [ready[0]] + ready[1..][..k - 1];
    }
  }

  // ---------- the loop ----------

  /** What the loops keep: the emptied and the waiting tables share out the list. */
  ghost predicate Progress(order: seq<Table>, remaining: seq<Table>, tables: seq<Table>, deps: seq<Dependency>) {
    && Distinct(order) && Distinct(remaining)
    && (forall t :: t in tables <==> t in order || t in remaining)
    && (forall t :: t in order ==> t !in remaining && ValidName(t))
    && ChildrenFirst(order, tables, deps)
  }

  ghost predicate ChildrenDone(t: Table, order: seq<Table>, tables: seq<Table>, deps: seq<Dependency>) {
    forall child :: child in tables && Blocks(child, t, deps) ==> child in order
  }

  lemma EmptyingOneKeepsProgress(order: seq<Table>, remaining: seq<Table>, tables: seq<Table>,
                                 deps: seq<Dependency>, t: Table)
    requires Progress(order, remaining, tables, deps)
    requires t in remaining && ValidName(t) && ChildrenDone(t, order, tables, deps)
    ensures Progress(order + [t], Without(remaining, t), tables, deps)
  {
    AppendReady(order, t, tables, deps);
    WithoutDistinct(remaining, t);
  }

  lemma {:induction false} EmptyingKeepsProgress(order: seq<Table>, remaining: seq<Table>, ready: seq<Table>, tables: seq<Table>, deps: seq<Dependency>)
    requires Progress(order, remaining, tables, deps) && Distinct(ready)
    requires forall t :: t in ready ==> t in remaining && ValidName(t) && ChildrenDone(t, order, tables, deps)
    ensures Progress(order + ready, WithoutAll(remaining, ready), tables, deps)
    decreases |ready|
  {
    if ready == [] {
      WithoutNone(remaining);
      assert order + ready == order;
    } else {
      var last := |ready| - 1;
      var front := ready[..last];
      assert ready == front + [ready[last]] && order + ready == (order + front) + [ready[last]];
      EmptyingKeepsProgress(order, remaining, front, tables, deps);
      WithoutNext(remaining, front, ready[last]);
      assert ready[last] !in front && ChildrenDone(ready[last], order + front, tables, deps);
      hide Progress, ChildrenDone, ValidName;
      EmptyingOneKeepsProgress(order + front, WithoutAll(remaining, front), tables, deps, ready[last]);
    }
  }

  lemma ReadyFacts(order: seq<Table>, remaining: seq<Table>, tables: seq<Table>, deps: seq<Dependency>)
    requires Progress(order, remaining, tables, deps)
    ensures var ready := Filter(remaining, remaining, deps);
      Distinct(ready) && Distinct(Named(ready)) && forall t :: t in ready ==> t in remaining && ChildrenDone(t, order, tables, deps)
  {
    FilterDistinct(remaining, remaining, deps);
  }

  lemma {:induction false} NamedValid(ready: seq<Table>)
    ensures forall t :: t in Named(ready) ==> t in ready && ValidName(t)
    ensures |Named(ready)| < |ready| ==> !ValidName(ready[|Named(ready)|])
  {
    if ready != [] {
      NamedValid(ready[1..]);
    }
  }

  /** What a round and all that follow it make of the tables that remain. */
  lemma {:induction false} ErasureFacts(order: seq<Table>, remaining: seq<Table>, tables: seq<Table>, deps: seq<Dependency>) returns (rest: seq<Table>)
    requires Progress(order, remaining, tables, deps)
    ensures var (outcome, more) := Erasure(remaining, deps);
      && Progress(order + more, rest, tables, deps) && (outcome == Erased ==> rest == [])
      && (outcome == DependencyCycle ==> Cyclic(tables, deps))
      && (outcome == InvalidTable ==> exists t :: t in tables && !ValidName(t))
    decreases |remaining|
  {
    var ready := Filter(remaining, remaining, deps);
    rest := remaining;
    assert order + [] == order;
    if remaining != [] && ready == [] {
      hide Progress, Cyclic, ValidName;
      WaitingAreListed(order, remaining, tables, deps);
      RemainingCycle(remaining, tables, deps);
    } else if remaining != [] {
      hide Cyclic, Ready, Filter;
      rest := RoundFacts(order, remaining, ready, tables, deps);
      if Named(ready) == ready {
        assert ready[0] in ready;
        hide Progress, ValidName;
        Assoc(order, ready, Erasure(WithoutAll(remaining, ready), deps).1);
        rest := ErasureFacts(order + ready, rest, tables, deps);
      }
    }
  }

  lemma WaitingAreListed(order: seq<Table>, remaining: seq<Table>, tables: seq<Table>, deps: seq<Dependency>)
    requires Progress(order, remaining, tables, deps)
    ensures forall t :: t in remaining ==> t in tables
  {
  }

  lemma RoundFacts(order: seq<Table>, remaining: seq<Table>, ready: seq<Table>, tables: seq<Table>, deps: seq<Dependency>) returns (rest: seq<Table>)
    requires Progress(order, remaining, tables, deps) && ready == Filter(remaining, remaining, deps)
    ensures rest == WithoutAll(remaining, Named(ready)) && Progress(order + Named(ready), rest, tables, deps)
    ensures |Named(ready)| < |ready| ==> exists t :: t in tables && !ValidName(t)
    ensures |Named(ready)| == |ready| ==> Named(ready) == ready
  {
    ReadyFacts(order, remaining, tables, deps);
    NamedValid(ready);
    WaitingAreListed(order, remaining, tables, deps);
    hide Progress, ChildrenDone, ValidName, Filter;
    EmptyingKeepsProgress(order, remaining, Named(ready), tables, deps);
    rest := WithoutAll(remaining, Named(ready));
    if |Named(ready)| < |ready| {
      assert ready[|Named(ready)|] in ready;
    }
  }

  /** One round: empty the ready tables one after the other. */
  method EmptyReady(ready: seq<Table>, done: seq<Table>, waiting: seq<Table>) returns (order: seq<Table>, remaining: seq<Table>, ok: bool)
    ensures order == done + Named(ready) && remaining == WithoutAll(waiting, Named(ready)) && (ok <==> Named(ready) == ready)
  {
    order, remaining := done, waiting;
    WithoutNone(waiting);
    var k := 0;
    while k < |ready|
      invariant 0 <= k <= |ready|
      invariant forall i :: 0 <= i < k ==> ValidName(ready[i])
      invariant order == done + ready[..k] && remaining == WithoutAll(waiting, ready[..k])
    {
      var t := ready[k];
      if !ValidName(t) {
        NamedUpTo(ready, k);
        return order, remaining, false;
      }
      WithoutNext(waiting, ready[..k], t);
      assert ready[..k + 1] == ready[..k] + [t];
      order := order + [t];
      remaining := Without(remaining, t);
      k := k + 1;
    }
    assert ready[..k] == ready;
    NamedAll(ready);
    ok := true;
  }

  /** Rounds of deletion: in each round every table without a remaining child is emptied, and the
      erasure is abandoned when a round finds none or meets a table it will not name in a query. */
  method EraseTables(tables: seq<Table>, deps: seq<Dependency>) returns (outcome: Outcome, order: seq<Table>)
    requires Distinct(tables)
    ensures (outcome, order) == Erasure(tables, deps)
    ensures Distinct(order) && (forall t :: t in order ==> t in tables && ValidName(t)) && (outcome == Erased ==> forall t :: t in tables ==> t in order)
    ensures ChildrenFirst(order, tables, deps)
    ensures forall d | d in deps && d.child in tables && d.parent in order && d.child != d.parent
                       && d != Dependency("std_albums", "std_media_assets") :: Before(d.child, d.parent, order)
    ensures outcome == Erased <==>
      && (forall t :: t in tables ==> |t| > 4 && t[..4] == "std_" && forall i :: 4 <= i < |t| ==> 'a' <= t[i] <= 'z' || t[i] == '_')
      && exists rank :: Ranked(tables, deps, rank)
    ensures outcome == InvalidTable ==> exists t :: t in tables && !ValidName(t)
    ensures outcome == Erased ==> !Cyclic(tables, deps)
    ensures outcome == DependencyCycle ==> Cyclic(tables, deps)
    ensures (forall t :: t in tables ==> ValidName(t)) ==> (outcome == DependencyCycle <==> Cyclic(tables, deps))
  {
    hide Ranked, Cyclic, Before, ChildrenFirst, Distinct, Blocks, Named, WithoutAll, Ready;
    var remaining := tables;
    order := [];
    assert [] + Erasure(tables, deps).1 == Erasure(tables, deps).1;
    outcome := Erased;
    while remaining != []
      invariant Erasure(tables, deps) == (Erasure(remaining, deps).0, order + Erasure(remaining, deps).1)
      invariant outcome == Erased
      decreases |remaining|
    {
      var ready := Filter(remaining, remaining, deps);
      if ready == [] {
        outcome := DependencyCycle;
        assert order + [] == order;
        break;
      }
      assert ready[0] in ready;
      ghost var done := order;
      var ok: bool;
      order, remaining, ok := EmptyReady(ready, order, remaining);
      if !ok {
        outcome := InvalidTable;
        assert |Named(ready)| == |ready| ==> Named(ready) == ready;
        break;
      }
      Assoc(done, ready, Erasure(remaining, deps).1);
    }
    assert remaining == [] ==> order + [] == order;
    ErasureMeans(tables, deps);
  }

  lemma Begins(tables: seq<Table>, deps: seq<Dependency>)
    requires Distinct(tables)
    ensures Progress([], tables, tables, deps)
  {
  }

  /** The verdict in terms of the rows, and the order it leaves. */
  lemma ErasureMeans(tables: seq<Table>, deps: seq<Dependency>)
    requires Distinct(tables)
    ensures var (outcome, order) := Erasure(tables, deps);
      && Distinct(order) && (forall t :: t in order ==> t in tables && ValidName(t)) && (outcome == Erased ==> forall t :: t in tables ==> t in order)
      && ChildrenFirst(order, tables, deps) && (outcome == Erased ==> !Cyclic(tables, deps)) && (outcome == DependencyCycle ==> Cyclic(tables, deps))
      && (forall d | d in deps && d.child in tables && d.parent in order && d.child != d.parent
                     && d != Dependency("std_albums", "std_media_assets") :: Before(d.child, d.parent, order))
      && (outcome == Erased <==> (forall t :: t in tables ==> ValidName(t)) && exists rank :: Ranked(tables, deps, rank))
      && (outcome == InvalidTable ==> exists t :: t in tables && !ValidName(t))
      && ((forall t :: t in tables ==> ValidName(t)) ==> (outcome == DependencyCycle <==> Cyclic(tables, deps)))
  {
    var (outcome, order) := Erasure(tables, deps);
    Begins(tables, deps);
    hide Erasure, Ranked, Cyclic, Blocks, ValidName;
    var rest := ErasureFacts([], tables, tables, deps);
    assert [] + order == order;
    ChildrenFirstRows(order, tables, deps);
    if outcome == Erased {
      CompleteOrderIsAcyclic(order, tables, deps);
      OrderedIsRanked(order, tables, deps);
    } else if outcome == DependencyCycle {
      CyclicUnranked(tables, deps);
    }
  }

  lemma ChildrenFirstRows(order: seq<Table>, tables: seq<Table>, deps: seq<Dependency>)
    requires ChildrenFirst(order, tables, deps)
    ensures forall d | d in deps && d.child in tables && d.parent in order && d.child != d.parent
                       && d != Dependency("std_albums", "std_media_assets") :: Before(d.child, d.parent, order)
  {
    forall d | d in deps && d.child in tables && d.parent in order && d.child != d.parent && d != Dependency("std_albums", "std_media_assets")
      ensures Before(d.child, d.parent, order)
    {
      assert Dependency(d.child, d.parent) == d && Blocks(d.child, d.parent, deps);
    }
  }

  /** Every dependency among the tables follows the ranking, except a table's on itself and the album's on
      its cover. */
  ghost predicate Ranked(tables: seq<Table>, deps: seq<Dependency>, rank: map<Table, nat>) {
    && (forall t :: t in tables ==> t in rank)
    && forall d | d in deps && d.child in tables && d.parent in tables && d.child != d.parent
                  && d != Dependency("std_albums", "std_media_assets") :: rank[d.child] < rank[d.parent]
  }

  lemma OrderedIsRanked(order: seq<Table>, tables: seq<Table>, deps: seq<Dependency>)
    requires Distinct(order) && ChildrenFirst(order, tables, deps) && forall t :: t in tables ==> t in order
    ensures exists rank :: Ranked(tables, deps, rank)
  {
    var rank := map t | t in tables :: PositionOf(order, t);
    forall d | d in deps && d.child in tables && d.parent in tables && d.child != d.parent
      && d != Dependency("std_albums", "std_media_assets")
      ensures rank[d.child] < rank[d.parent]
    {
      assert Blocks(d.child, d.parent, deps);
      BeforePositions(d.child, d.parent, order);
    }
    assert Ranked(tables, deps, rank);
  }

  lemma CyclicUnranked(tables: seq<Table>, deps: seq<Dependency>)
    requires Cyclic(tables, deps)
    ensures !exists rank :: Ranked(tables, deps, rank)
  {
    var p :| IsCycle(p, tables, deps);
    forall rank ensures !Ranked(tables, deps, rank) {
      if Ranked(tables, deps, rank) {
        RankFalls(p, |p| - 1, tables, deps, rank);
        assert false;
      }
    }
  }

  lemma {:induction false} RankFalls(p: seq<Table>, k: nat, tables: seq<Table>, deps: seq<Dependency>, rank: map<Table, nat>)
    requires IsCycle(p, tables, deps) && Ranked(tables, deps, rank) && k < |p|
    ensures rank[p[k]] <= rank[p[0]]
  {
    if k > 0 {
      RankFalls(p, k - 1, tables, deps, rank);
      assert Blocks(p[k], p[k - 1], deps);
    }
  }

  /** Self references and the album's cover never matter: keys that differ in nothing else give the same
      verdict and the same order. */
  lemma {:induction false} ExemptionsNeverMatter(tables: seq<Table>, a: seq<Dependency>, b: seq<Dependency>)
    requires forall child, parent :: child != parent && !(child == "std_albums" && parent == "std_media_assets") ==>
      (Dependency(child, parent) in a <==> Dependency(child, parent) in b)
    ensures Erasure(tables, a) == Erasure(tables, b)
    decreases |tables|
  {
    SameFilter(tables, tables, a, b);
    var ready := Filter(tables, tables, a);
    if tables != [] && ready != [] {
      assert ready[0] in ready;
      ExemptionsNeverMatter(WithoutAll(tables, ready), a, b);
    }
  }

  lemma {:induction false} SameFilter(ts: seq<Table>, remaining: seq<Table>, a: seq<Dependency>, b: seq<Dependency>)
    requires forall child, parent :: child != parent && !(child == "std_albums" && parent == "std_media_assets") ==>
      (Dependency(child, parent) in a <==> Dependency(child, parent) in b)
    ensures Filter(ts, remaining, a) == Filter(ts, remaining, b)
  {
    if ts != [] {
      SameFilter(ts[1..], remaining, a, b);
      assert forall child :: Blocks(child, ts[0], a) == Blocks(child, ts[0], b);
    }
  }

  lemma RemainingCycle(remaining: seq<Table>, tables: seq<Table>, deps: seq<Dependency>)
    requires remaining != [] && Filter(remaining, remaining, deps) == []
    requires forall t :: t in remaining ==> t in tables
    ensures Cyclic(tables, deps)
  {
    forall t | t in remaining ensures !Ready(t, remaining, deps) {
      assert t !in Filter(remaining, remaining, deps);
    }
    StuckHasCycle(remaining, deps);
    var p :| IsCycle(p, remaining, deps);
    assert IsCycle(p, tables, deps);
  }

  // ---------- completeness ----------

  /** An order that puts every child first exists only for acyclic keys: the two verdicts of the
      loop exclude each other. */
  lemma CompleteOrderIsAcyclic(order: seq<Table>, tables: seq<Table>, deps: seq<Dependency>)
    requires Distinct(order) && (forall t :: t in tables ==> t in order)
    requires ChildrenFirst(order, tables, deps)
    ensures !Cyclic(tables, deps)
  {
    forall p ensures !IsCycle(p, tables, deps) {
      if IsCycle(p, tables, deps) {
        BeforePositions(p[0], p[|p| - 1], order);
        CycleClimbs(p, |p| - 1, order, tables, deps);
        assert false;
      }
    }
  }

  ghost function PositionOf(order: seq<Table>, t: Table): (i: nat)
    requires t in order
    ensures i < |order| && order[i] == t
  {
    var i :| 0 <= i < |order| && order[i] == t;
    i
  }

  lemma BeforePositions(a: Table, b: Table, order: seq<Table>)
    requires Distinct(order) && Before(a, b, order)
    ensures a in order && b in order && PositionOf(order, a) < PositionOf(order, b)
  {
    var i, j :| 0 <= i < j < |order| && order[i] == a && order[j] == b;
    assert PositionOf(order, a) == i && PositionOf(order, b) == j;
  }

  /** Along a cycle each table comes no later than the one before it. */
  lemma {:induction false} CycleClimbs(p: seq<Table>, k: nat, order: seq<Table>, tables: seq<Table>, deps: seq<Dependency>)
    requires Distinct(order) && (forall t :: t in tables ==> t in order)
    requires ChildrenFirst(order, tables, deps) && IsCycle(p, tables, deps) && k < |p|
    ensures PositionOf(order, p[k]) <= PositionOf(order, p[0])
  {
    if k > 0 {
      CycleClimbs(p, k - 1, order, tables, deps);
      assert Blocks(p[k], p[k - 1], deps);
      BeforePositions(p[k], p[k - 1], order);
    }
  }
}
