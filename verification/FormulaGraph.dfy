/**
 The meaning of a set of formulas over a dependency graph, independent of any evaluation order.

 A cell is a leaf value or a formula over a finite set of other cells.  `Denote` is defined by
 bounded unfolding; the lemmas of this module show that it is what one would write down
 declaratively: it is the circular marker exactly on the cells from which a dependency cycle (or a
 leaf holding the marker text) can be reached, and everywhere else it is the one solution of the
 equations "a formula is the aggregate of its sources".
 */
module FormulaGraph {
  import opened Values

  type Id = nat
  datatype Key = Key(node: Id, field: string)

  datatype Op = Sum | Avg | Min | Max | Count

  datatype FormulaSpec = FormulaSpec(op: Op, attr: string)

  datatype Cell = Leaf(value: Json) | Formula(op: Op, deps: set<Key>)

  /** `number` reads a source value as a number, `finalize` is applied to every aggregate. */
  datatype Graph = Graph(cells: map<Key, Cell>, number: Json -> Option<real>, finalize: real -> real)

  const CIRC: Json := JText("#CIRC!")

  function CellAt(g: Graph, k: Key): Cell {
    if k in g.cells then g.cells[k] else Leaf(JNull)
  }

  function Deps(g: Graph, k: Key): set<Key> {
    match CellAt(g, k)
    case Leaf(_) => {}
    case Formula(_, deps) => deps
  }

  // ---------- Aggregation ----------

  /** The numeric entries of a valuation. */
  ghost function Numbers(g: Graph, vals: map<Key, Json>): map<Key, real> {
    map d | d in vals && g.number(vals[d]).Some? :: g.number(vals[d]).value
  }

  ghost function Total(m: map<Key, real>): real
    decreases |m|
  {
    if m.Keys == {} then 0.0 else
      var k :| k in m;
      assert |m - {k}| < |m| by { assert (m - {k}).Keys == m.Keys - {k}; }
      m[k] + Total(m - {k})
  }

  predicate Dominates(op: Op, x: real, y: real) {
    if op == Min then x <= y else x >= y
  }

  /** `x` is the least (for `Min`) or greatest entry. */
  ghost predicate IsBound(op: Op, x: real, m: map<Key, real>) {
    && (exists k :: k in m && m[k] == x)
    && (forall k :: k in m ==> Dominates(op, x, m[k]))
  }

  lemma BoundExists(op: Op, m: map<Key, real>)
    requires m.Keys != {}
    ensures exists x :: IsBound(op, x, m)
    decreases |m|
  {
    var k :| k in m;
    var rest := m - {k};
    assert rest.Keys == m.Keys - {k};
    if rest.Keys == {} {
      assert m.Keys == {k};
      assert IsBound(op, m[k], m);
    } else {
      BoundExists(op, rest);
      var x :| IsBound(op, x, rest);
      var j :| j in rest && rest[j] == x;
      assert j in m && m[j] == x;
      forall i | i in m ensures i == k || Dominates(op, x, m[i]) {
        if i != k { assert i in rest && rest[i] == m[i]; }
      }
      assert IsBound(op, if Dominates(op, x, m[k]) then x else m[k], m);
    }
  }

  ghost function AggregateOf(op: Op, m: map<Key, real>): real {
    match op
    case Sum => Total(m)
    case Avg => if m.Keys == {} then 0.0 else Total(m) / (|m.Keys| as real)
    case Count => |m.Keys| as real
    case _ =>
      if m.Keys == {} then 0.0 else
        BoundExists(op, m);
        var x :| IsBound(op, x, m);
        x
  }

  ghost function Finished(g: Graph, op: Op, m: map<Key, real>): Json {
    if op == Count || (op != Sum && m.Keys == {}) then JNum(AggregateOf(op, m))
    else JNum(g.finalize(AggregateOf(op, m)))
  }

  /** What a formula evaluates to once its sources are known. */
  ghost function Combine(g: Graph, op: Op, vals: map<Key, Json>): Json {
    if exists d :: d in vals && vals[d] == CIRC then CIRC
    else Finished(g, op, Numbers(g, vals))
  }

  lemma CombinePropagates(g: Graph, op: Op, vals: map<Key, Json>, d: Key)
    requires d in vals && Combine(g, op, vals) != CIRC
    ensures vals[d] != CIRC
  {
  }

  lemma TotalSplit(m: map<Key, real>, k: Key)
    requires k in m
    ensures Total(m) == m[k] + Total(m - {k})
    decreases |m|
  {
    assert m.Keys != {};
    var j :| j in m && Total(m) == m[j] + Total(m - {j});
    if j != k {
      assert (m - {j}).Keys == m.Keys - {j};
      assert (m - {k}).Keys == m.Keys - {k};
      assert (m - {j}) - {k} == (m - {k}) - {j};
      TotalSplit(m - {j}, k);
      TotalSplit(m - {k}, j);
    }
  }

  /** A total starts at nothing and takes up each entry once. */
  lemma TotalMeans(m: map<Key, real>, k: Key, x: real)
    requires k !in m
    ensures Total(map[]) == 0.0 && Total(m[k := x]) == Total(m) + x
  {
    TotalSplit(m[k := x], k);
    assert m[k := x] - {k} == m;
  }

  /** The source that holds the least (or greatest) number. */
  lemma BoundIsHeld(g: Graph, op: Op, vals: map<Key, Json>) returns (k: Key)
    requires op == Min || op == Max
    requires forall d :: d in vals ==> vals[d] != CIRC
    requires exists d :: d in vals && g.number(vals[d]).Some?
    ensures k in vals && g.number(vals[k]).Some? && Combine(g, op, vals) == JNum(g.finalize(g.number(vals[k]).value))
    ensures op == Min ==> forall d :: d in vals && g.number(vals[d]).Some? ==> g.number(vals[k]).value <= g.number(vals[d]).value
    ensures op == Max ==> forall d :: d in vals && g.number(vals[d]).Some? ==> g.number(vals[k]).value >= g.number(vals[d]).value
  {
    var m := Numbers(g, vals);
    var d :| d in vals && g.number(vals[d]).Some?;
    assert d in m;
    BoundExists(op, m);
    assert IsBound(op, AggregateOf(op, m), m);
    k :| k in m && m[k] == AggregateOf(op, m);
    forall e | e in vals && g.number(vals[e]).Some? ensures Dominates(op, m[k], g.number(vals[e]).value) { assert e in m; }
  }

  /**
   The value is what the formula makes of the numbers: MIN and MAX are one of them that none undercuts or
   exceeds, COUNT is how many there are, AVG is the sum divided by that; without numbers all are zero.
   */
  ghost predicate Aggregates(finalize: real -> real, op: Op, numbers: map<Key, real>, value: Json) {
    && (op == Sum ==> value == JNum(finalize(Total(numbers))))
    && (op == Count ==> value == JNum(|numbers.Keys| as real))
    && (numbers.Keys == {} && op != Sum ==> value == JNum(0.0))
    && (op == Avg && numbers.Keys != {} ==> value == JNum(finalize(Total(numbers) / (|numbers.Keys| as real))))
    && (op == Min && numbers.Keys != {} ==>
          exists k :: k in numbers && value == JNum(finalize(numbers[k])) && forall d :: d in numbers ==> numbers[k] <= numbers[d])
    && (op == Max && numbers.Keys != {} ==>
          exists k :: k in numbers && value == JNum(finalize(numbers[k])) && forall d :: d in numbers ==> numbers[k] >= numbers[d])
  }

  /** Sources of which one is circular make the formula circular; otherwise their numbers are aggregated and the rest left out. */
  lemma CombineMeans(g: Graph, op: Op, vals: map<Key, Json>)
    ensures Combine(g, op, vals) == CIRC <==> exists d :: d in vals && vals[d] == CIRC
    ensures Combine(g, op, vals) != CIRC ==>
              Aggregates(g.finalize, op, map d | d in vals && g.number(vals[d]).Some? :: g.number(vals[d]).value, Combine(g, op, vals))
  {
    var numbers := map d | d in vals && g.number(vals[d]).Some? :: g.number(vals[d]).value;
    assert Numbers(g, vals) == numbers;
    if forall d :: d in vals ==> vals[d] != CIRC {
      CombineUnfold(g, op, vals);
      hide Total, Combine, AggregateOf;
      if (op == Min || op == Max) && numbers.Keys != {} {
        var d :| d in numbers;
        var k := BoundIsHeld(g, op, vals);
        assert k in numbers && Combine(g, op, vals) == JNum(g.finalize(numbers[k]));
      }
    }
  }

  lemma CombineUnfold(g: Graph, op: Op, vals: map<Key, Json>)
    requires forall d :: d in vals ==> vals[d] != CIRC
    ensures Combine(g, op, vals) == Finished(g, op, Numbers(g, vals))
    ensures var m := Numbers(g, vals);
            && (op == Sum ==> AggregateOf(op, m) == Total(m))
            && (op == Count ==> AggregateOf(op, m) == |m.Keys| as real)
            && (op == Avg && m.Keys != {} ==> AggregateOf(op, m) == Total(m) / (|m.Keys| as real))
            && (op != Sum && m.Keys == {} ==> AggregateOf(op, m) == 0.0)
  {
    hide Total;
  }

  // ---------- Denotation ----------

  /** Unfolds formulas `n` deep; a formula that is still unexpanded at depth 0 counts as circular. */
  ghost function Eval(g: Graph, n: nat, k: Key): Json
    decreases n, 0
  {
    match CellAt(g, k)
    case Leaf(v) => v
    case Formula(op, deps) => if n == 0 then CIRC else Combine(g, op, EvalAll(g, n - 1, deps))
  }

  ghost function EvalAll(g: Graph, n: nat, ks: set<Key>): map<Key, Json>
    decreases n, 1
  {
    map d | d in ks :: Eval(g, n, d)
  }

  ghost function Denote(g: Graph, k: Key): Json {
    Eval(g, |g.cells|, k)
  }

  ghost function DenoteAll(g: Graph, ks: set<Key>): map<Key, Json> {
    map d | d in ks :: Denote(g, d)
  }

  // ---------- Walks and cycles ----------

  ghost predicate Walk(g: Graph, p: seq<Key>) {
    p != [] && forall i :: 0 <= i < |p| - 1 ==> p[i + 1] in Deps(g, p[i])
  }

  /** A walk that runs into itself or into a leaf whose own text is the marker. */
  ghost predicate Lasso(g: Graph, p: seq<Key>) {
    && Walk(g, p)
    && (CellAt(g, p[|p| - 1]) == Leaf(CIRC) || exists i :: 0 <= i < |p| - 1 && p[i] == p[|p| - 1])
  }

  ghost predicate Circular(g: Graph, k: Key) {
    exists p :: Lasso(g, p) && p[0] == k
  }

  /** `x` is reached from `k` in one or more dependency steps. */
  ghost predicate Below(g: Graph, k: Key, x: Key) {
    exists p :: Walk(g, p) && |p| >= 2 && p[0] == k && p[|p| - 1] == x
  }

  lemma BelowStep(g: Graph, k: Key, x: Key, y: Key)
    requires k == x || Below(g, k, x)
    requires y in Deps(g, x)
    ensures Below(g, k, y)
  {
    var p := [k];
    if k != x {
      p :| Walk(g, p) && |p| >= 2 && p[0] == k && p[|p| - 1] == x;
    }
    assert Walk(g, p + [y]);
  }

  lemma BelowTrans(g: Graph, k: Key, d: Key, x: Key)
    requires d in Deps(g, k) && Below(g, d, x)
    ensures Below(g, k, x)
  {
    var p :| Walk(g, p) && |p| >= 2 && p[0] == d && p[|p| - 1] == x;
    assert Walk(g, [k] + p);
  }

  lemma BelowSelfIsCircular(g: Graph, k: Key)
    requires Below(g, k, k)
    ensures Circular(g, k)
  {
    var p :| Walk(g, p) && |p| >= 2 && p[0] == k && p[|p| - 1] == k;
    assert Lasso(g, p);
  }

  lemma CircularNext(g: Graph, k: Key) returns (d: Key)
    requires Circular(g, k) && CellAt(g, k).Formula?
    ensures d in Deps(g, k) && Circular(g, d)
  {
    var p :| Lasso(g, p) && p[0] == k;
    d := p[1];
    var q := p[1..];
    assert Walk(g, q);
    if CellAt(g, p[|p| - 1]) == Leaf(CIRC) {
      assert Lasso(g, q);
    } else {
      var i :| 0 <= i < |p| - 1 && p[i] == p[|p| - 1];
      if i > 0 {
        assert q[i - 1] == q[|q| - 1];
        assert Lasso(g, q);
      } else {
        var r := q + [p[1]];
        forall j | 0 <= j < |r| - 1 ensures r[j + 1] in Deps(g, r[j]) {
          if j < |q| - 1 { assert r[j] == p[j + 1] && r[j + 1] == p[j + 2]; }
        }
        assert r[0] == r[|r| - 1];
        assert Lasso(g, r);
      }
    }
  }

  lemma {:induction false} CircularUnfolds(g: Graph, n: nat, k: Key)
    requires Circular(g, k)
    ensures Eval(g, n, k) == CIRC
  {
    var cell := CellAt(g, k);
    if cell.Leaf? {
      var p :| Lasso(g, p) && p[0] == k;
      assert |p| > 1 ==> p[1] in Deps(g, p[0]);
    } else if n > 0 {
      var d := CircularNext(g, k);
      CircularUnfolds(g, n - 1, d);
      var vals := EvalAll(g, n - 1, cell.deps);
      assert d in vals && vals[d] == CIRC;
    }
  }

  /** Why an unfolding is circular: a marker leaf was met, or the depth was used up along a walk. */
  lemma {:induction false} CircHasWalk(g: Graph, n: nat, k: Key) returns (p: seq<Key>)
    requires Eval(g, n, k) == CIRC
    ensures Walk(g, p) && p[0] == k
    ensures CellAt(g, p[|p| - 1]) == Leaf(CIRC) || (|p| == n + 1 && CellAt(g, p[n]).Formula?)
  {
    var cell := CellAt(g, k);
    if cell.Leaf? || n == 0 {
      p := [k];
    } else {
      var vals := EvalAll(g, n - 1, cell.deps);
      assert Combine(g, cell.op, vals) == CIRC;
      var d :| d in vals && vals[d] == CIRC;
      var q := CircHasWalk(g, n - 1, d);
      p := [k] + q;
      assert p[1..] == q;
    }
  }

  /** A sequence longer than the set it draws from repeats an element. */
  lemma {:induction false} Pigeonhole(p: seq<Key>, s: set<Key>)
    requires |p| > |s|
    requires forall i :: 0 <= i < |p| ==> p[i] in s
    ensures exists i, j :: 0 <= i < j < |p| && p[i] == p[j]
  {
    var last := |p| - 1;
    if i :| 0 <= i < last && p[i] == p[last] {
    } else {
      var q := p[..last];
      forall i | 0 <= i < |q| ensures q[i] in s - {p[last]} { assert q[i] == p[i]; }
      Pigeonhole(q, s - {p[last]});
      var i, j :| 0 <= i < j < |q| && q[i] == q[j];
      assert p[i] == p[j];
    }
  }

  lemma DeepCircIsCircular(g: Graph, n: nat, k: Key)
    requires n >= |g.cells| && Eval(g, n, k) == CIRC
    ensures Circular(g, k)
  {
    var p := CircHasWalk(g, n, k);
    if CellAt(g, p[|p| - 1]) == Leaf(CIRC) {
      assert Lasso(g, p);
    } else {
      forall i | 0 <= i < |p| ensures p[i] in g.cells.Keys {
        if i < n { assert p[i + 1] in Deps(g, p[i]); }
      }
      Pigeonhole(p, g.cells.Keys);
      var i, j :| 0 <= i < j < |p| && p[i] == p[j];
      var q := p[..j + 1];
      assert q[i] == q[|q| - 1] && q[0] == k;
      assert Lasso(g, q);
    }
  }

  // ---------- Main results ----------

  /** The marker is the meaning of exactly the cells that reach a cycle or a marker leaf. */
  lemma CircularIff(g: Graph, k: Key)
    ensures Denote(g, k) == CIRC <==> Circular(g, k)
  {
    if Circular(g, k) { CircularUnfolds(g, |g.cells|, k); }
    if Denote(g, k) == CIRC { DeepCircIsCircular(g, |g.cells|, k); }
  }

  lemma {:induction false} UnfoldingIsMonotone(g: Graph, n: nat, k: Key)
    requires Eval(g, n, k) != CIRC
    ensures Eval(g, n + 1, k) == Eval(g, n, k)
  {
    var cell := CellAt(g, k);
    if cell.Formula? {
      var now := EvalAll(g, n - 1, cell.deps);
      var next := EvalAll(g, n, cell.deps);
      forall x | x in cell.deps ensures now[x] == next[x] {
        assert x in now && now[x] != CIRC;
        UnfoldingIsMonotone(g, n - 1, x);
      }
      assert now == next;
    }
  }

  lemma {:induction false} Stable(g: Graph, n: nat, k: Key)
    requires n >= |g.cells|
    ensures Eval(g, n, k) == Denote(g, k)
  {
    if n > |g.cells| {
      Stable(g, n - 1, k);
      hide Eval, Circular, CellAt;
      if Eval(g, n - 1, k) == CIRC {
        DeepCircIsCircular(g, n - 1, k);
        CircularUnfolds(g, n, k);
      } else {
        UnfoldingIsMonotone(g, n - 1, k);
      }
    }
  }

  /** The defining equations: a leaf means its value, a formula the aggregate of its sources. */
  lemma DenoteEquation(g: Graph, k: Key)
    ensures CellAt(g, k).Leaf? ==> Denote(g, k) == CellAt(g, k).value
    ensures CellAt(g, k).Formula? ==>
              Denote(g, k) == Combine(g, CellAt(g, k).op, DenoteAll(g, Deps(g, k)))
  {
    var cell := CellAt(g, k);
    var n := |g.cells|;
    if cell.Formula? {
      Stable(g, n + 1, k);
      var vals := EvalAll(g, n, cell.deps);
      assert vals == DenoteAll(g, Deps(g, k));
    }
  }

  ghost function ValuesAt(v: Key -> Json, ks: set<Key>): map<Key, Json> {
    map d | d in ks :: v(d)
  }

  /** A valuation that gives circular cells the marker and obeys the equations elsewhere. */
  ghost predicate Solves(g: Graph, v: Key -> Json) {
    forall k :: v(k) == Prescribed(g, v, k)
  }

  ghost function Prescribed(g: Graph, v: Key -> Json, k: Key): Json {
    match CellAt(g, k)
    case Leaf(x) => x
    case Formula(op, deps) => if Circular(g, k) then CIRC else Combine(g, op, ValuesAt(v, deps))
  }

  lemma {:induction false} SolutionFollowsUnfolding(g: Graph, v: Key -> Json, n: nat, k: Key)
    requires Solves(g, v) && Eval(g, n, k) != CIRC
    ensures v(k) == Eval(g, n, k)
  {
    hide Circular, CellAt, Combine;
    var cell := CellAt(g, k);
    assert v(k) == Prescribed(g, v, k);
    if cell.Formula? {
      var vals := EvalAll(g, n - 1, cell.deps);
      assert Eval(g, n, k) == Combine(g, cell.op, vals);
      hide Eval;
      forall x | x in cell.deps ensures v(x) == vals[x] {
        CombinePropagates(g, cell.op, vals, x);
        SolutionFollowsUnfolding(g, v, n - 1, x);
      }
      assert vals == ValuesAt(v, cell.deps);
      if Circular(g, k) { CircularUnfolds(g, n, k); }
    }
  }

  /** There is only one such valuation, so no visiting order can matter. */
  lemma DenotationIsUnique(g: Graph, v: Key -> Json, k: Key)
    requires Solves(g, v)
    ensures v(k) == Denote(g, k)
  {
    CircularIff(g, k);
    assert v(k) == Prescribed(g, v, k);
    if Denote(g, k) != CIRC {
      SolutionFollowsUnfolding(g, v, |g.cells|, k);
    } else if CellAt(g, k).Leaf? {
      DenoteEquation(g, k);
    }
  }

  ghost predicate AgreeFrom(g: Graph, h: Graph, k: Key) {
    && CellAt(g, k) == CellAt(h, k)
    && (forall x :: Below(g, k, x) ==> CellAt(g, x) == CellAt(h, x))
  }

  lemma {:induction false} UnfoldingIsLocal(g: Graph, h: Graph, n: nat, k: Key)
    requires g.number == h.number && g.finalize == h.finalize
    requires AgreeFrom(g, h, k)
    ensures Eval(g, n, k) == Eval(h, n, k)
  {
    hide Below, Combine;
    var cell := CellAt(g, k);
    if cell.Formula? && n > 0 {
      forall d | d in cell.deps ensures Eval(g, n - 1, d) == Eval(h, n - 1, d) {
        BelowStep(g, k, k, d);
        forall x | Below(g, d, x) ensures Below(g, k, x) { BelowTrans(g, k, d, x); }
        UnfoldingIsLocal(g, h, n - 1, d);
      }
      var a := EvalAll(g, n - 1, cell.deps);
      var b := EvalAll(h, n - 1, cell.deps);
      assert a == b;
      CombineDependsOnParts(g, h, cell.op, a);
    }
  }

  lemma CombineDependsOnParts(g: Graph, h: Graph, op: Op, vals: map<Key, Json>)
    requires g.number == h.number && g.finalize == h.finalize
    ensures Combine(g, op, vals) == Combine(h, op, vals)
  {
    assert Numbers(g, vals) == Numbers(h, vals);
  }

  /** Changing cells leaves every key that cannot reach a changed cell as it was. */
  lemma DenotationIsLocal(g: Graph, h: Graph, k: Key)
    requires g.number == h.number && g.finalize == h.finalize
    requires AgreeFrom(g, h, k)
    ensures Denote(g, k) == Denote(h, k)
  {
    var n := |g.cells| + |h.cells|;
    Stable(g, n, k);
    Stable(h, n, k);
    UnfoldingIsLocal(g, h, n, k);
  }
}
