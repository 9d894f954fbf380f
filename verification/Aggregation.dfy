/** Aggregating the list of numbers that a loop over sources collects, whatever order it visits them in. */
module Aggregation {
  import opened Values
  import opened FormulaGraph

  function SumOf(numbers: seq<real>): real {
    if numbers == [] then 0.0 else SumOf(numbers[..|numbers| - 1]) + numbers[|numbers| - 1]
  }

  function Extreme(op: Op, numbers: seq<real>): (r: real)
    requires numbers != []
    ensures r in numbers
    ensures forall x :: x in numbers ==> Dominates(op, r, x)
  {
    if |numbers| == 1 then numbers[0] else
      var rest := Extreme(op, numbers[1..]);
      assert forall x :: x in numbers ==> x == numbers[0] || x in numbers[1..];
      if Dominates(op, numbers[0], rest) then numbers[0] else rest
  }

  function AggregateList(op: Op, numbers: seq<real>): real {
    match op
    case Sum => SumOf(numbers)
    case Avg => if numbers == [] then 0.0 else SumOf(numbers) / (|numbers| as real)
    case Count => |numbers| as real
    case _ => if numbers == [] then 0.0 else Extreme(op, numbers)
  }

  /** The list holds the entries of the map, each once, in some order. */
  ghost predicate Tallies(numbers: seq<real>, m: map<Key, real>) {
    && |numbers| == |m.Keys|
    && SumOf(numbers) == Total(m)
    && (forall x :: x in numbers ==> exists k :: k in m && m[k] == x)
    && (forall k :: k in m ==> m[k] in numbers)
  }

  lemma TallyTotal(numbers: seq<real>, m: map<Key, real>, k: Key, x: real)
    requires SumOf(numbers) == Total(m) && k !in m
    ensures SumOf(numbers + [x]) == Total(m[k := x])
  {
    TotalSplit(m[k := x], k);
    assert m[k := x] - {k} == m;
    assert (numbers + [x])[..|numbers|] == numbers;
  }

  lemma TallyNext(numbers: seq<real>, m: map<Key, real>, k: Key, x: real)
    requires Tallies(numbers, m) && k !in m
    ensures Tallies(numbers + [x], m[k := x])
  {
    hide SumOf, Total;
    var next, list := m[k := x], numbers + [x];
    TallyTotal(numbers, m, k, x);
    assert next.Keys == m.Keys + {k};
    forall y | y in list ensures exists j :: j in next && next[j] == y {
      if y in numbers {
        var j :| j in m && m[j] == y;
        assert j in next && next[j] == y;
      } else {
        assert k in next && next[k] == y;
      }
    }
    forall j | j in next ensures next[j] in list {
      if j == k { assert list[|numbers|] == x; } else { assert m[j] in numbers; }
    }
  }

  lemma AggregateMatches(op: Op, numbers: seq<real>, m: map<Key, real>)
    requires Tallies(numbers, m)
    ensures AggregateList(op, numbers) == AggregateOf(op, m)
  {
    if numbers == [] {
      assert m.Keys == {};
    } else if op == Min || op == Max {
      assert m.Keys != {};
      BoundExists(op, m);
      var r := Extreme(op, numbers);
      var x := AggregateOf(op, m);
      assert IsBound(op, x, m);
      var k :| k in m && m[k] == r;
      var j :| j in m && m[j] == x;
      assert Dominates(op, x, r) && Dominates(op, r, x);
    }
  }

  /** What the loop over the sources has collected once the sources `ks` are done. */
  ghost predicate Gathered(g: Graph, ks: set<Key>, numbers: seq<real>, hasCircular: bool) {
    && (hasCircular <==> exists d :: d in ks && Denote(g, d) == CIRC)
    && (!hasCircular ==> Tallies(numbers, Numbers(g, DenoteAll(g, ks))))
  }

  lemma GatherNone(g: Graph)
    ensures Gathered(g, {}, [], false)
  {
    assert DenoteAll(g, {}) == map[];
    assert Numbers(g, map[]) == map[];
  }

  lemma GatherNext(g: Graph, ks: set<Key>, numbers: seq<real>, hasCircular: bool, k: Key)
    requires Gathered(g, ks, numbers, hasCircular) && k !in ks
    ensures var v := Denote(g, k);
            Gathered(g, ks + {k},
                     if v != CIRC && g.number(v).Some? then numbers + [g.number(v).value] else numbers,
                     hasCircular || v == CIRC)
  {
    hide Denote, Tallies;
    var v := Denote(g, k);
    if hasCircular {
      var d :| d in ks && Denote(g, d) == CIRC;
      assert d in ks + {k} && Denote(g, d) == CIRC;
    } else if v == CIRC {
      assert k in ks + {k} && Denote(g, k) == CIRC;
    } else {
      NumbersNext(g, ks, k);
      if g.number(v).Some? {
        TallyNext(numbers, Numbers(g, DenoteAll(g, ks)), k, g.number(v).value);
      }
    }
  }

  lemma NumbersNext(g: Graph, ks: set<Key>, k: Key)
    requires k !in ks
    ensures var before, v := Numbers(g, DenoteAll(g, ks)), Denote(g, k);
            && k !in before
            && Numbers(g, DenoteAll(g, ks + {k})) == if g.number(v).Some? then before[k := g.number(v).value] else before
  {
    hide Denote;
  }

  lemma GatherDone(g: Graph, op: Op, ks: set<Key>, numbers: seq<real>, hasCircular: bool)
    requires Gathered(g, ks, numbers, hasCircular)
    ensures Combine(g, op, DenoteAll(g, ks)) ==
            if hasCircular then CIRC
            else if op == Count || (op != Sum && numbers == []) then JNum(AggregateList(op, numbers))
            else JNum(g.finalize(AggregateList(op, numbers)))
  {
    var vals := DenoteAll(g, ks);
    if hasCircular {
      var d :| d in ks && Denote(g, d) == CIRC;
      assert d in vals && vals[d] == CIRC;
    } else {
      forall d | d in vals ensures vals[d] != CIRC { assert d in ks; }
      AggregateMatches(op, numbers, Numbers(g, vals));
    }
  }
}
