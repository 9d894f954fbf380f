/**
 The first-generation evaluator: edges are undirected, cycles are detected per atom although
 results are cached per (atom, field).  It is right whenever it does not answer with the circular
 marker, it never misses a cycle, and the inputs on which it can raise a false alarm are exactly
 those with a `FalseRevisit`.
 */
module LegacyCalc {
  import opened Values
  import opened FormulaGraph
  import opened Aggregation

  /** The formula pattern and the float constructor, both applied to cleaned-up text. */
  datatype Config = Config(pattern: string -> Option<FormulaSpec>, numeral: string -> Option<real>)

  type Cache = map<Key, Json>

  /** Atoms by id, and for each atom its neighbours in the order in which its set is iterated. */
  datatype Universe = Universe(atoms: map<Id, Metadata>, neighbors: map<Id, seq<Id>>)

  datatype Collected = Collected(cache: Cache, numbers: seq<real>, hit: bool)

  function Neighbors(u: Universe, a: Id): seq<Id> {
    if a in u.neighbors then u.neighbors[a] else []
  }

  function ToNumber(cfg: Config, v: Json): Option<real> {
    match v
    case JNum(r) => Some(r)
    case JText(s) => cfg.numeral(s)
    case _ => None
  }

  /** Rounding to the nearest integer, ties to even. */
  function Round(r: real): int {
    var f := r.Floor;
    if r - f as real < 0.5 then f
    else if r - f as real > 0.5 then f + 1
    else if f % 2 == 0 then f else f + 1
  }

  function FinalizeNumber(r: real): real {
    var gap := r - Round(r) as real;
    if -0.000000001 < gap < 0.000000001 then Round(r) as real else r
  }

  function Aggregate(op: Op, numbers: seq<real>): real {
    if op == Count || (op != Sum && numbers == []) then AggregateList(op, numbers)
    else FinalizeNumber(AggregateList(op, numbers))
  }

  function Raw(u: Universe, k: Key): Json {
    if k.node in u.atoms && k.field in u.atoms[k.node] then u.atoms[k.node][k.field] else JNull
  }

  function PlainValue(cfg: Config, raw: Json): Json {
    match ToNumber(cfg, raw)
    case Some(r) => JNum(FinalizeNumber(r))
    case None => raw
  }

  function SpecOf(cfg: Config, u: Universe, k: Key): Option<FormulaSpec> {
    if IsFormulaText(Raw(u, k)) then cfg.pattern(Strip(Raw(u, k).s)) else None
  }

  // ---------- The evaluator as a function ----------

  function Resolve(cfg: Config, u: Universe, cache: Cache, k: Key, visited: set<Id>): (Cache, Json)
    decreases u.atoms.Keys - visited, 0
  {
    var raw := Raw(u, k);
    if k in cache then (cache, cache[k])
    else if k.node !in u.atoms then (cache, JNull)
    else if !IsFormulaText(raw) then (cache[k := PlainValue(cfg, raw)], PlainValue(cfg, raw))
    else if k.node in visited then (cache[k := CIRC], CIRC)
    else
      match SpecOf(cfg, u, k)
      case None => (cache[k := raw], raw)
      case Some(spec) =>
        assert k.node in u.atoms.Keys - visited;
        var c := Collect(cfg, u, cache, Neighbors(u, k.node), spec.attr, visited + {k.node});
        var result := if c.hit then CIRC else JNum(Aggregate(spec.op, c.numbers));
        (c.cache[k := result], result)
  }

  function Collect(cfg: Config, u: Universe, cache: Cache, ids: seq<Id>, attr: string, visited: set<Id>): Collected
    decreases u.atoms.Keys - visited, |ids| + 1
  {
    if ids == [] then Collected(cache, [], false) else
      var last := |ids| - 1;
      var before := Collect(cfg, u, cache, ids[..last], attr, visited);
      var (after, v) := Resolve(cfg, u, before.cache, Key(ids[last], attr), visited);
      if v == CIRC then Collected(after, before.numbers, true)
      else match ToNumber(cfg, v)
        case Some(r) => Collected(after, before.numbers + [r], before.hit)
        case None => Collected(after, before.numbers, before.hit)
  }

  /** Resolves keys one after the other over one shared cache. */
  function Run(cfg: Config, u: Universe, queries: seq<Key>): (Cache, seq<Json>) {
    if queries == [] then (map[], []) else
      var last := |queries| - 1;
      var (cache, results) := Run(cfg, u, queries[..last]);
      var (after, v) := Resolve(cfg, u, cache, queries[last], {});
      (after, results + [v])
  }

  // ---------- The evaluator as the code runs it ----------

  class Evaluator {
    const cfg: Config
    const u: Universe
    var cache: Cache
    /** Every assignment to the cache, in order. */
    ghost var written: seq<(Key, Json)>

    constructor (cfg: Config, u: Universe)
      ensures this.cfg == cfg && this.u == u && cache == map[] && written == []
      ensures WriteOnce()
    {
      this.cfg, this.u := cfg, u;
      cache, written := map[], [];
    }

    /** No assignment ever replaced a value: each one still stands in the cache. */
    ghost predicate WriteOnce()
      reads this
    {
      forall i :: 0 <= i < |written| ==> written[i].0 in cache && cache[written[i].0] == written[i].1
    }

    method Put(k: Key, v: Json)
      requires WriteOnce() && (k in cache ==> cache[k] == v)
      modifies this
      ensures WriteOnce() && cache == old(cache)[k := v] && written == old(written) + [(k, v)]
    {
      cache := cache[k := v];
      written := written + [(k, v)];
    }

    method ResolveValue(k: Key, visited: set<Id>) returns (value: Json)
      requires WriteOnce()
      modifies this
      ensures WriteOnce() && old(written) <= written
      ensures (cache, value) == Resolve(cfg, u, old(cache), k, visited)
      decreases u.atoms.Keys - visited, 0
    {
      hide PlainValue, AggregateList, SpecOf, Aggregate, IsFormulaText;
      if k in cache {
        return cache[k];
      }
      if k.node !in u.atoms {
        return JNull;
      }
      var raw := Raw(u, k);
      if !IsFormulaText(raw) {
        value := PlainValue(cfg, raw);
        Put(k, value);
        return;
      }
      if k.node in visited {
        Put(k, CIRC);
        return CIRC;
      }
      var spec := SpecOf(cfg, u, k);
      if spec.None? {
        Put(k, raw);
        return raw;
      }
      assert k.node in u.atoms.Keys - visited;
      ghost var before := cache;
      var numbers, hit := CollectNumbers(Neighbors(u, k.node), spec.value.attr, visited + {k.node});
      value := if hit then CIRC else JNum(Aggregate(spec.value.op, numbers));
      CollectKeeps(cfg, u, before, Neighbors(u, k.node), spec.value.attr, visited + {k.node});
      Put(k, value);
    }

    method CollectNumbers(ids: seq<Id>, attr: string, visited: set<Id>) returns (numbers: seq<real>, hit: bool)
      requires WriteOnce()
      modifies this
      ensures WriteOnce() && old(written) <= written
      ensures Collected(cache, numbers, hit) == Collect(cfg, u, old(cache), ids, attr, visited)
      decreases u.atoms.Keys - visited, |ids| + 1
    {
      hide Resolve;
      numbers, hit := [], false;
      for i := 0 to |ids|
        invariant WriteOnce() && old(written) <= written
        invariant Collected(cache, numbers, hit) == Collect(cfg, u, old(cache), ids[..i], attr, visited)
      {
        assert ids[..i + 1][..i] == ids[..i];
        var v := ResolveValue(Key(ids[i], attr), visited);
        if v == CIRC {
          hit := true;
        } else {
          var r := ToNumber(cfg, v);
          if r.Some? {
            numbers := numbers + [r.value];
          }
        }
      }
      assert ids[..|ids|] == ids;
    }

    /** The top-level loop over every atom's fields. */
    method EvaluateUniverse(queries: seq<Key>) returns (results: seq<Json>)
      requires cache == map[] && written == []
      modifies this
      ensures WriteOnce() && (cache, results) == Run(cfg, u, queries)
    {
      hide Resolve;
      results := [];
      for i := 0 to |queries|
        invariant WriteOnce() && (cache, results) == Run(cfg, u, queries[..i])
      {
        assert queries[..i + 1][..i] == queries[..i];
        var v := ResolveValue(queries[i], {});
        results := results + [v];
      }
      assert queries[..|queries|] == queries;
    }
  }

  // ---------- Entries are permanent ----------

  predicate Keeps(before: Cache, after: Cache) {
    forall k :: k in before ==> k in after && after[k] == before[k]
  }

  /** A formula of an atom on the current path was written during the call. */
  predicate Marks(u: Universe, before: Cache, after: Cache, visited: set<Id>, k: Key) {
    k in after && k !in before && k.node in visited && IsFormulaText(Raw(u, k))
  }

  lemma {:induction false} ResolveKeeps(cfg: Config, u: Universe, cache: Cache, k: Key, visited: set<Id>)
    ensures var (after, v) := Resolve(cfg, u, cache, k, visited);
            && Keeps(cache, after)
            && (k.node in u.atoms ==> k in after && after[k] == v)
            && (forall x :: Marks(u, cache, after, visited, x) ==> after[x] == CIRC && v == CIRC)
    decreases u.atoms.Keys - visited, 0
  {
    hide PlainValue, AggregateList, Aggregate, IsFormulaText, SpecOf, Raw;
    if k !in cache && k.node in u.atoms && IsFormulaText(Raw(u, k)) && k.node !in visited && SpecOf(cfg, u, k).Some? {
      assert k.node in u.atoms.Keys - visited;
      var spec := SpecOf(cfg, u, k).value;
      var inner := visited + {k.node};
      CollectKeeps(cfg, u, cache, Neighbors(u, k.node), spec.attr, inner);
      var c := Collect(cfg, u, cache, Neighbors(u, k.node), spec.attr, inner);
      assert k in c.cache ==> Marks(u, cache, c.cache, inner, k);
      var (after, v) := Resolve(cfg, u, cache, k, visited);
      forall x | Marks(u, cache, after, visited, x) ensures after[x] == CIRC && v == CIRC {
        assert Marks(u, cache, c.cache, inner, x);
      }
    }
  }

  lemma {:induction false} CollectKeeps(cfg: Config, u: Universe, cache: Cache, ids: seq<Id>, attr: string, visited: set<Id>)
    ensures var c := Collect(cfg, u, cache, ids, attr, visited);
            && Keeps(cache, c.cache)
            && (forall x :: Marks(u, cache, c.cache, visited, x) ==> c.cache[x] == CIRC && c.hit)
    decreases u.atoms.Keys - visited, |ids| + 1
  {
    hide Resolve, IsFormulaText;
    if ids != [] {
      var last := |ids| - 1;
      CollectKeeps(cfg, u, cache, ids[..last], attr, visited);
      var before := Collect(cfg, u, cache, ids[..last], attr, visited);
      ResolveKeeps(cfg, u, before.cache, Key(ids[last], attr), visited);
      var c := Collect(cfg, u, cache, ids, attr, visited);
      forall x | Marks(u, cache, c.cache, visited, x) ensures c.cache[x] == CIRC && c.hit {
        assert Marks(u, cache, before.cache, visited, x) || Marks(u, before.cache, c.cache, visited, x);
      }
    }
  }

  // ---------- Against the denotation ----------

  function SetOf(ids: seq<Id>): set<Id> {
    set n | n in ids
  }

  function KeysAt(ids: set<Id>, attr: string): set<Key> {
    set n | n in ids :: Key(n, attr)
  }

  function KeysOf(u: Universe): set<Key> {
    set n, f | n in u.atoms && f in u.atoms[n] :: Key(n, f)
  }

  function CellFor(cfg: Config, u: Universe, k: Key): Cell {
    var raw := Raw(u, k);
    if !IsFormulaText(raw) then Leaf(PlainValue(cfg, raw)) else
      match SpecOf(cfg, u, k)
      case None => Leaf(raw)
      case Some(spec) => Formula(spec.op, KeysAt(SetOf(Neighbors(u, k.node)), spec.attr))
  }

  ghost function GraphOf(cfg: Config, u: Universe): Graph {
    Graph(map k | k in KeysOf(u) :: CellFor(cfg, u, k), v => ToNumber(cfg, v), FinalizeNumber)
  }

  /** Neighbour lists enumerate sets. */
  ghost predicate NoRepeats(u: Universe) {
    forall a, i, j :: a in u.neighbors && 0 <= i < j < |u.neighbors[a]| ==> u.neighbors[a][i] != u.neighbors[a][j]
  }

  lemma CellAtIsCellFor(cfg: Config, u: Universe, k: Key)
    ensures CellAt(GraphOf(cfg, u), k) == CellFor(cfg, u, k)
  {
  }

  lemma GraphParts(cfg: Config, u: Universe)
    ensures forall v :: GraphOf(cfg, u).number(v) == ToNumber(cfg, v)
    ensures forall r :: GraphOf(cfg, u).finalize(r) == FinalizeNumber(r)
  {
  }

  /** Entries other than the marker are the meaning of their keys. */
  ghost predicate Truthful(g: Graph, cache: Cache) {
    forall k :: k in cache && cache[k] != CIRC ==> cache[k] == Denote(g, k)
  }

  lemma {:induction false} ResolveIsTruthful(cfg: Config, u: Universe, cache: Cache, k: Key, visited: set<Id>)
    requires NoRepeats(u) && Truthful(GraphOf(cfg, u), cache)
    ensures var (after, v) := Resolve(cfg, u, cache, k, visited);
            Truthful(GraphOf(cfg, u), after) && (v != CIRC ==> v == Denote(GraphOf(cfg, u), k))
    decreases u.atoms.Keys - visited, 0
  {
    hide GraphOf, Denote, PlainValue, IsFormulaText, Aggregate, AggregateList, Combine, Gathered, SpecOf, Raw;
    var g := GraphOf(cfg, u);
    CellAtIsCellFor(cfg, u, k);
    DenoteEquation(g, k);
    if k !in cache && k.node in u.atoms && IsFormulaText(Raw(u, k)) && k.node !in visited && SpecOf(cfg, u, k).Some? {
      assert k.node in u.atoms.Keys - visited;
      var spec := SpecOf(cfg, u, k).value;
      var ids := Neighbors(u, k.node);
      CollectIsTruthful(cfg, u, cache, ids, spec.attr, visited + {k.node});
      var c := Collect(cfg, u, cache, ids, spec.attr, visited + {k.node});
      if !c.hit {
        FormulaDone(cfg, u, spec.op, KeysAt(SetOf(ids), spec.attr), c.numbers, false);
      }
    } else if k.node !in u.atoms {
      OutsideIsNull(cfg, u, k);
    }
  }

  lemma OutsideIsNull(cfg: Config, u: Universe, k: Key)
    requires k.node !in u.atoms
    ensures CellFor(cfg, u, k) == Leaf(JNull)
  {
  }

  lemma FormulaDone(cfg: Config, u: Universe, op: Op, ks: set<Key>, numbers: seq<real>, hit: bool)
    requires Gathered(GraphOf(cfg, u), ks, numbers, hit)
    ensures Combine(GraphOf(cfg, u), op, DenoteAll(GraphOf(cfg, u), ks)) ==
            if hit then CIRC else JNum(Aggregate(op, numbers))
  {
    hide GraphOf, Denote, Gathered, Combine, AggregateList;
    GatherDone(GraphOf(cfg, u), op, ks, numbers, hit);
    GraphParts(cfg, u);
  }

  lemma {:induction false} CollectIsTruthful(cfg: Config, u: Universe, cache: Cache, ids: seq<Id>, attr: string, visited: set<Id>)
    requires NoRepeats(u) && Truthful(GraphOf(cfg, u), cache)
    requires forall i, j :: 0 <= i < j < |ids| ==> ids[i] != ids[j]
    ensures var c := Collect(cfg, u, cache, ids, attr, visited);
            && Truthful(GraphOf(cfg, u), c.cache)
            && (!c.hit ==> Gathered(GraphOf(cfg, u), KeysAt(SetOf(ids), attr), c.numbers, false))
    decreases u.atoms.Keys - visited, |ids| + 1
  {
    hide Resolve, GraphOf, Denote, Gathered, ToNumber;
    var g := GraphOf(cfg, u);
    if ids == [] {
      assert KeysAt(SetOf(ids), attr) == {};
      GatherNone(g);
    } else {
      var last := |ids| - 1;
      var k := Key(ids[last], attr);
      CollectIsTruthful(cfg, u, cache, ids[..last], attr, visited);
      var before := Collect(cfg, u, cache, ids[..last], attr, visited);
      ResolveIsTruthful(cfg, u, before.cache, k, visited);
      LastIsNew(ids, attr);
      GraphParts(cfg, u);
      if Collect(cfg, u, cache, ids, attr, visited).hit {
      } else {
        GatherNext(g, KeysAt(SetOf(ids[..last]), attr), before.numbers, false, k);
      }
    }
  }

  lemma LastIsNew(ids: seq<Id>, attr: string)
    requires ids != []
    requires forall i, j :: 0 <= i < j < |ids| ==> ids[i] != ids[j]
    ensures var last := |ids| - 1; var k := Key(ids[last], attr);
            && k !in KeysAt(SetOf(ids[..last]), attr)
            && KeysAt(SetOf(ids), attr) == KeysAt(SetOf(ids[..last]), attr) + {k}
  {
    var last := |ids| - 1;
    assert ids == ids[..last] + [ids[last]];
    assert SetOf(ids) == SetOf(ids[..last]) + {ids[last]};
  }

  /**
   One-sided soundness, for every iteration order and every list of queries: an answer other than
   the marker is the denotation, and a key that reaches a cycle is always answered with the marker.
   */
  lemma {:induction false} LegacyIsTruthful(cfg: Config, u: Universe, queries: seq<Key>, i: nat)
    requires NoRepeats(u) && i < |queries|
    ensures Truthful(GraphOf(cfg, u), Run(cfg, u, queries).0)
    ensures i < |Run(cfg, u, queries).1|
    ensures Run(cfg, u, queries).1[i] != CIRC ==> Run(cfg, u, queries).1[i] == Denote(GraphOf(cfg, u), queries[i])
    ensures Circular(GraphOf(cfg, u), queries[i]) ==> Run(cfg, u, queries).1[i] == CIRC
    decreases |queries|
  {
    hide Resolve, GraphOf, Denote, Circular;
    var last := |queries| - 1;
    CircularIff(GraphOf(cfg, u), queries[i]);
    RunLength(cfg, u, queries);
    RunLength(cfg, u, queries[..last]);
    if last > 0 {
      LegacyIsTruthful(cfg, u, queries[..last], if i < last then i else 0);
    }
    ResolveIsTruthful(cfg, u, Run(cfg, u, queries[..last]).0, queries[last], {});
  }

  lemma {:induction false} RunLength(cfg: Config, u: Universe, queries: seq<Key>)
    ensures |Run(cfg, u, queries).1| == |queries|
  {
    hide Resolve;
    if queries != [] { RunLength(cfg, u, queries[..|queries| - 1]); }
  }

  // ---------- What the values mean ----------

  /** Every bond joins its two ends in both directions. */
  method BuildAdjacency(bonds: seq<(Id, Id)>) returns (adjacency: map<Id, set<Id>>)
    ensures forall a, x :: (a in adjacency && x in adjacency[a]) <==> (a, x) in bonds || (x, a) in bonds
    ensures forall a :: a in adjacency ==> adjacency[a] != {}
  {
    adjacency := map[];
    for i := 0 to |bonds|
      invariant forall a, x :: (a in adjacency && x in adjacency[a]) <==> (a, x) in bonds[..i] || (x, a) in bonds[..i]
      invariant forall a :: a in adjacency ==> adjacency[a] != {}
    {
      var (source, target) := bonds[i];
      assert bonds[..i + 1] == bonds[..i] + [(source, target)];
      adjacency := adjacency[source := (if source in adjacency then adjacency[source] else {}) + {target}];
      adjacency := adjacency[target := (if target in adjacency then adjacency[target] else {}) + {source}];
    }
    assert bonds[..|bonds|] == bonds;
  }

  /** Rounding goes to an integer no farther than a half away, and to the even one of two. */
  lemma RoundMeans(r: real)
    ensures -0.5 <= r - Round(r) as real <= 0.5
    ensures r - Round(r) as real == 0.5 || r - Round(r) as real == -0.5 ==> Round(r) % 2 == 0
  {
  }

  /** A number within a billionth of an integer becomes that integer; any other stays as it is. */
  lemma FinalizeMeans(r: real, n: int)
    ensures -0.000000001 < r - n as real < 0.000000001 ==> FinalizeNumber(r) == n as real
    ensures FinalizeNumber(r) == r || (FinalizeNumber(r) == Round(r) as real && -0.000000001 < r - Round(r) as real < 0.000000001)
  {
    RoundMeans(r);
    hide Round;
    var m := Round(r);
    if -0.000000001 < r - n as real < 0.000000001 {
      SameInteger(m, n, r);
    }
  }

  lemma SameInteger(m: int, n: int, r: real)
    requires -0.5 <= r - m as real <= 0.5 && -0.000000001 < r - n as real < 0.000000001
    ensures m == n
  {
    var d := m - n;
    assert d as real == m as real - n as real;
    assert -1.0 < d as real < 1.0;
  }

  /** What counts as a number. */
  lemma NumbersRead(cfg: Config, v: Json, r: real)
    ensures ToNumber(cfg, v) == Some(r) <==> v == JNum(r) || (v.JText? && cfg.numeral(v.s) == Some(r))
  {
  }

  /** A field that asks for no formula is its number, finished, or stays as it is; so does an unreadable formula. */
  lemma PlainFieldMeans(cfg: Config, u: Universe, k: Key)
    requires k.node in u.atoms && k.field in u.atoms[k.node]
    ensures var raw, value := u.atoms[k.node][k.field], Denote(GraphOf(cfg, u), k);
            var asks := raw.JText? && "=" <= Strip(raw.s);
            && (!asks && ToNumber(cfg, raw).Some? ==> value == JNum(FinalizeNumber(ToNumber(cfg, raw).value)))
            && (!asks && ToNumber(cfg, raw).None? ==> value == raw)
            && (asks && cfg.pattern(Strip(raw.s)).None? ==> value == raw)
  {
    hide Strip, FinalizeNumber, GraphOf, Denote, Combine;
    CellAtIsCellFor(cfg, u, k);
    DenoteEquation(GraphOf(cfg, u), k);
  }

  /** A formula field means what the aggregate of the named attribute over all neighbours means, circular iff one of them is. */
  lemma FormulaFieldMeans(cfg: Config, u: Universe, k: Key, spec: FormulaSpec)
    requires k.node in u.atoms && k.field in u.atoms[k.node] && u.atoms[k.node][k.field].JText?
    requires var text := Strip(u.atoms[k.node][k.field].s); "=" <= text && cfg.pattern(text) == Some(spec)
    ensures var g := GraphOf(cfg, u);
            var sources := set n | k.node in u.neighbors && n in u.neighbors[k.node] :: Key(n, spec.attr);
            var numbers := map s | s in sources && ToNumber(cfg, Denote(g, s)).Some? :: ToNumber(cfg, Denote(g, s)).value;
            && (Denote(g, k) == CIRC <==> exists s :: s in sources && Denote(g, s) == CIRC)
            && (Denote(g, k) != CIRC ==> Aggregates(FinalizeNumber, spec.op, numbers, Denote(g, k)))
  {
    hide Strip, FinalizeNumber, GraphOf, Denote, Combine, Aggregates, ToNumber;
    var g := GraphOf(cfg, u);
    var sources := set n | k.node in u.neighbors && n in u.neighbors[k.node] :: Key(n, spec.attr);
    assert KeysAt(SetOf(Neighbors(u, k.node)), spec.attr) == sources;
    CellAtIsCellFor(cfg, u, k);
    DenoteEquation(g, k);
    var vals := DenoteAll(g, sources);
    CombineMeans(g, spec.op, vals);
    GraphParts(cfg, u);
    assert g.finalize == FinalizeNumber by { FinishesWith(cfg, u); }
    var numbers := map s | s in sources && ToNumber(cfg, Denote(g, s)).Some? :: ToNumber(cfg, Denote(g, s)).value;
    assert (map d | d in vals && g.number(vals[d]).Some? :: g.number(vals[d]).value) == numbers;
    if s :| s in sources && Denote(g, s) == CIRC { assert s in vals && vals[s] == CIRC; }
  }

  lemma FinishesWith(cfg: Config, u: Universe)
    ensures GraphOf(cfg, u).finalize == FinalizeNumber
  {
  }
}
