/**
 Exactly when the first-generation evaluator is right on every key, whatever order its sets and
 dictionaries are iterated in: when no dependency walk over distinct atoms returns to its first
 atom at a formula that is not itself circular.
 */
module LegacyExactness {
  import opened Values
  import opened FormulaGraph
  import opened Aggregation
  import opened LegacyCalc

  /** A walk over distinct atoms that ends at a non-circular formula of the atom it started from. */
  ghost predicate FalseRevisit(cfg: Config, u: Universe, p: seq<Key>) {
    && |p| >= 2 && Walk(GraphOf(cfg, u), p) && DistinctAtoms(p[..|p| - 1])
    && p[|p| - 1].node == p[0].node
    && IsFormulaText(Raw(u, p[|p| - 1]))
    && Denote(GraphOf(cfg, u), p[|p| - 1]) != CIRC
  }

  predicate DistinctAtoms(p: seq<Key>) {
    forall i, j :: 0 <= i < j < |p| ==> p[i].node != p[j].node
  }

  function AtomsOf(p: seq<Key>): set<Id> {
    set i | 0 <= i < |p| :: p[i].node
  }

  ghost predicate Exact(g: Graph, cache: Cache) {
    forall k :: k in cache ==> cache[k] == Denote(g, k)
  }

  // ---------- Without a false revisit every answer is exact ----------

  lemma RevisitIsCircular(cfg: Config, u: Universe, p: seq<Key>, k: Key)
    requires !exists q :: FalseRevisit(cfg, u, q)
    requires Walk(GraphOf(cfg, u), p + [k]) && DistinctAtoms(p)
    requires k.node in AtomsOf(p) && IsFormulaText(Raw(u, k))
    ensures Denote(GraphOf(cfg, u), k) == CIRC
  {
    hide GraphOf, Denote, IsFormulaText, Raw;
    var j :| 0 <= j < |p| && p[j].node == k.node;
    var q := (p + [k])[j..];
    assert q[..|q| - 1] == p[j..];
    assert q[|q| - 1] == k;
    forall i | 0 <= i < |q| - 1 ensures q[i + 1] in Deps(GraphOf(cfg, u), q[i]) {
      assert q[i] == (p + [k])[j + i] && q[i + 1] == (p + [k])[j + i + 1];
    }
    assert !FalseRevisit(cfg, u, q);
  }

  lemma {:induction false} ResolveIsExact(cfg: Config, u: Universe, cache: Cache, k: Key, p: seq<Key>)
    requires NoRepeats(u) && !exists q :: FalseRevisit(cfg, u, q)
    requires Walk(GraphOf(cfg, u), p + [k]) && DistinctAtoms(p)
    requires Exact(GraphOf(cfg, u), cache)
    ensures var (after, v) := Resolve(cfg, u, cache, k, AtomsOf(p));
            Exact(GraphOf(cfg, u), after) && v == Denote(GraphOf(cfg, u), k)
    decreases u.atoms.Keys - AtomsOf(p), 0
  {
    hide GraphOf, Denote, PlainValue, IsFormulaText, Aggregate, AggregateList, Combine, Gathered, FalseRevisit, SpecOf, Raw;
    var g := GraphOf(cfg, u);
    CellAtIsCellFor(cfg, u, k);
    DenoteEquation(g, k);
    if k.node !in u.atoms {
      OutsideIsNull(cfg, u, k);
    } else if k !in cache && IsFormulaText(Raw(u, k)) {
      if k.node in AtomsOf(p) {
        RevisitIsCircular(cfg, u, p, k);
      } else if SpecOf(cfg, u, k).Some? {
        var spec := SpecOf(cfg, u, k).value;
        var ids := Neighbors(u, k.node);
        var inner := p + [k];
        assert AtomsOf(inner) == AtomsOf(p) + {k.node} by {
          assert inner[|p|] == k;
          assert forall i :: 0 <= i < |p| ==> inner[i] == p[i];
        }
        DistinctExtend(p, k);
        assert k.node in u.atoms.Keys - AtomsOf(p);
        CollectIsExact(cfg, u, cache, ids, spec.attr, inner);
        var c := Collect(cfg, u, cache, ids, spec.attr, AtomsOf(inner));
        FormulaDone(cfg, u, spec.op, KeysAt(SetOf(ids), spec.attr), c.numbers, c.hit);
      }
    }
  }

  lemma DistinctExtend(p: seq<Key>, k: Key)
    requires DistinctAtoms(p) && k.node !in AtomsOf(p)
    ensures DistinctAtoms(p + [k])
  {
    forall i | 0 <= i < |p| ensures p[i].node in AtomsOf(p) {}
  }

  lemma {:induction false} CollectIsExact(cfg: Config, u: Universe, cache: Cache, ids: seq<Id>, attr: string, p: seq<Key>)
    requires NoRepeats(u) && !exists q :: FalseRevisit(cfg, u, q)
    requires p != [] && Walk(GraphOf(cfg, u), p) && DistinctAtoms(p)
    requires forall i :: 0 <= i < |ids| ==> Key(ids[i], attr) in Deps(GraphOf(cfg, u), p[|p| - 1])
    requires forall i, j :: 0 <= i < j < |ids| ==> ids[i] != ids[j]
    requires Exact(GraphOf(cfg, u), cache)
    ensures var c := Collect(cfg, u, cache, ids, attr, AtomsOf(p));
            Exact(GraphOf(cfg, u), c.cache) && Gathered(GraphOf(cfg, u), KeysAt(SetOf(ids), attr), c.numbers, c.hit)
    decreases u.atoms.Keys - AtomsOf(p), |ids| + 1
  {
    hide Resolve, GraphOf, Denote, Gathered, ToNumber, FalseRevisit, Deps;
    var g := GraphOf(cfg, u);
    if ids == [] {
      assert KeysAt(SetOf(ids), attr) == {};
      GatherNone(g);
    } else {
      var last := |ids| - 1;
      var k := Key(ids[last], attr);
      CollectIsExact(cfg, u, cache, ids[..last], attr, p);
      var before := Collect(cfg, u, cache, ids[..last], attr, AtomsOf(p));
      ResolveIsExact(cfg, u, before.cache, k, p);
      LastIsNew(ids, attr);
      GraphParts(cfg, u);
      GatherNext(g, KeysAt(SetOf(ids[..last]), attr), before.numbers, before.hit, k);
    }
  }

  ghost predicate ExactRun(cfg: Config, u: Universe, queries: seq<Key>) {
    var results := Run(cfg, u, queries).1;
    |results| == |queries| && forall i :: 0 <= i < |queries| ==> results[i] == Denote(GraphOf(cfg, u), queries[i])
  }

  lemma {:induction false} RunIsExact(cfg: Config, u: Universe, queries: seq<Key>)
    requires NoRepeats(u) && !exists q :: FalseRevisit(cfg, u, q)
    ensures Exact(GraphOf(cfg, u), Run(cfg, u, queries).0) && ExactRun(cfg, u, queries)
  {
    hide Resolve, GraphOf, Denote, FalseRevisit;
    RunLength(cfg, u, queries);
    if queries != [] {
      var last := |queries| - 1;
      RunIsExact(cfg, u, queries[..last]);
      assert AtomsOf([]) == {};
      assert [] + [queries[last]] == [queries[last]];
      ResolveIsExact(cfg, u, Run(cfg, u, queries[..last]).0, queries[last], []);
    }
  }

  // ---------- A false revisit can be made to show ----------

  /** The same atoms and edges, iterated in another order. */
  ghost predicate Reordered(u: Universe, w: Universe) {
    && w.atoms == u.atoms && NoRepeats(w)
    && forall a :: SetOf(Neighbors(w, a)) == SetOf(Neighbors(u, a))
  }

  lemma CellIgnoresOrder(cfg: Config, u: Universe, w: Universe, k: Key)
    requires Reordered(u, w)
    ensures CellFor(cfg, w, k) == CellFor(cfg, u, k)
  {
    hide IsFormulaText, PlainValue;
    assert Raw(w, k) == Raw(u, k);
  }

  lemma ReorderingKeepsMeaning(cfg: Config, u: Universe, w: Universe)
    requires Reordered(u, w)
    ensures GraphOf(cfg, w) == GraphOf(cfg, u)
  {
    forall k ensures CellFor(cfg, w, k) == CellFor(cfg, u, k) {
      CellIgnoresOrder(cfg, u, w, k);
    }
    hide CellFor;
    assert GraphOf(cfg, w).cells == GraphOf(cfg, u).cells;
  }

  /** Whichever atom of the walk is met first, its next step is the first neighbour tried. */
  ghost predicate Leads(w: Universe, p: seq<Key>) {
    forall i :: 0 <= i < |p| - 1 ==>
      && p[i].node in w.neighbors && w.neighbors[p[i].node] != []
      && w.neighbors[p[i].node][0] == p[i + 1].node
  }

  lemma WalkStep(cfg: Config, u: Universe, p: seq<Key>, i: nat)
    requires Walk(GraphOf(cfg, u), p) && i < |p| - 1
    ensures IsFormulaText(Raw(u, p[i])) && SpecOf(cfg, u, p[i]).Some?
    ensures SpecOf(cfg, u, p[i]).value.attr == p[i + 1].field
    ensures p[i + 1].node in Neighbors(u, p[i].node) && p[i].node in u.neighbors && p[i].node in u.atoms
  {
    CellAtIsCellFor(cfg, u, p[i]);
    assert p[i + 1] in Deps(GraphOf(cfg, u), p[i]);
  }

  lemma {:induction false} Descend(cfg: Config, w: Universe, p: seq<Key>, i: nat)
    requires |p| >= 2 && i < |p| && Walk(GraphOf(cfg, w), p) && DistinctAtoms(p[..|p| - 1])
    requires p[|p| - 1].node == p[0].node && IsFormulaText(Raw(w, p[|p| - 1]))
    requires Leads(w, p)
    ensures i > 0 ==>
              var after := Resolve(cfg, w, map[], p[i], AtomsOf(p[..i])).0;
              p[|p| - 1] in after && after[p[|p| - 1]] == CIRC
    ensures i == 0 ==>
              var after := Resolve(cfg, w, map[], p[0], {}).0;
              p[|p| - 1] in after && after[p[|p| - 1]] == CIRC
    decreases |p| - i
  {
    hide GraphOf, IsFormulaText, SpecOf, Aggregate;
    var last := |p| - 1;
    assert i == 0 ==> AtomsOf(p[..0]) == {};
    if i == last {
      assert p[..i][0] == p[0];
      WalkStep(cfg, w, p, 0);
    } else {
      WalkStep(cfg, w, p, i);
      assert p[i].node !in AtomsOf(p[..i]) by {
        forall j | 0 <= j < i ensures p[..i][j].node != p[i].node {
          assert p[..last][j] == p[j] && p[..last][i] == p[i];
        }
      }
      assert AtomsOf(p[..i + 1]) == AtomsOf(p[..i]) + {p[i].node} by {
        assert p[..i + 1][i] == p[i];
        assert forall j :: 0 <= j < i ==> p[..i + 1][j] == p[..i][j];
      }
      Descend(cfg, w, p, i + 1);
      FirstNeighborStays(cfg, w, Neighbors(w, p[i].node), p[i + 1].field, AtomsOf(p[..i + 1]));
      ResolveKeeps(cfg, w, map[], p[i], AtomsOf(p[..i]));
      ResolveExtendsCollect(cfg, w, p[i], AtomsOf(p[..i]));
    }
  }

  /** Whatever resolving the first neighbour puts into an empty cache is still there at the end of the loop. */
  lemma {:induction false} FirstNeighborStays(cfg: Config, w: Universe, ids: seq<Id>, attr: string, visited: set<Id>)
    requires ids != []
    ensures Keeps(Resolve(cfg, w, map[], Key(ids[0], attr), visited).0, Collect(cfg, w, map[], ids, attr, visited).cache)
  {
    hide Resolve;
    var last := |ids| - 1;
    var before := Collect(cfg, w, map[], ids[..last], attr, visited);
    ResolveKeeps(cfg, w, before.cache, Key(ids[last], attr), visited);
    if last > 0 {
      FirstNeighborStays(cfg, w, ids[..last], attr, visited);
    }
  }

  lemma ResolveExtendsCollect(cfg: Config, w: Universe, k: Key, visited: set<Id>)
    requires k.node in w.atoms && k.node !in visited && IsFormulaText(Raw(w, k)) && SpecOf(cfg, w, k).Some?
    ensures Keeps(Collect(cfg, w, map[], Neighbors(w, k.node), SpecOf(cfg, w, k).value.attr, visited + {k.node}).cache,
                  Resolve(cfg, w, map[], k, visited).0)
  {
    hide IsFormulaText, SpecOf, Aggregate;
    var c := Collect(cfg, w, map[], Neighbors(w, k.node), SpecOf(cfg, w, k).value.attr, visited + {k.node});
    CollectKeeps(cfg, w, map[], Neighbors(w, k.node), SpecOf(cfg, w, k).value.attr, visited + {k.node});
    assert k in c.cache ==> Marks(w, map[], c.cache, visited + {k.node}, k);
  }

  /** Moves `x` to the front. */
  ghost function ToFront(s: seq<Id>, x: Id): (r: seq<Id>)
    requires x in s
    requires forall i, j :: 0 <= i < j < |s| ==> s[i] != s[j]
    ensures r != [] && r[0] == x && SetOf(r) == SetOf(s)
    ensures forall i, j :: 0 <= i < j < |r| ==> r[i] != r[j]
  {
    var i :| 0 <= i < |s| && s[i] == x;
    var r := [x] + (s[..i] + s[i + 1..]);
    assert s == s[..i] + [x] + s[i + 1..];
    r
  }

  ghost function FirstAt(p: seq<Key>, a: Id): (i: nat)
    requires a in AtomsOf(p)
    ensures i < |p| && p[i].node == a
  {
    var i :| 0 <= i < |p| && p[i].node == a;
    i
  }

  lemma Steer(cfg: Config, u: Universe, p: seq<Key>) returns (w: Universe)
    requires NoRepeats(u) && |p| >= 2 && Walk(GraphOf(cfg, u), p) && DistinctAtoms(p[..|p| - 1])
    ensures Reordered(u, w) && Leads(w, p)
  {
    hide GraphOf;
    var path := p[..|p| - 1];
    forall i | 0 <= i < |path| ensures p[i + 1].node in Neighbors(u, p[i].node) && p[i].node in u.neighbors {
      WalkStep(cfg, u, p, i);
    }
    hide Walk;
    assert forall i :: 0 <= i < |path| ==> path[i] == p[i];
    w := Universe(u.atoms, map a | a in u.neighbors :: Steered(u, p, a));
    forall i | 0 <= i < |p| - 1 ensures Steered(u, p, p[i].node) != [] && Steered(u, p, p[i].node)[0] == p[i + 1].node {
      assert path[i] == p[i] && p[i].node in AtomsOf(path);
      assert FirstAt(path, p[i].node) == i;
    }
  }

  /** The neighbours of an atom, the next step of the walk first if the atom is on it. */
  ghost function Steered(u: Universe, p: seq<Key>, a: Id): (r: seq<Id>)
    requires NoRepeats(u) && p != [] && a in u.neighbors
    requires forall i :: 0 <= i < |p| - 1 ==> p[i + 1].node in Neighbors(u, p[i].node)
    ensures SetOf(r) == SetOf(u.neighbors[a])
    ensures forall i, j :: 0 <= i < j < |r| ==> r[i] != r[j]
  {
    var path := p[..|p| - 1];
    if a in AtomsOf(path) then
      var i := FirstAt(path, a);
      assert path[i] == p[i] && p[i + 1].node in Neighbors(u, p[i].node);
      ToFront(u.neighbors[a], p[i + 1].node)
    else u.neighbors[a]
  }

  // ---------- The order of the top-level loop ----------

  function KeysFor(a: Id, fields: seq<string>): (ks: seq<Key>)
    ensures |ks| == |fields|
    ensures forall i :: 0 <= i < |fields| ==> ks[i] == Key(a, fields[i])
  {
    seq(|fields|, i requires 0 <= i < |fields| => Key(a, fields[i]))
  }

  /** Atom by atom, and within an atom field by field. */
  function AgendaOf(order: seq<Id>, fields: map<Id, seq<string>>): seq<Key> {
    if order == [] then [] else
      (if order[0] in fields then KeysFor(order[0], fields[order[0]]) else []) + AgendaOf(order[1..], fields)
  }

  ghost predicate Enumerates<T(!new)>(s: seq<T>, whole: set<T>) {
    (forall i, j :: 0 <= i < j < |s| ==> s[i] != s[j]) && (forall x :: x in s <==> x in whole)
  }

  ghost predicate IsAgenda(u: Universe, order: seq<Id>, fields: map<Id, seq<string>>) {
    && Enumerates(order, u.atoms.Keys) && fields.Keys == u.atoms.Keys
    && forall a :: a in u.atoms ==> Enumerates(fields[a], u.atoms[a].Keys)
  }

  ghost function Enumerate<T(!new)>(s: set<T>): (r: seq<T>)
    ensures Enumerates(r, s)
    decreases |s|
  {
    if s == {} then [] else
      var x :| x in s;
      [x] + Enumerate(s - {x})
  }

  ghost function EnumerateFrom<T(!new)>(x: T, s: set<T>): (r: seq<T>)
    requires x in s
    ensures Enumerates(r, s) && r != [] && r[0] == x
  {
    [x] + Enumerate(s - {x})
  }

  lemma {:induction false} AgendaHas(u: Universe, order: seq<Id>, fields: map<Id, seq<string>>, k: Key)
    requires k.node in order && k.node in fields && k.field in fields[k.node]
    ensures k in AgendaOf(order, fields)
  {
    if order[0] == k.node {
      var i :| 0 <= i < |fields[k.node]| && fields[k.node][i] == k.field;
      assert KeysFor(k.node, fields[k.node])[i] == k;
    } else {
      AgendaHas(u, order[1..], fields, k);
    }
  }

  /** Later queries leave earlier entries alone, and every answer is what stands in the cache. */
  lemma {:induction false} RunKeeps(cfg: Config, u: Universe, queries: seq<Key>, m: nat, i: nat)
    requires m <= |queries| && i < |queries| && queries[i].node in u.atoms
    ensures Keeps(Run(cfg, u, queries[..m]).0, Run(cfg, u, queries).0)
    ensures |Run(cfg, u, queries).1| == |queries|
    ensures queries[i] in Run(cfg, u, queries).0 && Run(cfg, u, queries).0[queries[i]] == Run(cfg, u, queries).1[i]
    decreases |queries|
  {
    hide Resolve;
    var last := |queries| - 1;
    var before := queries[..last];
    RunLength(cfg, u, queries);
    RunLength(cfg, u, before);
    ResolveKeeps(cfg, u, Run(cfg, u, before).0, queries[last], {});
    if m <= last { assert before[..m] == queries[..m]; } else { assert queries[..m] == queries; }
    if i < last {
      RunKeeps(cfg, u, before, if m <= last then m else 0, i);
    } else if last > 0 && m <= last {
      RunPrefix(cfg, u, before, m);
    }
  }

  lemma {:induction false} RunPrefix(cfg: Config, u: Universe, queries: seq<Key>, m: nat)
    requires m <= |queries|
    ensures Keeps(Run(cfg, u, queries[..m]).0, Run(cfg, u, queries).0)
  {
    hide Resolve;
    if m == |queries| {
      assert queries[..m] == queries;
    } else {
      var before := queries[..|queries| - 1];
      assert before[..m] == queries[..m];
      RunPrefix(cfg, u, before, m);
      ResolveKeeps(cfg, u, Run(cfg, u, before).0, queries[|queries| - 1], {});
    }
  }

  /** Starting at the head of the walk, the first query leaves the marker where it does not belong. */
  lemma MarkerStays(cfg: Config, w: Universe, p: seq<Key>, queries: seq<Key>, i: nat)
    requires FalseRevisit(cfg, w, p) && Leads(w, p)
    requires i < |queries| && queries[0] == p[0] && queries[i] == p[|p| - 1] && queries[i].node in w.atoms
    ensures !ExactRun(cfg, w, queries)
  {
    hide GraphOf, Denote, Resolve, IsFormulaText;
    var first := [p[0]];
    assert queries[..1] == first && first[..0] == [];
    Descend(cfg, w, p, 0);
    assert Run(cfg, w, first).0 == Resolve(cfg, w, map[], p[0], {}).0;
    RunKeeps(cfg, w, queries, 1, i);
  }

  lemma AgendaFrom(u: Universe, k: Key) returns (order: seq<Id>, fields: map<Id, seq<string>>)
    requires k.node in u.atoms && k.field in u.atoms[k.node]
    ensures IsAgenda(u, order, fields)
    ensures AgendaOf(order, fields) != [] && AgendaOf(order, fields)[0] == k
  {
    order := EnumerateFrom(k.node, u.atoms.Keys);
    fields := map a | a in u.atoms ::
      if a == k.node then EnumerateFrom(k.field, u.atoms[a].Keys) else Enumerate(u.atoms[a].Keys);
  }

  lemma RevisitShows(cfg: Config, u: Universe, p: seq<Key>)
    returns (w: Universe, order: seq<Id>, fields: map<Id, seq<string>>)
    requires NoRepeats(u) && FalseRevisit(cfg, u, p)
    ensures Reordered(u, w) && IsAgenda(u, order, fields) && !ExactRun(cfg, w, AgendaOf(order, fields))
  {
    hide GraphOf, Denote, IsFormulaText, SpecOf, ExactRun, AgendaOf;
    w := Steer(cfg, u, p);
    ReorderingKeepsMeaning(cfg, u, w);
    RevisitTransfers(cfg, u, w, p);
    WalkStep(cfg, u, p, 0);
    FormulaIsField(u, p[0]);
    FormulaIsField(u, p[|p| - 1]);
    order, fields := AgendaFrom(u, p[0]);
    AgendaHas(u, order, fields, p[|p| - 1]);
    var queries := AgendaOf(order, fields);
    var i :| 0 <= i < |queries| && queries[i] == p[|p| - 1];
    MarkerStays(cfg, w, p, queries, i);
  }

  lemma FormulaIsField(u: Universe, k: Key)
    requires IsFormulaText(Raw(u, k))
    ensures k.node in u.atoms && k.field in u.atoms[k.node]
  {
  }

  /** The exact condition, over all iteration orders of the sets and dictionaries involved. */
  lemma LegacyExactIff(cfg: Config, u: Universe)
    requires NoRepeats(u)
    ensures (forall w, order, fields :: Reordered(u, w) && IsAgenda(u, order, fields) ==>
               ExactRun(cfg, w, AgendaOf(order, fields)))
            <==> !exists p :: FalseRevisit(cfg, u, p)
  {
    hide ExactRun, FalseRevisit, AgendaOf, IsAgenda;
    if p :| FalseRevisit(cfg, u, p) {
      var w, order, fields := RevisitShows(cfg, u, p);
    } else {
      forall w, order, fields | Reordered(u, w) && IsAgenda(u, order, fields)
        ensures ExactRun(cfg, w, AgendaOf(order, fields))
      {
        ReorderingKeepsMeaning(cfg, u, w);
        forall q ensures !FalseRevisit(cfg, w, q) { RevisitTransfers(cfg, u, w, q); }
        RunIsExact(cfg, w, AgendaOf(order, fields));
      }
    }
  }

  lemma RevisitTransfers(cfg: Config, u: Universe, w: Universe, q: seq<Key>)
    requires w.atoms == u.atoms && GraphOf(cfg, w) == GraphOf(cfg, u)
    ensures FalseRevisit(cfg, w, q) == FalseRevisit(cfg, u, q)
  {
    hide GraphOf, Denote, IsFormulaText;
    if q != [] { assert Raw(w, q[|q| - 1]) == Raw(u, q[|q| - 1]); }
  }

  // ---------- The smallest false alarm ----------

  /** Two linked atoms; the formula `h` depends on a missing field only. */
  const LINKED: Universe := Universe(
    map[0 := map["f" := JText("=SUM(g)"), "h" := JText("=SUM(z)")], 1 := map["g" := JText("=SUM(h)")]],
    map[0 := [1], 1 := [0]])

  const DETOUR: seq<Key> := [Key(0, "f"), Key(1, "g"), Key(0, "h")]

  predicate ReadsSums(cfg: Config) {
    && cfg.pattern("=SUM(g)") == Some(FormulaSpec(Sum, "g"))
    && cfg.pattern("=SUM(h)") == Some(FormulaSpec(Sum, "h"))
    && cfg.pattern("=SUM(z)") == Some(FormulaSpec(Sum, "z"))
  }

  lemma LinkedCell(cfg: Config, k: Key, text: string, attr: string, other: Id)
    requires Raw(LINKED, k) == JText(text) && |text| == 7 && text[0] == '=' && text[6] == ')'
    requires cfg.pattern(text) == Some(FormulaSpec(Sum, attr)) && Neighbors(LINKED, k.node) == [other]
    ensures IsFormulaText(Raw(LINKED, k))
    ensures CellAt(GraphOf(cfg, LINKED), k) == Formula(Sum, {Key(other, attr)})
  {
    hide Raw, Neighbors, Strip, GraphOf, CellAt, PlainValue, SetOf, KeysAt;
    assert !IsSpace('=') && !IsSpace(')');
    StripFixes(text);
    assert StartsWith(text, "=");
    CellAtIsCellFor(cfg, LINKED, k);
    OneNeighbor(other, attr);
  }

  lemma OneNeighbor(a: Id, attr: string)
    ensures KeysAt(SetOf([a]), attr) == {Key(a, attr)}
  {
    assert SetOf([a]) == {a};
  }

  /** Its value is a number, yet some order of iteration makes the evaluator answer with the marker. */
  lemma SmallestFalseAlarm(cfg: Config) returns (w: Universe, order: seq<Id>, fields: map<Id, seq<string>>)
    requires ReadsSums(cfg)
    ensures Denote(GraphOf(cfg, LINKED), Key(0, "h")).JNum?
    ensures Reordered(LINKED, w) && IsAgenda(LINKED, order, fields) && !ExactRun(cfg, w, AgendaOf(order, fields))
  {
    hide GraphOf, Denote, IsFormulaText, IsAgenda, ExactRun, Reordered, AgendaOf;
    LinkedCell(cfg, DETOUR[0], "=SUM(g)", "g", 1);
    LinkedCell(cfg, DETOUR[1], "=SUM(h)", "h", 0);
    LinkedCell(cfg, DETOUR[2], "=SUM(z)", "z", 1);
    HasNumber(cfg);
    var g := GraphOf(cfg, LINKED);
    forall i | 0 <= i < |DETOUR| - 1 ensures DETOUR[i + 1] in Deps(g, DETOUR[i]) {}
    assert FalseRevisit(cfg, LINKED, DETOUR);
    w, order, fields := RevisitShows(cfg, LINKED, DETOUR);
  }

  lemma HasNumber(cfg: Config)
    requires ReadsSums(cfg)
    ensures Denote(GraphOf(cfg, LINKED), Key(0, "h")).JNum?
  {
    hide GraphOf, Denote, Combine, CellFor;
    var g := GraphOf(cfg, LINKED);
    LinkedCell(cfg, Key(0, "h"), "=SUM(z)", "z", 1);
    MissingIsNull(cfg, g, Key(1, "z"));
    DenoteEquation(g, Key(0, "h"));
    NullSumIsNumber(g, Key(1, "z"));
  }

  lemma MissingIsNull(cfg: Config, g: Graph, k: Key)
    requires g == GraphOf(cfg, LINKED) && k == Key(1, "z")
    ensures Denote(g, k) == JNull
  {
    hide GraphOf, Denote, Combine, ToNumber;
    CellAtIsCellFor(cfg, LINKED, k);
    DenoteEquation(g, k);
    assert Raw(LINKED, k) == JNull;
    assert PlainValue(cfg, JNull) == JNull by { NullIsPlain(cfg); }
  }

  lemma NullIsPlain(cfg: Config)
    ensures PlainValue(cfg, JNull) == JNull
  {
  }

  lemma NullSumIsNumber(g: Graph, k: Key)
    requires Denote(g, k) == JNull
    ensures Combine(g, Sum, DenoteAll(g, {k})).JNum?
  {
    hide Denote, Finished;
    assert forall d :: d in DenoteAll(g, {k}) ==> d == k;
    SumIsNumber(g, Numbers(g, DenoteAll(g, {k})));
  }

  lemma SumIsNumber(g: Graph, m: map<Key, real>)
    ensures Finished(g, Sum, m).JNum?
  {
  }
}
