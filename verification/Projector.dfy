/** The projector service: row updates event by event, then one recomputation per galaxy that needs it. */
module Projector {
  import opened Values
  import opened ReadModel
  import opened Rollups
  import opened FormulaGraph
  import CalcEngine
  import Guardian
  import Redelivery

  function Get<T>(rows: map<Scope, T>, scope: Scope): Option<T> {
    if scope in rows then Some(rows[scope]) else None
  }

  class Service {
    const cfg: Config
    var atoms: map<Id, AtomRow>
    var bonds: map<Id, BondRow>
    var activity: map<Id, Event>
    var summaries: map<Scope, Summary>
    var healths: map<Scope, Health>

    constructor (cfg: Config)
      ensures this.cfg == cfg && Now() == EMPTY && summaries == map[] && healths == map[]
    {
      this.cfg := cfg;
      atoms, bonds, activity := map[], map[], map[];
      summaries, healths := map[], map[];
    }

    function Now(): State
      reads this
    {
      State(atoms, bonds, activity)
    }

    // ---------- Row updates ----------

    method ProjectAsteroidCreated(e: Event)
      requires e.body.AsteroidCreated?
      modifies `atoms
      ensures Now() == CreateAtom(old(Now()), e)
    {
      if e.entity in atoms {
        var row := atoms[e.entity];
        atoms := atoms[e.entity := row.(scope := e.scope, value := e.body.value, metadata := e.body.metadata,
                                        isDeleted := false, deletedAt := None)];
      } else {
        atoms := atoms[e.entity := AtomRow(e.scope, e.body.value, e.body.metadata, false, e.at, None)];
      }
    }

    method ProjectMetadataUpdated(e: Event)
      requires e.body.MetadataUpdated?
      modifies `atoms
      ensures Now() == UpdateMetadata(old(Now()), e)
    {
      hide CleanKeys;
      var patch, remove := EffectivePatch(e.body), EffectiveRemove(e.body);
      if patch == map[] && remove == {} {
        if e.entity in atoms {
          assert MergeMetadata(atoms[e.entity].metadata, patch, remove) == atoms[e.entity].metadata;
          assert atoms[e.entity := atoms[e.entity]] == atoms;
        }
        return;
      }
      if e.entity !in atoms || atoms[e.entity].scope != e.scope {
        return;
      }
      var row := atoms[e.entity];
      var next := row.metadata + patch;
      next := next - remove;
      atoms := atoms[e.entity := row.(metadata := next)];
    }

    method ProjectAsteroidSoftDeleted(e: Event)
      modifies `atoms, `bonds
      ensures Now() == DeleteAtom(old(Now()), e)
    {
      if e.entity in atoms && atoms[e.entity].scope == e.scope && !atoms[e.entity].isDeleted {
        atoms := atoms[e.entity := atoms[e.entity].(isDeleted := true, deletedAt := Some(e.at))];
      }
      bonds := DeleteTouching(bonds, e.scope, e.entity, e.at);
    }

    method ProjectAsteroidValueUpdated(e: Event)
      requires e.body.ValueUpdated?
      modifies `atoms
      ensures Now() == UpdateValue(old(Now()), e)
    {
      if e.entity in atoms && atoms[e.entity].scope == e.scope && !atoms[e.entity].isDeleted {
        atoms := atoms[e.entity := atoms[e.entity].(value := e.body.newValue)];
      }
    }

    method ProjectBondFormed(e: Event)
      requires e.body.BondFormed?
      modifies `bonds
      ensures Now() == FormBond(old(Now()), e)
    {
      if e.entity in bonds || RelationTaken(bonds, e.scope, e.body.source, e.body.target, e.body.kind) {
        return;
      }
      bonds := bonds[e.entity := BondRow(e.scope, e.body.source, e.body.target, e.body.kind, false, e.at, None)];
    }

    method ProjectBondSoftDeleted(e: Event)
      modifies `bonds
      ensures Now() == DeleteBond(old(Now()), e)
    {
      if e.entity in bonds && bonds[e.entity].scope == e.scope && !bonds[e.entity].isDeleted {
        bonds := bonds[e.entity := bonds[e.entity].(isDeleted := true, deletedAt := Some(e.at))];
      }
    }

    method ProjectActivity(e: Event)
      modifies `activity
      ensures activity == RecordActivity(old(activity), e)
    {
      if e.id !in activity {
        activity := activity[e.id := e];
      }
    }

    method ApplyEventWithoutRollups(e: Event) returns (touched: Option<Scope>)
      modifies `atoms, `bonds, `activity
      ensures Now() == Apply(old(Now()), e)
      ensures touched == if Projected(e) then Some(e.scope) else None
    {
      hide CreateAtom, UpdateMetadata, UpdateValue, DeleteAtom, FormBond, DeleteBond;
      if e.branch.Some? {
        return None;
      }
      ProjectKeepsActivity(Now(), e);
      match e.body {
        case AsteroidCreated(_, _) => ProjectAsteroidCreated(e);
        case MetadataUpdated(_, _, _) => ProjectMetadataUpdated(e);
        case ValueUpdated(_) => ProjectAsteroidValueUpdated(e);
        case AsteroidSoftDeleted => ProjectAsteroidSoftDeleted(e);
        case BondFormed(_, _, _) => ProjectBondFormed(e);
        case BondSoftDeleted => ProjectBondSoftDeleted(e);
        case Unprojected =>
      }
      ProjectActivity(e);
      return if e.body.Unprojected? then None else Some(e.scope);
    }

    // ---------- Recomputation ----------

    method RefreshGalaxyRollups(scope: Scope)
      modifies `summaries, `healths
      ensures summaries == old(summaries)[scope := Recompute(cfg, Now(), scope).0]
      ensures healths == old(healths)[scope := Recompute(cfg, Now(), scope).1]
    {
      hide SummaryOf, HealthOf;
      var active, activeBonds := ActiveAtoms(Now(), scope), ActiveBonds(Now(), scope);
      var summary := CountSummary(cfg, scope, active, activeBonds);
      var health := CountHealth(cfg, scope, active, activeBonds);
      summaries := summaries[scope := summary];
      healths := healths[scope := health];
    }

    method ApplyEvent(e: Event)
      modifies this
      ensures Now() == Apply(old(Now()), e)
      ensures if Projected(e) && !CanSkip(Get(old(summaries), e.scope), Get(old(healths), e.scope), e)
              then summaries == old(summaries)[e.scope := Recompute(cfg, Now(), e.scope).0]
                   && healths == old(healths)[e.scope := Recompute(cfg, Now(), e.scope).1]
              else summaries == old(summaries) && healths == old(healths)
    {
      hide Apply, CanSkip, Recompute;
      var touched := ApplyEventWithoutRollups(e);
      if touched.Some? {
        if CanSkip(Get(summaries, e.scope), Get(healths, e.scope), e) {
          return;
        }
        RefreshGalaxyRollups(e.scope);
      }
    }

    method ApplyEvents(events: seq<Event>)
      modifies this
      ensures Now() == Replay(old(Now()), events)
      ensures forall scope ::
                if NeedsRefresh(events, scope, Get(old(summaries), scope), Get(old(healths), scope))
                then (Get(summaries, scope), Get(healths, scope)) ==
                     (Some(Recompute(cfg, Now(), scope).0), Some(Recompute(cfg, Now(), scope).1))
                else Get(summaries, scope) == Get(old(summaries), scope) && Get(healths, scope) == Get(old(healths), scope)
      ensures forall scope :: BatchOutcome(cfg, old(Now()), events, scope, (Get(old(summaries), scope), Get(old(healths), scope)),
                                           (Get(summaries, scope), Get(healths, scope)))
    {
      hide Apply, Projected, CanSkip, Recompute, BatchOutcome, NeedsRefresh;
      var pending: set<Scope> := {};
      forall scope { NothingNeedsRefresh(scope, Get(summaries, scope), Get(healths, scope)); }
      assert events[..0] == [];
      for i := 0 to |events|
        invariant Now() == Replay(old(Now()), events[..i])
        invariant summaries == old(summaries) && healths == old(healths)
        invariant forall scope :: scope in pending <==>
                    NeedsRefresh(events[..i], scope, Get(summaries, scope), Get(healths, scope))
      {
        var e := events[i];
        assert events[..i + 1][..i] == events[..i] && events[..i + 1] == events[..i] + [e];
        var touched := ApplyEventWithoutRollups(e);
        forall scope {
          NeedsRefreshNext(events[..i], e, scope, Get(summaries, scope), Get(healths, scope));
        }
        if touched.Some? && !CanSkip(Get(summaries, e.scope), Get(healths, e.scope), e) {
          pending := pending + {e.scope};
        }
      }
      assert events[..|events|] == events;
      var todo := pending;
      while todo != {}
        invariant todo <= pending && Now() == Replay(old(Now()), events)
        invariant forall scope :: scope in pending - todo ==>
                    (Get(summaries, scope), Get(healths, scope)) ==
                    (Some(Recompute(cfg, Now(), scope).0), Some(Recompute(cfg, Now(), scope).1))
        invariant forall scope :: scope !in pending - todo ==>
                    Get(summaries, scope) == Get(old(summaries), scope) && Get(healths, scope) == Get(old(healths), scope)
        decreases todo
      {
        var scope :| scope in todo;
        RefreshGalaxyRollups(scope);
        todo := todo - {scope};
      }
      forall scope
        ensures BatchOutcome(cfg, old(Now()), events, scope, (Get(old(summaries), scope), Get(old(healths), scope)),
                             (Get(summaries, scope), Get(healths, scope)))
      {
        CountersNeverGoStale(cfg, old(Now()), events, scope, (Get(old(summaries), scope), Get(old(healths), scope)),
                             (Get(summaries, scope), Get(healths, scope)));
      }
    }

    /** Delivering a suffix of the absorbed log again changes no table and leaves every right counter right. */
    method ApplyEventsAgain(ghost start: State, ghost absorbed: seq<Event>, again: seq<Event>)
      requires Consistent(start) && WellFormed(start, absorbed + again) && Now() == Replay(start, absorbed + again)
      modifies this
      ensures Now() == old(Now())
      ensures forall scope :: Fresh(cfg, Now(), scope, Get(old(summaries), scope), Get(old(healths), scope)) ==>
                Fresh(cfg, Now(), scope, Get(summaries, scope), Get(healths, scope))
    {
      hide Consistent, WellFormed, Replay, Fresh, NeedsRefresh, Orderly, OwnIds;
      Redelivery.SuffixRedelivery(start, absorbed, again);
      ApplyEvents(again);
      forall scope | Fresh(cfg, Now(), scope, Get(old(summaries), scope), Get(old(healths), scope))
        ensures Fresh(cfg, Now(), scope, Get(summaries, scope), Get(healths, scope))
      {
        assert BatchOutcome(cfg, old(Now()), again, scope, (Get(old(summaries), scope), Get(old(healths), scope)),
                            (Get(summaries, scope), Get(healths, scope)));
      }
    }
  }

  lemma NothingNeedsRefresh(scope: Scope, summary: Option<Summary>, health: Option<Health>)
    ensures !NeedsRefresh([], scope, summary, health)
  {
  }

  lemma {:induction false} NeedsRefreshNext(events: seq<Event>, e: Event, scope: Scope, summary: Option<Summary>, health: Option<Health>)
    ensures NeedsRefresh(events + [e], scope, summary, health) <==>
            NeedsRefresh(events, scope, summary, health) || (Projected(e) && e.scope == scope && !CanSkip(summary, health, e))
  {
    hide Projected, CanSkip;
    var all := events + [e];
    assert all[|events|] == e && forall i :: 0 <= i < |events| ==> all[i] == events[i];
  }

  // ---------- Counting loops ----------

  method CountFormulas(atoms: map<Id, AtomRow>) returns (count: nat)
    ensures count == TotalOf(FormulaCounts(atoms))
  {
    hide TotalOf, FormulaFields;
    count := 0;
    var done: map<Id, AtomRow> := map[];
    var todo := atoms.Keys;
    AllZero(FormulaCounts(map[]));
    while todo != {}
      invariant todo <= atoms.Keys && done == atoms - todo
      invariant count == TotalOf(FormulaCounts(done))
      decreases todo
    {
      var a :| a in todo;
      var formulas := FormulaFields(atoms[a].metadata);
      SumGrows(FormulaCounts(done), FormulaCounts(done[a := atoms[a]]), a);
      count := count + |formulas|;
      done := done[a := atoms[a]];
      todo := todo - {a};
    }
    assert done == atoms;
  }

  lemma {:induction false} SumGrows(before: map<Id, nat>, after: map<Id, nat>, a: Id)
    requires a in after && a !in before && after == before[a := after[a]]
    ensures TotalOf(after) == TotalOf(before) + after[a]
  {
    SumSplit(after, a);
    assert after - {a} == before;
  }

  method CountGuardianRules(atoms: map<Id, AtomRow>) returns (count: nat)
    ensures count == TotalOf(GuardianCounts(atoms))
  {
    hide TotalOf, Guardian.CountDicts, Guardian.RulesOf;
    count := 0;
    var done: map<Id, AtomRow> := map[];
    var todo := atoms.Keys;
    AllZero(GuardianCounts(map[]));
    while todo != {}
      invariant todo <= atoms.Keys && done == atoms - todo
      invariant count == TotalOf(GuardianCounts(done))
      decreases todo
    {
      var a :| a in todo;
      SumGrows(GuardianCounts(done), GuardianCounts(done[a := atoms[a]]), a);
      count := count + Guardian.CountDicts(Guardian.RulesOf(atoms[a].metadata));
      done := done[a := atoms[a]];
      todo := todo - {a};
    }
    assert done == atoms;
  }

  method CountSummary(cfg: Config, scope: Scope, atoms: map<Id, AtomRow>, bonds: map<Id, BondRow>) returns (summary: Summary)
    ensures summary == SummaryOf(cfg, scope, atoms, bonds)
  {
    hide TableOf, FormulaCounts, TotalOf;
    var names: set<string> := {};
    var todo := atoms.Keys;
    while todo != {}
      invariant todo <= atoms.Keys && names == TableNames(cfg, scope, atoms - todo)
      decreases todo
    {
      var a :| a in todo;
      assert TableNames(cfg, scope, atoms - (todo - {a})) == TableNames(cfg, scope, atoms - todo) + {TableOf(cfg, scope, atoms[a])} by {
        NamesNext(cfg, scope, atoms, todo, a);
      }
      names := names + {TableOf(cfg, scope, atoms[a])};
      todo := todo - {a};
    }
    assert atoms - {} == atoms;
    var formulas := CountFormulas(atoms);
    summary := Summary(|Constellations(cfg, names)|, |names|, |atoms.Keys|, |bonds.Keys|, formulas);
  }

  lemma {:induction false} NamesNext(cfg: Config, scope: Scope, atoms: map<Id, AtomRow>, todo: set<Id>, a: Id)
    requires a in todo && todo <= atoms.Keys
    ensures TableNames(cfg, scope, atoms - (todo - {a})) == TableNames(cfg, scope, atoms - todo) + {TableOf(cfg, scope, atoms[a])}
  {
    hide TableOf;
    var before, after := atoms - todo, atoms - (todo - {a});
    assert after.Keys == before.Keys + {a};
    forall t ensures t in TableNames(cfg, scope, after) <==> t in TableNames(cfg, scope, before) + {TableOf(cfg, scope, atoms[a])} {
      if t in TableNames(cfg, scope, after) {
        var x :| x in after && TableOf(cfg, scope, after[x]) == t;
        if x != a { assert x in before && TableOf(cfg, scope, before[x]) == t; }
      }
      if t in TableNames(cfg, scope, before) {
        var x :| x in before && TableOf(cfg, scope, before[x]) == t;
        assert x in after && TableOf(cfg, scope, after[x]) == t;
      }
      if t == TableOf(cfg, scope, atoms[a]) { assert a in after && TableOf(cfg, scope, after[a]) == t; }
    }
  }

  /** Row lists as a query returns them: every row once, in some order. */
  ghost predicate ListsAtoms(list: seq<CalcEngine.Atom>, atoms: map<Id, AtomRow>) {
    && (forall i :: 0 <= i < |list| ==> list[i].id in atoms && list[i] == EngineAtom(list[i].id, atoms[list[i].id]))
    && (forall a :: a in atoms ==> EngineAtom(a, atoms[a]) in list)
  }

  ghost predicate ListsBonds(list: seq<CalcEngine.Bond>, bonds: map<Id, BondRow>) {
    forall b :: b in list <==> exists i :: i in bonds && b == EngineBond(bonds[i])
  }

  function EngineBond(row: BondRow): CalcEngine.Bond {
    CalcEngine.Bond(row.source, row.target, row.kind)
  }

  method ListAtoms(atoms: map<Id, AtomRow>) returns (list: seq<CalcEngine.Atom>)
    ensures ListsAtoms(list, atoms)
  {
    list := [];
    var todo := atoms.Keys;
    while todo != {}
      invariant todo <= atoms.Keys && ListsAtoms(list, atoms - todo)
      decreases todo
    {
      var a :| a in todo;
      list := list + [EngineAtom(a, atoms[a])];
      assert (atoms - (todo - {a})).Keys == (atoms - todo).Keys + {a};
      todo := todo - {a};
    }
    assert atoms - {} == atoms;
  }

  method ListBonds(bonds: map<Id, BondRow>) returns (list: seq<CalcEngine.Bond>)
    ensures ListsBonds(list, bonds)
  {
    list := [];
    var todo := bonds.Keys;
    while todo != {}
      invariant todo <= bonds.Keys
      invariant forall b :: b in list <==> exists i :: i in bonds.Keys - todo && b == EngineBond(bonds[i])
      decreases todo
    {
      var i :| i in todo;
      ghost var was := list;
      list := list + [EngineBond(bonds[i])];
      assert bonds.Keys - (todo - {i}) == (bonds.Keys - todo) + {i};
      assert forall b :: b in list <==> b in was || b == EngineBond(bonds[i]);
      todo := todo - {i};
    }
  }

  lemma {:induction false} NodesMatch(cfg: Config, scope: Scope, list: seq<CalcEngine.Atom>, atoms: map<Id, AtomRow>)
    requires forall i :: 0 <= i < |list| ==> list[i].id in atoms && list[i] == EngineAtom(list[i].id, atoms[list[i].id])
    ensures forall a :: a in CalcEngine.NodesOf(cfg.engine(scope), list) <==> a in atoms && EngineAtom(a, atoms[a]) in list
    ensures forall a :: a in CalcEngine.NodesOf(cfg.engine(scope), list) ==>
              CalcEngine.NodesOf(cfg.engine(scope), list)[a] == NodeOf(cfg, scope, atoms[a])
    decreases |list|
  {
    hide CalcEngine.RegistryFormulas, CalcEngine.LeafValue;
    if list != [] {
      var last := |list| - 1;
      NodesMatch(cfg, scope, list[..last], atoms);
      assert list == list[..last] + [list[last]];
      assert forall x :: x in list <==> x in list[..last] || x == list[last];
      NodeIgnoresId(cfg, scope, list[last].id, atoms[list[last].id]);
      hide CalcEngine.NodeOf, NodeOf;
    }
  }

  lemma NodeIgnoresId(cfg: Config, scope: Scope, a: Id, row: AtomRow)
    ensures CalcEngine.NodeOf(cfg.engine(scope), EngineAtom(a, row)) == NodeOf(cfg, scope, row)
  {
  }

  lemma {:induction false} EnvMatches(cfg: Config, scope: Scope, atomList: seq<CalcEngine.Atom>, bondList: seq<CalcEngine.Bond>,
                                      atoms: map<Id, AtomRow>, bonds: map<Id, BondRow>)
    requires ListsAtoms(atomList, atoms) && ListsBonds(bondList, bonds)
    requires forall b :: b in bonds ==> bonds[b].source in atoms && bonds[b].target in atoms
    ensures CalcEngine.EnvOf(cfg.engine(scope), atomList, bondList) == EnvOf(cfg, scope, atoms, bonds)
  {
    hide NodeOf, CalcEngine.NodeOf, CalcEngine.NodesOf, EngineAtom, CalcEngine.FlowSources, FlowSources, ListsAtoms, ListsBonds;
    var nodes := CalcEngine.NodesOf(cfg.engine(scope), atomList);
    NodesAreRows(cfg, scope, atomList, atoms);
    forall t ensures CalcEngine.FlowSources(nodes.Keys, bondList, t) == FlowSources(bonds, t) {
      SourcesMatch(nodes.Keys, bondList, bonds, t);
    }
    assert CalcEngine.EnvOf(cfg.engine(scope), atomList, bondList).incoming == EnvOf(cfg, scope, atoms, bonds).incoming;
  }

  lemma {:induction false} NodesAreRows(cfg: Config, scope: Scope, list: seq<CalcEngine.Atom>, atoms: map<Id, AtomRow>)
    requires ListsAtoms(list, atoms)
    ensures CalcEngine.NodesOf(cfg.engine(scope), list) == map a | a in atoms :: NodeOf(cfg, scope, atoms[a])
  {
    hide NodeOf, CalcEngine.NodesOf, EngineAtom;
    NodesMatch(cfg, scope, list, atoms);
  }

  lemma {:induction false} SourcesMatch(ids: set<Id>, bondList: seq<CalcEngine.Bond>, bonds: map<Id, BondRow>, t: Id)
    requires ListsBonds(bondList, bonds)
    requires forall b :: b in bonds ==> bonds[b].source in ids
    ensures CalcEngine.FlowSources(ids, bondList, t) == FlowSources(bonds, t)
  {
    hide CalcEngine.IsFlow;
    forall s ensures s in CalcEngine.FlowSources(ids, bondList, t) <==> s in FlowSources(bonds, t) {
      if s in CalcEngine.FlowSources(ids, bondList, t) {
        var b :| b in bondList && CalcEngine.IsFlow(b.kind) && b.source in ids && b.target == t && b.source == s;
        var i :| i in bonds && b == EngineBond(bonds[i]);
        assert CalcEngine.IsFlow(bonds[i].kind) && bonds[i].target == t && bonds[i].source == s;
      }
      if s in FlowSources(bonds, t) {
        var i :| i in bonds && CalcEngine.IsFlow(bonds[i].kind) && bonds[i].target == t && bonds[i].source == s;
        assert EngineBond(bonds[i]) in bondList;
      }
    }
  }

  method CountHealth(cfg: Config, scope: Scope, atoms: map<Id, AtomRow>, bonds: map<Id, BondRow>) returns (health: Health)
    requires forall b :: b in bonds ==> bonds[b].source in atoms && bonds[b].target in atoms
    ensures health == HealthOf(cfg, scope, atoms, bonds)
  {
    hide EnvOf, CalcEngine.EnvOf, Denote, CalcEngine.GraphOf, CalcEngine.NodesOf, TotalOf, CircularFields, GuardianCounts, Guardian.Alerted;
    var rules := CountGuardianRules(atoms);
    var atomList := ListAtoms(atoms);
    var bondList := ListBonds(bonds);
    ghost var env := EnvOf(cfg, scope, atoms, bonds);
    EnvMatches(cfg, scope, atomList, bondList, atoms, bonds);
    EnvNodes(cfg, scope, atoms, bonds);
    var calculated := CalcEngine.Evaluate(cfg.engine(scope), atomList, bondList);
    forall a | a in atoms ensures a in calculated && calculated[a] == Calculated(cfg, scope, env, a) {
      assert CalcEngine.EnvOf(cfg.engine(scope), atomList, bondList).nodes == CalcEngine.NodesOf(cfg.engine(scope), atomList) by {
        EnvHasNodes(cfg.engine(scope), atomList, bondList);
      }
      assert calculated[a].Keys == Calculated(cfg, scope, env, a).Keys;
    }
    var circular := CountCircular(cfg, scope, atoms, bonds, calculated);
    var alerted := FindAlerted(cfg, scope, atoms, bonds, calculated);
    health := HealthWith(rules, |alerted|, circular);
  }

  lemma EnvHasNodes(engine: CalcEngine.Config, atomList: seq<CalcEngine.Atom>, bondList: seq<CalcEngine.Bond>)
    ensures CalcEngine.EnvOf(engine, atomList, bondList).nodes == CalcEngine.NodesOf(engine, atomList)
  {
  }

  lemma EnvNodes(cfg: Config, scope: Scope, atoms: map<Id, AtomRow>, bonds: map<Id, BondRow>)
    ensures EnvOf(cfg, scope, atoms, bonds).nodes.Keys == atoms.Keys
  {
  }

  method CountCircular(cfg: Config, scope: Scope, atoms: map<Id, AtomRow>, bonds: map<Id, BondRow>,
                       calculated: map<Id, map<string, Json>>) returns (count: nat)
    requires EnvOf(cfg, scope, atoms, bonds).nodes.Keys == atoms.Keys
    requires forall a :: a in atoms ==> a in calculated && calculated[a] == Calculated(cfg, scope, EnvOf(cfg, scope, atoms, bonds), a)
    ensures count == TotalOf(CircularCounts(cfg, scope, atoms, bonds))
  {
    hide EnvOf, Calculated, TotalOf, CircularFields;
    count := 0;
    ghost var counts := CircularCounts(cfg, scope, atoms, bonds);
    var todo := atoms.Keys;
    assert counts - todo == map[];
    AllZero(map[]);
    while todo != {}
      invariant todo <= atoms.Keys && count == TotalOf(counts - todo)
      decreases todo
    {
      var a :| a in todo;
      SumGrows(counts - todo, counts - (todo - {a}), a);
      count := count + |CircularFields(calculated[a])|;
      todo := todo - {a};
    }
    assert counts - {} == counts;
  }

  method FindAlerted(cfg: Config, scope: Scope, atoms: map<Id, AtomRow>, bonds: map<Id, BondRow>,
                     calculated: map<Id, map<string, Json>>) returns (alerted: set<Id>)
    requires EnvOf(cfg, scope, atoms, bonds).nodes.Keys == atoms.Keys
    requires forall a :: a in atoms ==> a in calculated && calculated[a] == Calculated(cfg, scope, EnvOf(cfg, scope, atoms, bonds), a)
    ensures alerted == AlertedAtoms(cfg, scope, atoms, bonds)
  {
    hide EnvOf, Calculated, Guardian.Alerted, Guardian.Fires, Guardian.RulesOf;
    alerted := {};
    var todo := atoms.Keys;
    while todo != {}
      invariant todo <= atoms.Keys && alerted == AlertedAtoms(cfg, scope, atoms, bonds) - todo
      decreases todo
    {
      var a :| a in todo;
      var alerts := Guardian.EvaluateRow(cfg.guardian, calculated[a], atoms[a].metadata);
      if alerts != [] {
        alerted := alerted + {a};
      }
      todo := todo - {a};
    }
  }

  // ---------- Main result ----------

  /** The stored summary and health of one galaxy. */
  type Counters = (Option<Summary>, Option<Health>)

  /**
   What a batch does to the stored counters of a galaxy.  They are right afterwards iff it was
   recomputed or the old ones happen to be right for the new tables; if they were right before, iff it
   was recomputed or the number of marker leaves is as before; and an orderly run guarantees it.
   */
  ghost predicate BatchOutcome(cfg: Config, s: State, events: seq<Event>, scope: Scope, before: Counters, after: Counters) {
    var t := Replay(s, events);
    var refresh := NeedsRefresh(events, scope, before.0, before.1);
    var rightAfter := Fresh(cfg, t, scope, after.0, after.1);
    && (rightAfter <==> refresh || Fresh(cfg, t, scope, before.0, before.1))
    && (Fresh(cfg, s, scope, before.0, before.1) && OwnIds(s, events) ==>
          (rightAfter <==> refresh || MarkerLeaves(cfg, t, scope) == MarkerLeaves(cfg, s, scope)))
    && (Fresh(cfg, s, scope, before.0, before.1) && Orderly(cfg, s, events) ==> rightAfter)
  }

  lemma {:induction false} CountersNeverGoStale(cfg: Config, s: State, events: seq<Event>, scope: Scope, before: Counters, after: Counters)
    requires after == if NeedsRefresh(events, scope, before.0, before.1)
                      then (Some(Recompute(cfg, Replay(s, events), scope).0), Some(Recompute(cfg, Replay(s, events), scope).1))
                      else before
    ensures BatchOutcome(cfg, s, events, scope, before, after)
  {
    hide Recompute, NeedsRefresh, Orderly, OwnIds, Replay, MarkerLeaves;
    if !NeedsRefresh(events, scope, before.0, before.1) && Fresh(cfg, s, scope, before.0, before.1) {
      if OwnIds(s, events) { SkippedBatchIsExact(cfg, s, events, scope, before.0, before.1); }
      if Orderly(cfg, s, events) { SkippedBatchStaysFresh(cfg, s, events, scope, before.0, before.1); }
    }
  }
}
