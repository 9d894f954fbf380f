/**
 The summary and health counters of a galaxy as a function of its rows, and the fast path that
 leaves them alone after some metadata updates.
 */
module Rollups {
  import opened Values
  import opened ReadModel
  import opened FormulaGraph
  import Tables
  import CalcEngine
  import Guardian

  /** What recomputation takes from its surroundings; table contracts are fixed. */
  datatype Config = Config(engine: Scope -> CalcEngine.Config, guardian: Guardian.Config, constellation: string -> string)

  datatype Status = Green | Yellow | Red

  datatype Summary = Summary(constellations: nat, planets: nat, moons: nat, bonds: nat, formulaFields: nat)

  datatype Health = Health(guardianRules: nat, alerted: nat, circular: nat, quality: nat, status: Status)

  const TABLE_KEYS: seq<string> := ["table", "table_name", "category", "kategorie", "type", "typ"]
  const STRUCTURAL_KEYS: set<string> :=
    {"table", "table_name", "category", "kategorie", "type", "typ", "_guardians"}

  // ---------- Counting ----------

  ghost function TotalOf(counts: map<Id, nat>): nat
    decreases |counts|
  {
    if counts.Keys == {} then 0 else
      var a :| a in counts;
      assert |counts - {a}| < |counts| by { assert (counts - {a}).Keys == counts.Keys - {a}; }
      counts[a] + TotalOf(counts - {a})
  }

  lemma {:induction false} SumSplit(counts: map<Id, nat>, k: Id)
    requires k in counts
    ensures TotalOf(counts) == counts[k] + TotalOf(counts - {k})
    decreases |counts|
  {
    assert counts.Keys != {};
    var a :| a in counts && TotalOf(counts) == counts[a] + TotalOf(counts - {a});
    if a != k {
      assert (counts - {a}).Keys == counts.Keys - {a} && (counts - {k}).Keys == counts.Keys - {k};
      assert (counts - {a}) - {k} == (counts - {k}) - {a};
      SumSplit(counts - {a}, k);
      SumSplit(counts - {k}, a);
    }
  }

  lemma {:induction false} SumZero(counts: map<Id, nat>, k: Id)
    requires TotalOf(counts) == 0 && k in counts
    ensures counts[k] == 0
  {
    SumSplit(counts, k);
  }

  lemma {:induction false} AllZero(counts: map<Id, nat>)
    requires forall k :: k in counts ==> counts[k] == 0
    ensures TotalOf(counts) == 0
    decreases |counts|
  {
    if counts.Keys != {} {
      var k :| k in counts;
      SumSplit(counts, k);
      assert (counts - {k}).Keys == counts.Keys - {k};
      AllZero(counts - {k});
    }
  }

  // ---------- The rows of one galaxy ----------

  function ActiveAtoms(s: State, scope: Scope): map<Id, AtomRow> {
    map a | a in s.atoms && s.atoms[a].scope == scope && !s.atoms[a].isDeleted :: s.atoms[a]
  }

  function ActiveBonds(s: State, scope: Scope): map<Id, BondRow> {
    map b | b in s.bonds && s.bonds[b].scope == scope && !s.bonds[b].isDeleted
            && s.bonds[b].source in ActiveAtoms(s, scope) && s.bonds[b].target in ActiveAtoms(s, scope)
      :: s.bonds[b]
  }

  function EngineAtom(a: Id, row: AtomRow): CalcEngine.Atom {
    CalcEngine.Atom(a, row.value, row.metadata)
  }

  function NodeOf(cfg: Config, scope: Scope, row: AtomRow): CalcEngine.Node {
    CalcEngine.NodeOf(cfg.engine(scope), EngineAtom(0, row))
  }

  function FlowSources(bonds: map<Id, BondRow>, target: Id): set<Id> {
    set b | b in bonds && CalcEngine.IsFlow(bonds[b].kind) && bonds[b].target == target :: bonds[b].source
  }

  function EnvOf(cfg: Config, scope: Scope, atoms: map<Id, AtomRow>, bonds: map<Id, BondRow>): CalcEngine.Env {
    CalcEngine.Env(map a | a in atoms :: NodeOf(cfg, scope, atoms[a]),
                   map t | t in atoms.Keys && FlowSources(bonds, t) != {} :: FlowSources(bonds, t))
  }

  /** The calculated values of one row. */
  ghost function Calculated(cfg: Config, scope: Scope, env: CalcEngine.Env, a: Id): map<string, Json>
    requires a in env.nodes
  {
    map f | f in CalcEngine.FieldsOf(env.nodes[a]) :: Denote(CalcEngine.GraphOf(cfg.engine(scope), env), Key(a, f))
  }

  // ---------- Counters ----------

  function TableOf(cfg: Config, scope: Scope, row: AtomRow): string {
    Tables.TableName(cfg.engine(scope).prefix, TABLE_KEYS, row.value, row.metadata)
  }

  function TableNames(cfg: Config, scope: Scope, atoms: map<Id, AtomRow>): set<string> {
    set a | a in atoms :: TableOf(cfg, scope, atoms[a])
  }

  function Constellations(cfg: Config, names: set<string>): set<string> {
    set n | n in names :: cfg.constellation(n)
  }

  function FormulaFields(metadata: Metadata): set<string> {
    set f | f in metadata && IsFormulaText(metadata[f])
  }

  function CircularFields(calculated: map<string, Json>): set<string> {
    set f | f in calculated && calculated[f] == CIRC
  }

  function FormulaCounts(atoms: map<Id, AtomRow>): map<Id, nat> {
    map a | a in atoms :: |FormulaFields(atoms[a].metadata)|
  }

  function GuardianCounts(atoms: map<Id, AtomRow>): map<Id, nat> {
    map a | a in atoms :: Guardian.CountDicts(Guardian.RulesOf(atoms[a].metadata))
  }

  ghost function SummaryOf(cfg: Config, scope: Scope, atoms: map<Id, AtomRow>, bonds: map<Id, BondRow>): Summary {
    var names := TableNames(cfg, scope, atoms);
    Summary(|Constellations(cfg, names)|, |names|, |atoms.Keys|, |bonds.Keys|, TotalOf(FormulaCounts(atoms)))
  }

  ghost function CircularCounts(cfg: Config, scope: Scope, atoms: map<Id, AtomRow>, bonds: map<Id, BondRow>): map<Id, nat> {
    var env := EnvOf(cfg, scope, atoms, bonds);
    map a | a in atoms :: |CircularFields(Calculated(cfg, scope, env, a))|
  }

  ghost function AlertedAtoms(cfg: Config, scope: Scope, atoms: map<Id, AtomRow>, bonds: map<Id, BondRow>): set<Id> {
    var env := EnvOf(cfg, scope, atoms, bonds);
    set a | a in atoms && Guardian.Alerted(cfg.guardian, Calculated(cfg, scope, env, a), atoms[a].metadata)
  }

  function Quality(circular: nat, alerted: nat): nat {
    var penalty := circular * 15 + alerted * 8;
    if penalty > 100 then 0 else 100 - penalty
  }

  function StatusOf(quality: nat): Status {
    if quality < 60 then Red else if quality < 85 then Yellow else Green
  }

  function HealthWith(guardianRules: nat, alerted: nat, circular: nat): Health {
    Health(guardianRules, alerted, circular, Quality(circular, alerted), StatusOf(Quality(circular, alerted)))
  }

  ghost function HealthOf(cfg: Config, scope: Scope, atoms: map<Id, AtomRow>, bonds: map<Id, BondRow>): Health {
    HealthWith(TotalOf(GuardianCounts(atoms)), |AlertedAtoms(cfg, scope, atoms, bonds)|,
               TotalOf(CircularCounts(cfg, scope, atoms, bonds)))
  }

  ghost function Recompute(cfg: Config, s: State, scope: Scope): (Summary, Health) {
    var atoms, bonds := ActiveAtoms(s, scope), ActiveBonds(s, scope);
    (SummaryOf(cfg, scope, atoms, bonds), HealthOf(cfg, scope, atoms, bonds))
  }

  // ---------- The fast path ----------

  predicate IsStructural(key: string) {
    Lower(Strip(key)) in STRUCTURAL_KEYS
  }

  /** The decision rule of the fast path, on the counters it reads from the stored rows. */
  predicate MaySkip(patch: Metadata, remove: set<string>, bonds: nat, formulaFields: nat, guardianRules: nat) {
    (patch == map[] && remove == {}) ||
    (&& bonds == 0 && formulaFields == 0 && guardianRules == 0
     && (forall k :: k in patch ==> !IsStructural(k) && !IsFormulaText(patch[k]))
     && (forall k :: k in remove ==> !IsStructural(k)))
  }

  predicate CanSkip(summary: Option<Summary>, health: Option<Health>, e: Event) {
    e.branch.Some? ||
    (&& e.body.MetadataUpdated? && summary.Some? && health.Some?
     && MaySkip(e.body.patch, CleanKeys(e.body.remove), summary.value.bonds, summary.value.formulaFields, health.value.guardianRules))
  }

  /** The fields of a row whose calculated value is the marker when no edge exists. */
  function SentinelFields(cfg: Config, scope: Scope, row: AtomRow): set<string> {
    var node := NodeOf(cfg, scope, row);
    set f | f in row.metadata && f !in node.formulas && CalcEngine.LeafValue(cfg.engine(scope), row.metadata, f) == CIRC
  }

  /** Quiet galaxies: no edges, no formula texts and no guardian rules. */
  predicate Quiet(atoms: map<Id, AtomRow>, bonds: map<Id, BondRow>) {
    && bonds.Keys == {}
    && (forall a :: a in atoms ==> FormulaFields(atoms[a].metadata) == {})
    && (forall a :: a in atoms ==> Guardian.CountDicts(Guardian.RulesOf(atoms[a].metadata)) == 0)
  }

  lemma {:induction false} ZeroCountersMeanQuiet(cfg: Config, scope: Scope, atoms: map<Id, AtomRow>, bonds: map<Id, BondRow>)
    requires SummaryOf(cfg, scope, atoms, bonds).bonds == 0 && SummaryOf(cfg, scope, atoms, bonds).formulaFields == 0
    requires HealthOf(cfg, scope, atoms, bonds).guardianRules == 0
    ensures Quiet(atoms, bonds)
  {
    hide FormulaFields, Guardian.CountDicts, Guardian.RulesOf, CircularCounts, AlertedAtoms, TableNames, TotalOf;
    forall a | a in atoms
      ensures FormulaFields(atoms[a].metadata) == {} && Guardian.CountDicts(Guardian.RulesOf(atoms[a].metadata)) == 0
    {
      SumZero(FormulaCounts(atoms), a);
      SumZero(GuardianCounts(atoms), a);
    }
  }

  /** Without edges a field is circular exactly when its own text is the marker. */
  lemma {:induction false} QuietCalculated(cfg: Config, scope: Scope, atoms: map<Id, AtomRow>, bonds: map<Id, BondRow>, a: Id)
    requires Quiet(atoms, bonds) && a in atoms
    ensures CircularFields(Calculated(cfg, scope, EnvOf(cfg, scope, atoms, bonds), a)) == SentinelFields(cfg, scope, atoms[a])
  {
    hide CalcEngine.NodeOf, CalcEngine.LeafValue, Denote, CalcEngine.ParseFormula, CalcEngine.GraphOf, Guardian.CountDicts, FlowSources;
    var env := EnvOf(cfg, scope, atoms, bonds);
    var calculated := Calculated(cfg, scope, env, a);
    assert env.nodes[a] == NodeOf(cfg, scope, atoms[a]);
    NodeMetadata(cfg, scope, atoms[a]);
    forall f | f in CalcEngine.FieldsOf(env.nodes[a])
      ensures calculated[f] == CIRC <==> f in SentinelFields(cfg, scope, atoms[a])
    {
      if f in atoms[a].metadata { assert f !in FormulaFields(atoms[a].metadata); }
      NoEdges(bonds, a);
      QuietCell(cfg.engine(scope), env, Key(a, f));
    }
  }

  lemma NodeMetadata(cfg: Config, scope: Scope, row: AtomRow)
    ensures NodeOf(cfg, scope, row).metadata == row.metadata
  {
  }

  lemma NoEdges(bonds: map<Id, BondRow>, t: Id)
    requires bonds.Keys == {}
    ensures FlowSources(bonds, t) == {}
  {
  }

  lemma {:induction false} QuietCell(engine: CalcEngine.Config, env: CalcEngine.Env, k: Key)
    requires k.node in env.nodes && CalcEngine.SourcesOf(env, k.node) == {}
    requires k.field in env.nodes[k.node].metadata ==> !IsFormulaText(env.nodes[k.node].metadata[k.field])
    ensures Denote(CalcEngine.GraphOf(engine, env), k) == CIRC <==>
            k.field !in env.nodes[k.node].formulas && CalcEngine.LeafValue(engine, env.nodes[k.node].metadata, k.field) == CIRC
  {
    hide CalcEngine.LeafValue, CalcEngine.ParseFormula, CalcEngine.GraphOf, Denote, IsFormulaText, Finished;
    var g := CalcEngine.GraphOf(engine, env);
    CalcEngine.CellAtIsCellFor(engine, env, k);
    DenoteEquation(g, k);
    var cell := CalcEngine.CellFor(engine, env, k);
    if cell.Formula? {
      assert CalcEngine.SourceKeys({}, env.nodes[k.node].formulas[k.field].attr) == {};
      assert DenoteAll(g, {}) == map[];
      FinishedIsNumber(g, cell.op, Numbers(g, map[]));
    }
  }

  lemma FinishedIsNumber(g: Graph, op: Op, m: map<Key, real>)
    ensures Finished(g, op, m).JNum?
  {
  }

  lemma {:induction false} QuietHasNoAlerts(cfg: Config, scope: Scope, atoms: map<Id, AtomRow>, bonds: map<Id, BondRow>)
    requires Quiet(atoms, bonds)
    ensures AlertedAtoms(cfg, scope, atoms, bonds) == {}
  {
    hide CalcEngine.NodeOf, FormulaFields, Calculated, Guardian.CountDicts, Guardian.RulesOf, Guardian.Alerted;
    var env := EnvOf(cfg, scope, atoms, bonds);
    forall a | a in atoms ensures !Guardian.Alerted(cfg.guardian, Calculated(cfg, scope, env, a), atoms[a].metadata) {
      Guardian.NoDictsNoAlert(cfg.guardian, Calculated(cfg, scope, env, a), atoms[a].metadata);
    }
  }

  function SentinelCounts(cfg: Config, scope: Scope, atoms: map<Id, AtomRow>): map<Id, nat> {
    map a | a in atoms :: |SentinelFields(cfg, scope, atoms[a])|
  }

  /** In a quiet galaxy the health counters are zero except for the marker leaves. */
  lemma {:induction false} QuietHealth(cfg: Config, scope: Scope, atoms: map<Id, AtomRow>, bonds: map<Id, BondRow>)
    requires Quiet(atoms, bonds)
    ensures HealthOf(cfg, scope, atoms, bonds) == HealthWith(0, 0, TotalOf(SentinelCounts(cfg, scope, atoms)))
  {
    hide EnvOf, Calculated, CircularFields, SentinelFields, AlertedAtoms, TotalOf, FormulaFields, Guardian.CountDicts, Guardian.RulesOf;
    QuietHasNoAlerts(cfg, scope, atoms, bonds);
    AllZero(GuardianCounts(atoms));
    forall a | a in atoms
      ensures CircularCounts(cfg, scope, atoms, bonds)[a] == SentinelCounts(cfg, scope, atoms)[a]
    {
      QuietCalculated(cfg, scope, atoms, bonds, a);
    }
    assert CircularCounts(cfg, scope, atoms, bonds) == SentinelCounts(cfg, scope, atoms);
  }

  // ---------- One skipped update ----------

  /** Metadata in which neither structural keys nor formula texts have been touched. */
  ghost predicate PlainChange(m: Metadata, n: Metadata) {
    && (forall k :: IsStructural(k) ==> (k in m <==> k in n) && (k in m ==> m[k] == n[k]))
    && (forall k :: k in n && IsFormulaText(n[k]) ==> k in m && m[k] == n[k])
  }

  lemma {:induction false} SkippedChangeIsPlain(m: Metadata, patch: Metadata, remove: set<string>)
    requires forall k :: k in patch ==> !IsStructural(k) && !IsFormulaText(patch[k])
    requires forall k :: k in remove ==> !IsStructural(k)
    ensures PlainChange(m, MergeMetadata(m, patch, remove))
  {
    hide IsStructural, IsFormulaText;
  }

  lemma {:induction false} LowercaseKeysAreStructural()
    ensures forall k :: k in TABLE_KEYS || k in CalcEngine.TABLE_KEYS || k == "_guardians" ==> IsStructural(k)
  {
    hide IsStructural;
    StructuralKey("table"); StructuralKey("table_name"); StructuralKey("category"); StructuralKey("kategorie");
    StructuralKey("type"); StructuralKey("typ"); StructuralKey("_guardians");
  }

  /** A key that is already trimmed and lower case is looked up as it is. */
  lemma {:induction false} StructuralKey(k: string)
    requires k in STRUCTURAL_KEYS
    requires k != "" && !IsSpace(k[0]) && !IsSpace(k[|k| - 1]) && forall i :: 0 <= i < |k| ==> LowerChar(k[i]) == k[i]
    ensures IsStructural(k)
  {
    hide Strip, Lower;
    StripFixes(k);
    LowerFixes(k);
  }

  lemma {:induction false} SameTable(prefix: string -> Option<string>, keys: seq<string>, value: Json, m: Metadata, n: Metadata)
    requires forall k :: k in keys ==> (k in m <==> k in n) && (k in m ==> m[k] == n[k])
    ensures Tables.TableName(prefix, keys, value, m) == Tables.TableName(prefix, keys, value, n)
  {
    hide Tables.FirstText, Tables.NormalizeTableName;
    Tables.FirstTextDependsOnKeys(m, n, keys);
  }

  lemma {:induction false} PlainChangeKeepsKeys(m: Metadata, n: Metadata, k: string)
    requires PlainChange(m, n) && (k in TABLE_KEYS || k in CalcEngine.TABLE_KEYS || k == "_guardians")
    ensures (k in m <==> k in n) && (k in m ==> m[k] == n[k])
  {
    hide IsStructural, IsFormulaText;
    LowercaseKeysAreStructural();
  }

  /** A plain change keeps the table, the registry formulas and the guardian rules of a row. */
  lemma {:induction false} PlainChangeKeepsTable(cfg: Config, scope: Scope, row: AtomRow, n: Metadata)
    requires PlainChange(row.metadata, n)
    ensures TableOf(cfg, scope, row.(metadata := n)) == TableOf(cfg, scope, row)
    ensures NodeOf(cfg, scope, row.(metadata := n)).formulas == NodeOf(cfg, scope, row).formulas
    ensures Guardian.RulesOf(n) == Guardian.RulesOf(row.metadata)
  {
    hide PlainChange, Tables.TableName, CalcEngine.RegistryFormulas;
    forall k | k in TABLE_KEYS ensures (k in row.metadata <==> k in n) && (k in row.metadata ==> row.metadata[k] == n[k]) {
      PlainChangeKeepsKeys(row.metadata, n, k);
    }
    SameTable(cfg.engine(scope).prefix, TABLE_KEYS, row.value, row.metadata, n);
    forall k | k in CalcEngine.TABLE_KEYS ensures (k in row.metadata <==> k in n) && (k in row.metadata ==> row.metadata[k] == n[k]) {
      PlainChangeKeepsKeys(row.metadata, n, k);
    }
    SameTable(cfg.engine(scope).prefix, CalcEngine.TABLE_KEYS, row.value, row.metadata, n);
    PlainChangeKeepsKeys(row.metadata, n, "_guardians");
  }

  /** A plain change of one row of a quiet galaxy leaves the galaxy quiet and its summary unchanged. */
  lemma {:induction false} PlainChangeKeepsSummary(cfg: Config, scope: Scope, atoms: map<Id, AtomRow>, bonds: map<Id, BondRow>, a: Id, n: Metadata)
    requires a in atoms && Quiet(atoms, bonds) && PlainChange(atoms[a].metadata, n)
    ensures var next := atoms[a := atoms[a].(metadata := n)];
            Quiet(next, bonds) && SummaryOf(cfg, scope, next, bonds) == SummaryOf(cfg, scope, atoms, bonds)
  {
    hide TableOf, NodeOf, PlainChange, TableNames, Quiet, TotalOf, FormulaFields;
    var next := atoms[a := atoms[a].(metadata := n)];
    assert next.Keys == atoms.Keys;
    QuietStays(cfg, scope, atoms, bonds, a, n);
    PlainChangeKeepsTable(cfg, scope, atoms[a], n);
    NamesUnchanged(cfg, scope, atoms, next);
    QuietHasNoFormulas(atoms, bonds);
    QuietHasNoFormulas(next, bonds);
  }

  lemma {:induction false} QuietStays(cfg: Config, scope: Scope, atoms: map<Id, AtomRow>, bonds: map<Id, BondRow>, a: Id, n: Metadata)
    requires a in atoms && Quiet(atoms, bonds) && PlainChange(atoms[a].metadata, n)
    ensures Quiet(atoms[a := atoms[a].(metadata := n)], bonds)
  {
    hide TableOf, NodeOf, PlainChange, FormulaFields, Guardian.RulesOf, Guardian.CountDicts;
    PlainChangeKeepsTable(cfg, scope, atoms[a], n);
    PlainHasNoFormulas(atoms[a].metadata, n);
  }

  lemma NamesUnchanged(cfg: Config, scope: Scope, atoms: map<Id, AtomRow>, next: map<Id, AtomRow>)
    requires next.Keys == atoms.Keys
    requires forall x :: x in atoms ==> TableOf(cfg, scope, next[x]) == TableOf(cfg, scope, atoms[x])
    ensures TableNames(cfg, scope, next) == TableNames(cfg, scope, atoms)
  {
    hide TableOf;
    forall t ensures t in TableNames(cfg, scope, next) <==> t in TableNames(cfg, scope, atoms) {
      if t in TableNames(cfg, scope, next) {
        var x :| x in next && TableOf(cfg, scope, next[x]) == t;
        assert x in atoms && TableOf(cfg, scope, atoms[x]) == t;
      }
      if t in TableNames(cfg, scope, atoms) {
        var x :| x in atoms && TableOf(cfg, scope, atoms[x]) == t;
        assert x in next && TableOf(cfg, scope, next[x]) == t;
      }
    }
  }

  lemma QuietHasNoFormulas(atoms: map<Id, AtomRow>, bonds: map<Id, BondRow>)
    requires Quiet(atoms, bonds)
    ensures TotalOf(FormulaCounts(atoms)) == 0
  {
    hide FormulaFields, TotalOf;
    AllZero(FormulaCounts(atoms));
  }

  lemma PlainHasNoFormulas(m: Metadata, n: Metadata)
    requires PlainChange(m, n) && FormulaFields(m) == {}
    ensures FormulaFields(n) == {}
  {
    hide IsStructural, IsFormulaText;
    assert forall f :: f in n && IsFormulaText(n[f]) ==> f in FormulaFields(m);
  }

  /** The exact effect of such a change: the counters stay right iff the number of marker leaves of the row does. */
  lemma {:induction false} PlainChangeExact(cfg: Config, scope: Scope, atoms: map<Id, AtomRow>, bonds: map<Id, BondRow>, a: Id, n: Metadata)
    requires a in atoms && Quiet(atoms, bonds) && PlainChange(atoms[a].metadata, n)
    ensures var next := atoms[a := atoms[a].(metadata := n)];
            && SummaryOf(cfg, scope, next, bonds) == SummaryOf(cfg, scope, atoms, bonds)
            && (HealthOf(cfg, scope, next, bonds) == HealthOf(cfg, scope, atoms, bonds) <==>
                |SentinelFields(cfg, scope, next[a])| == |SentinelFields(cfg, scope, atoms[a])|)
  {
    hide SummaryOf, HealthOf, PlainChange, SentinelFields, Quiet, TotalOf;
    var next := atoms[a := atoms[a].(metadata := n)];
    PlainChangeKeepsSummary(cfg, scope, atoms, bonds, a, n);
    QuietHealth(cfg, scope, atoms, bonds);
    QuietHealth(cfg, scope, next, bonds);
    SumSplit(SentinelCounts(cfg, scope, atoms), a);
    SumSplit(SentinelCounts(cfg, scope, next), a);
    assert SentinelCounts(cfg, scope, next) - {a} == SentinelCounts(cfg, scope, atoms) - {a};
  }

  // ---------- The stored rows ----------

  /** The stored rows exist and agree with the state. */
  ghost predicate Fresh(cfg: Config, s: State, scope: Scope, summary: Option<Summary>, health: Option<Health>) {
    summary.Some? && health.Some? && Recompute(cfg, s, scope) == (summary.value, health.value)
  }

  /** The update reaches an active row of its galaxy. */
  predicate ReachesActive(s: State, e: Event) {
    e.branch.None? && e.body.MetadataUpdated? && IsActive(s, e.scope, e.entity)
  }

  /** Patching the row and removing keys from it leaves its number of marker leaves unchanged. */
  predicate KeepsMarkerLeaves(cfg: Config, scope: Scope, row: AtomRow, patch: Metadata, remove: set<string>) {
    |SentinelFields(cfg, scope, row.(metadata := MergeMetadata(row.metadata, patch, remove)))| == |SentinelFields(cfg, scope, row)|
  }

  /** The event, as it stands, will not change the number of marker leaves of an active row. */
  predicate KeepsSentinels(cfg: Config, s: State, e: Event) {
    ReachesActive(s, e) ==>
      KeepsMarkerLeaves(cfg, e.scope, s.atoms[e.entity], EffectivePatch(e.body), EffectiveRemove(e.body))
  }

  lemma {:induction false} UpdateOfRows(s: State, e: Event)
    requires e.branch.None? && e.body.MetadataUpdated?
    ensures ActiveBonds(Apply(s, e), e.scope) == ActiveBonds(s, e.scope)
    ensures if IsActive(s, e.scope, e.entity)
            then ActiveAtoms(Apply(s, e), e.scope) ==
                 ActiveAtoms(s, e.scope)[e.entity := s.atoms[e.entity].(metadata :=
                   MergeMetadata(s.atoms[e.entity].metadata, EffectivePatch(e.body), EffectiveRemove(e.body)))]
            else ActiveAtoms(Apply(s, e), e.scope) == ActiveAtoms(s, e.scope)
  {
    hide MergeMetadata, EffectivePatch, EffectiveRemove;
    assert ActiveAtoms(Apply(s, e), e.scope).Keys == ActiveAtoms(s, e.scope).Keys;
  }

  /**
   A skipped update on fresh rows: they stay fresh iff patch and removed keys leave the number of
   marker leaves of the active row they reach, if any, unchanged.
   */
  lemma {:induction false} SkipIsExact(cfg: Config, s: State, e: Event, summary: Option<Summary>, health: Option<Health>)
    requires e.branch.None? && CanSkip(summary, health, e) && Fresh(cfg, s, e.scope, summary, health)
    ensures Fresh(cfg, Apply(s, e), e.scope, summary, health) <==> KeepsSentinels(cfg, s, e)
  {
    hide SummaryOf, HealthOf, SentinelFields, Quiet, PlainChange, MaySkip, Apply, MergeMetadata;
    UpdateOfRows(s, e);
    if ReachesActive(s, e) {
      var atoms, bonds := ActiveAtoms(s, e.scope), ActiveBonds(s, e.scope);
      var row := s.atoms[e.entity];
      var n := MergeMetadata(row.metadata, EffectivePatch(e.body), EffectiveRemove(e.body));
      RowAfterUpdate(s, e);
      if EffectivePatch(e.body) == map[] && EffectiveRemove(e.body) == {} {
        assert n == row.metadata by { EmptyMerge(row.metadata); }
        assert atoms[e.entity := row.(metadata := n)] == atoms;
      } else {
        SkipMeansQuiet(cfg, s, e, summary.value, health.value);
        PlainChangeExact(cfg, e.scope, atoms, bonds, e.entity, n);
      }
    }
  }

  lemma EmptyMerge(m: Metadata)
    ensures MergeMetadata(m, map[], {}) == m
  {
  }

  /** Without the marker text in the patch and in the row, no marker leaf can appear or vanish. */
  lemma {:induction false} NoMarkerTextKeepsSentinels(cfg: Config, s: State, e: Event)
    requires ReachesActive(s, e)
    requires forall k :: k in s.atoms[e.entity].metadata ==> s.atoms[e.entity].metadata[k] != CIRC
    requires forall k :: k in e.body.patch ==> e.body.patch[k] != CIRC
    ensures KeepsSentinels(cfg, s, e)
  {
    hide NodeOf, EffectiveRemove;
    var row := s.atoms[e.entity];
    assert SentinelFields(cfg, e.scope, row) == {};
    assert SentinelFields(cfg, e.scope, row.(metadata := MergeMetadata(row.metadata, EffectivePatch(e.body), EffectiveRemove(e.body)))) == {};
  }

  lemma RowAfterUpdate(s: State, e: Event)
    requires ReachesActive(s, e)
    ensures e.entity in Apply(s, e).atoms
    ensures Apply(s, e).atoms[e.entity] == s.atoms[e.entity].(metadata :=
              MergeMetadata(s.atoms[e.entity].metadata, EffectivePatch(e.body), EffectiveRemove(e.body)))
  {
    hide MergeMetadata, EffectivePatch, EffectiveRemove;
  }

  lemma {:induction false} SkipMeansQuiet(cfg: Config, s: State, e: Event, summary: Summary, health: Health)
    requires ReachesActive(s, e) && CanSkip(Some(summary), Some(health), e)
    requires Fresh(cfg, s, e.scope, Some(summary), Some(health))
    requires EffectivePatch(e.body) != map[] || EffectiveRemove(e.body) != {}
    ensures Quiet(ActiveAtoms(s, e.scope), ActiveBonds(s, e.scope))
    ensures PlainChange(s.atoms[e.entity].metadata,
                        MergeMetadata(s.atoms[e.entity].metadata, EffectivePatch(e.body), EffectiveRemove(e.body)))
  {
    hide SummaryOf, HealthOf, Quiet, PlainChange, IsStructural, IsFormulaText, CleanKeys;
    var atoms, bonds := ActiveAtoms(s, e.scope), ActiveBonds(s, e.scope);
    assert e.body.valid;
    ZeroCountersMeanQuiet(cfg, e.scope, atoms, bonds);
    SkippedChangeIsPlain(s.atoms[e.entity].metadata, EffectivePatch(e.body), EffectiveRemove(e.body));
  }

  // ---------- A batch of events ----------

  predicate Projected(e: Event) {
    e.branch.None? && !e.body.Unprojected?
  }

  /** Creating an asteroid does not take over a row of another galaxy. */
  predicate OwnId(s: State, e: Event) {
    Projected(e) && e.body.AsteroidCreated? && e.entity in s.atoms ==> s.atoms[e.entity].scope == e.scope
  }

  lemma {:induction false} OtherGalaxyUntouched(s: State, e: Event, scope: Scope)
    requires OwnId(s, e) && (e.scope != scope || !Projected(e))
    ensures ActiveAtoms(Apply(s, e), scope) == ActiveAtoms(s, scope)
    ensures ActiveBonds(Apply(s, e), scope) == ActiveBonds(s, scope)
  {
    hide Apply, OwnId;
    forall a ensures a in ActiveAtoms(Apply(s, e), scope) <==> a in ActiveAtoms(s, scope) {
      OtherAtomUntouched(s, e, scope, a);
    }
    forall a | a in ActiveAtoms(s, scope) ensures Apply(s, e).atoms[a] == s.atoms[a] {
      OtherAtomUntouched(s, e, scope, a);
    }
    assert ActiveAtoms(Apply(s, e), scope) == ActiveAtoms(s, scope);
    hide ActiveAtoms;
    forall b ensures b in ActiveBonds(Apply(s, e), scope) <==> b in ActiveBonds(s, scope) {
      OtherBondUntouched(s, e, scope, b);
    }
    forall b | b in ActiveBonds(s, scope) ensures Apply(s, e).bonds[b] == s.bonds[b] {
      OtherBondUntouched(s, e, scope, b);
    }
  }

  lemma OtherAtomUntouched(s: State, e: Event, scope: Scope, a: Id)
    requires OwnId(s, e) && (e.scope != scope || !Projected(e))
    ensures IsActive(Apply(s, e), scope, a) <==> IsActive(s, scope, a)
    ensures IsActive(s, scope, a) ==> Apply(s, e).atoms[a] == s.atoms[a]
  {
    hide MergeMetadata, EffectivePatch, EffectiveRemove, RelationTaken, DeleteTouching;
  }

  predicate IsActiveBond(s: State, scope: Scope, b: Id) {
    b in s.bonds && s.bonds[b].scope == scope && !s.bonds[b].isDeleted
  }

  lemma OtherBondUntouched(s: State, e: Event, scope: Scope, b: Id)
    requires e.scope != scope || !Projected(e)
    ensures IsActiveBond(Apply(s, e), scope, b) <==> IsActiveBond(s, scope, b)
    ensures IsActiveBond(s, scope, b) ==> Apply(s, e).bonds[b] == s.bonds[b]
  {
    hide MergeMetadata, EffectivePatch, EffectiveRemove, RelationTaken;
  }

  /** Some event of the galaxy asks for recomputation, judged on the rows stored before the batch. */
  predicate NeedsRefresh(events: seq<Event>, scope: Scope, summary: Option<Summary>, health: Option<Health>) {
    exists i :: 0 <= i < |events| && Projected(events[i]) && events[i].scope == scope && !CanSkip(summary, health, events[i])
  }

  /** Along the run, ids are not taken over and skipped updates do not add or remove marker leaves. */
  predicate Orderly(cfg: Config, s: State, events: seq<Event>) {
    forall i :: 0 <= i < |events| ==>
      var t := Replay(s, events[..i]);
      OwnId(t, events[i]) && KeepsSentinels(cfg, t, events[i])
  }

  /** When every event of the galaxy may be skipped, the rows it was judged on stay right to the end. */
  lemma {:induction false} SkippedBatchStaysFresh(cfg: Config, s: State, events: seq<Event>, scope: Scope,
                                                  summary: Option<Summary>, health: Option<Health>)
    requires Fresh(cfg, s, scope, summary, health) && Orderly(cfg, s, events)
    requires !NeedsRefresh(events, scope, summary, health)
    ensures Fresh(cfg, Replay(s, events), scope, summary, health)
  {
    hide Apply, OwnId, KeepsSentinels, ReachesActive, SummaryOf, HealthOf, CanSkip;
    if events != [] {
      var last := |events| - 1;
      var e, t := events[last], Replay(s, events[..last]);
      forall i | 0 <= i < last
        ensures Replay(s, events[..last][..i]) == Replay(s, events[..i])
      {
        assert events[..last][..i] == events[..i];
      }
      SkippedBatchStaysFresh(cfg, s, events[..last], scope, summary, health);
      if Projected(e) && e.scope == scope {
        assert CanSkip(summary, health, e);
        SkipIsExact(cfg, t, e, summary, health);
      } else {
        OtherGalaxyUntouched(t, e, scope);
      }
    }
  }

  // ---------- The exact condition for a whole batch ----------

  predicate OwnIds(s: State, events: seq<Event>) {
    forall i :: 0 <= i < |events| ==> OwnId(Replay(s, events[..i]), events[i])
  }

  lemma OwnIdsInit(s: State, events: seq<Event>)
    requires events != [] && OwnIds(s, events)
    ensures OwnIds(s, events[..|events| - 1])
    ensures OwnId(Replay(s, events[..|events| - 1]), events[|events| - 1])
  {
    hide Replay, OwnId;
    var last := |events| - 1;
    forall i | 0 <= i < last ensures OwnId(Replay(s, events[..last][..i]), events[..last][i]) {
      assert events[..last][..i] == events[..i];
    }
  }

  /** The active fields of the galaxy whose own text is the marker. */
  ghost function MarkerLeaves(cfg: Config, s: State, scope: Scope): nat {
    TotalOf(SentinelCounts(cfg, scope, ActiveAtoms(s, scope)))
  }

  /** The rows of the galaxy that count. */
  predicate SameActiveRows(s: State, t: State, scope: Scope) {
    ActiveAtoms(t, scope) == ActiveAtoms(s, scope) && ActiveBonds(t, scope) == ActiveBonds(s, scope)
  }

  ghost predicate IsQuiet(s: State, scope: Scope) {
    Quiet(ActiveAtoms(s, scope), ActiveBonds(s, scope))
  }

  /** One event that may be skipped, in a quiet galaxy. */
  lemma {:induction false} QuietStep(cfg: Config, s: State, e: Event, summary: Summary, health: Health)
    requires Projected(e) && CanSkip(Some(summary), Some(health), e) && IsQuiet(s, e.scope)
    ensures IsQuiet(Apply(s, e), e.scope)
    ensures SummaryOf(cfg, e.scope, ActiveAtoms(Apply(s, e), e.scope), ActiveBonds(Apply(s, e), e.scope)) ==
            SummaryOf(cfg, e.scope, ActiveAtoms(s, e.scope), ActiveBonds(s, e.scope))
  {
    hide SummaryOf, Quiet, PlainChange, Apply, MergeMetadata, IsStructural, IsFormulaText, CleanKeys, ActiveAtoms, ActiveBonds;
    UpdateOfRows(s, e);
    if ReachesActive(s, e) {
      var row := s.atoms[e.entity];
      var patch, remove := EffectivePatch(e.body), EffectiveRemove(e.body);
      ActiveRow(s, e.scope, e.entity);
      assert PlainChange(row.metadata, MergeMetadata(row.metadata, patch, remove)) by {
        SkippedChangeIsPlain(row.metadata, patch, remove);
      }
      PlainChangeKeepsSummary(cfg, e.scope, ActiveAtoms(s, e.scope), ActiveBonds(s, e.scope), e.entity, MergeMetadata(row.metadata, patch, remove));
    }
  }

  lemma ActiveRow(s: State, scope: Scope, a: Id)
    requires IsActive(s, scope, a)
    ensures a in ActiveAtoms(s, scope) && ActiveAtoms(s, scope)[a] == s.atoms[a]
  {
  }

  lemma {:induction false} QuietBatch(cfg: Config, s: State, events: seq<Event>, scope: Scope, summary: Summary, health: Health)
    requires IsQuiet(s, scope) && OwnIds(s, events) && !NeedsRefresh(events, scope, Some(summary), Some(health))
    ensures var t := Replay(s, events);
            && IsQuiet(t, scope)
            && SummaryOf(cfg, scope, ActiveAtoms(t, scope), ActiveBonds(t, scope)) ==
               SummaryOf(cfg, scope, ActiveAtoms(s, scope), ActiveBonds(s, scope))
    decreases |events|
  {
    hide Apply, OwnIds, OwnId, IsQuiet, SummaryOf, CanSkip, ActiveAtoms, ActiveBonds;
    if events != [] {
      var init, e := events[..|events| - 1], events[|events| - 1];
      OwnIdsInit(s, events);
      QuietBatch(cfg, s, init, scope, summary, health);
      if Projected(e) && e.scope == scope {
        QuietStep(cfg, Replay(s, init), e, summary, health);
      } else {
        OtherGalaxyUntouched(Replay(s, init), e, scope);
        SameRowsAreQuiet(Replay(s, init), Apply(Replay(s, init), e), scope);
      }
    }
  }

  lemma SameRowsAreQuiet(s: State, t: State, scope: Scope)
    requires IsQuiet(s, scope) && ActiveAtoms(t, scope) == ActiveAtoms(s, scope) && ActiveBonds(t, scope) == ActiveBonds(s, scope)
    ensures IsQuiet(t, scope)
  {
    hide Quiet, ActiveAtoms, ActiveBonds;
  }

  predicate ZeroCounters(summary: Summary, health: Health) {
    summary.bonds == 0 && summary.formulaFields == 0 && health.guardianRules == 0
  }

  /** Above zero counters only updates without content may be skipped. */
  lemma {:induction false} StillBatch(s: State, events: seq<Event>, scope: Scope, summary: Summary, health: Health)
    requires !ZeroCounters(summary, health) && OwnIds(s, events) && !NeedsRefresh(events, scope, Some(summary), Some(health))
    ensures SameActiveRows(s, Replay(s, events), scope)
    decreases |events|
  {
    hide Apply, OwnIds, OwnId, ActiveAtoms, ActiveBonds, IsStructural, IsFormulaText;
    if events != [] {
      var init, e := events[..|events| - 1], events[|events| - 1];
      OwnIdsInit(s, events);
      StillBatch(s, init, scope, summary, health);
      var t := Replay(s, init);
      if Projected(e) && e.scope == scope {
        assert CanSkip(Some(summary), Some(health), e);
        UpdateOfRows(t, e);
        if IsActive(t, scope, e.entity) {
          ActiveRow(t, scope, e.entity);
          EmptyMerge(t.atoms[e.entity].metadata);
          assert EffectivePatch(e.body) == map[] && EffectiveRemove(e.body) == {};
        }
      } else {
        OtherGalaxyUntouched(t, e, scope);
      }
    }
  }

  lemma HealthWithIsInjective(rules: nat, alerted: nat, a: nat, b: nat)
    ensures HealthWith(rules, alerted, a) == HealthWith(rules, alerted, b) <==> a == b
  {
  }

  /**
   A batch whose events of the galaxy may all be skipped leaves fresh counters right iff the galaxy
   has as many marker leaves after it as before.
   */
  lemma {:induction false} SkippedBatchIsExact(cfg: Config, s: State, events: seq<Event>, scope: Scope,
                                               summary: Option<Summary>, health: Option<Health>)
    requires Fresh(cfg, s, scope, summary, health) && OwnIds(s, events) && !NeedsRefresh(events, scope, summary, health)
    ensures Fresh(cfg, Replay(s, events), scope, summary, health) <==>
            MarkerLeaves(cfg, Replay(s, events), scope) == MarkerLeaves(cfg, s, scope)
  {
    hide Replay, OwnIds, NeedsRefresh, SummaryOf, HealthOf, Quiet, ActiveAtoms, ActiveBonds, TotalOf, SentinelCounts, HealthWith;
    var t := Replay(s, events);
    if ZeroCounters(summary.value, health.value) {
      ZeroCountersMeanQuiet(cfg, scope, ActiveAtoms(s, scope), ActiveBonds(s, scope));
      QuietBatch(cfg, s, events, scope, summary.value, health.value);
      QuietHealth(cfg, scope, ActiveAtoms(s, scope), ActiveBonds(s, scope));
      QuietHealth(cfg, scope, ActiveAtoms(t, scope), ActiveBonds(t, scope));
      HealthWithIsInjective(0, 0, MarkerLeaves(cfg, t, scope), MarkerLeaves(cfg, s, scope));
    } else {
      StillBatch(s, events, scope, summary.value, health.value);
    }
  }

  // ---------- Logs without the marker text ----------

  predicate NoMarkerText(m: Metadata) {
    forall k :: k in m ==> m[k] != CIRC
  }

  predicate NoMarkerTextInRows(s: State) {
    forall a :: a in s.atoms ==> NoMarkerText(s.atoms[a].metadata)
  }

  predicate NoMarkerTextInEvent(e: Event) {
    match e.body
    case AsteroidCreated(_, metadata) => NoMarkerText(metadata)
    case MetadataUpdated(patch, _, _) => NoMarkerText(patch)
    case _ => true
  }

  lemma NoMarkerTextStays(s: State, e: Event)
    requires NoMarkerTextInRows(s) && NoMarkerTextInEvent(e)
    ensures NoMarkerTextInRows(Apply(s, e))
  {
    hide RelationTaken, DeleteTouching, CleanKeys, NoMarkerText;
    if e.body.MetadataUpdated? && e.entity in s.atoms {
      MergeHasNoMarkerText(s.atoms[e.entity].metadata, EffectivePatch(e.body), EffectiveRemove(e.body)) by {
        if !e.body.valid { assert NoMarkerText(map[]) by { EmptyHasNoMarkerText(); } }
      }
    }
  }

  lemma EmptyHasNoMarkerText()
    ensures NoMarkerText(map[])
  {
  }

  lemma MergeHasNoMarkerText(current: Metadata, patch: Metadata, remove: set<string>)
    requires NoMarkerText(current) && NoMarkerText(patch)
    ensures NoMarkerText(MergeMetadata(current, patch, remove))
  {
  }

  /** Well-formed logs without the marker text satisfy everything the batch theorem asks of a run. */
  lemma {:induction false} MarkerFreeLogsAreOrderly(cfg: Config, s: State, log: seq<Event>)
    requires WellFormed(s, log) && NoMarkerTextInRows(s)
    requires forall i :: 0 <= i < |log| ==> NoMarkerTextInEvent(log[i])
    ensures Orderly(cfg, s, log) && NoMarkerTextInRows(Replay(s, log))
  {
    hide Apply, NoMarkerTextInRows, NoMarkerTextInEvent, KeepsSentinels, ReachesActive, OwnId, Admissible;
    if log != [] {
      var last := |log| - 1;
      MarkerFreeLogsAreOrderly(cfg, s, log[..last]);
      var e, t := log[last], Replay(s, log[..last]);
      NoMarkerTextStays(t, e);
      MarkerFreeStepIsOrderly(cfg, t, e);
      forall i | 0 <= i < |log|
        ensures OwnId(Replay(s, log[..i]), log[i]) && KeepsSentinels(cfg, Replay(s, log[..i]), log[i])
      {
        if i < last { assert log[..last][..i] == log[..i] && log[..last][i] == log[i]; }
      }
    }
  }

  lemma {:induction false} MarkerFreeStepIsOrderly(cfg: Config, s: State, e: Event)
    requires Admissible(s, e) && NoMarkerTextInRows(s) && NoMarkerTextInEvent(e)
    ensures OwnId(s, e) && KeepsSentinels(cfg, s, e)
  {
    hide Apply, KeepsMarkerLeaves;
    if ReachesActive(s, e) { NoMarkerTextKeepsSentinels(cfg, s, e); }
  }

  /** Where the fast path goes wrong: writing the marker text into an otherwise plain field. */
  lemma {:induction false} MarkerTextMakesCountersStale(cfg: Config, scope: Scope)
    requires cfg.engine(scope).contracts == map[] && cfg.engine(scope).numeral("#CIRC!").None?
    ensures var row := AtomRow(scope, JNull, map[], false, 0, None);
            var s := State(map[7 := row], map[], map[]);
            var e := Event(1, scope, None, 7, 1, MetadataUpdated(map["note" := CIRC], [], true));
            var (summary, health) := Recompute(cfg, s, scope);
            CanSkip(Some(summary), Some(health), e) && !Fresh(cfg, Apply(s, e), scope, Some(summary), Some(health))
  {
    hide Recompute, SentinelFields, MergeMetadata, IsStructural, IsFormulaText, CleanKeys, Apply;
    var row := AtomRow(scope, JNull, map[], false, 0, None);
    var s := State(map[7 := row], map[], map[]);
    var e := Event(1, scope, None, 7, 1, MetadataUpdated(map["note" := CIRC], [], true));
    var (summary, health) := Recompute(cfg, s, scope);
    SingleRowIsQuiet(cfg, scope, row, s);
    NoteIsPlain();
    assert CanSkip(Some(summary), Some(health), e);
    RowAfterUpdate(s, e);
    MarkerCounts(cfg, scope, row);
    SkipIsExact(cfg, s, e, Some(summary), Some(health));
  }

  lemma {:induction false} SingleRowIsQuiet(cfg: Config, scope: Scope, row: AtomRow, s: State)
    requires row == AtomRow(scope, JNull, map[], false, 0, None) && s == State(map[7 := row], map[], map[])
    ensures var (summary, health) := Recompute(cfg, s, scope);
            summary.bonds == 0 && summary.formulaFields == 0 && health.guardianRules == 0
  {
    hide TableNames, CircularCounts, AlertedAtoms, TotalOf;
    AllZero(FormulaCounts(ActiveAtoms(s, scope)));
    AllZero(GuardianCounts(ActiveAtoms(s, scope)));
    assert ActiveBonds(s, scope) == map[];
  }

  lemma NoteIsPlain()
    ensures !IsStructural("note") && !IsFormulaText(CIRC) && CleanKeys([]) == {}
  {
    hide Strip, Lower;
    StripFixes("note");
    LowerFixes("note");
    StripFixes("#CIRC!");
  }

  lemma {:induction false} MarkerCounts(cfg: Config, scope: Scope, row: AtomRow)
    requires row == AtomRow(scope, JNull, map[], false, 0, None)
    requires cfg.engine(scope).contracts == map[] && cfg.engine(scope).numeral("#CIRC!").None?
    ensures |SentinelFields(cfg, scope, row)| == 0
    ensures |SentinelFields(cfg, scope, row.(metadata := MergeMetadata(map[], map["note" := CIRC], {})))| == 1
  {
    hide Tables.TableName;
    var next := row.(metadata := MergeMetadata(map[], map["note" := CIRC], {}));
    assert next.metadata == map["note" := CIRC];
    assert NodeOf(cfg, scope, next).formulas == map[];
    hide NodeOf;
    assert CalcEngine.LeafValue(cfg.engine(scope), next.metadata, "note") == CIRC;
    assert forall f :: f in next.metadata ==> f == "note";
    assert SentinelFields(cfg, scope, next) == {"note"};
  }
}
