/**
 The calc engine: formulas from registries and metadata, FLOW edges between active atoms, and a
 depth-first resolver that memoises into one shared cache while keys are still in progress.
 Everything it returns is the denotation of the dependency graph.
 */
module CalcEngine {
  import opened Values
  import opened FormulaGraph
  import opened Aggregation
  import opened Tables

  datatype RegistryEntry = RegistryEntry(target: string, expression: string, enabled: bool)

  datatype Atom = Atom(id: Id, value: Json, metadata: Metadata)

  datatype Bond = Bond(source: Id, target: Id, kind: string)

  /**
   What the engine takes from its surroundings: the formula pattern, the decimal constructor on
   cleaned-up text, the table-prefix pattern, table ids, and the latest contract of each table.
   */
  datatype Config = Config(
    pattern: string -> Option<FormulaSpec>,
    numeral: string -> Option<real>,
    prefix: string -> Option<string>,
    tableId: string -> nat,
    contracts: map<nat, seq<RegistryEntry>>)

  datatype Node = Node(metadata: Metadata, formulas: map<string, FormulaSpec>)

  datatype Env = Env(nodes: map<Id, Node>, incoming: map<Id, set<Id>>)

  const TABLE_KEYS: seq<string> := ["kategorie", "category", "typ", "type", "table", "table_name"]
  const MISSING_ATTR: Json := JText("#ERR:FORMULA_SOURCE_ATTR_MISSING")

  // ---------- Values and formulas ----------

  function ToDecimal(cfg: Config, v: Json): Option<real> {
    match v
    case JNum(r) => Some(r)
    case JText(s) => cfg.numeral(s)
    case _ => None
  }

  function LeafValue(cfg: Config, metadata: Metadata, field: string): Json {
    var raw := if field in metadata then metadata[field] else JNull;
    match ToDecimal(cfg, raw)
    case Some(r) => JNum(r)
    case None => raw
  }

  /** How a resolved source value enters an aggregate. */
  function SourceNumber(cfg: Config, v: Json): Option<real> {
    if v.JText? && StartsWith(v.s, "#ERR:") then None else ToDecimal(cfg, v)
  }

  function ParseFormula(cfg: Config, text: string): Option<FormulaSpec> {
    var normalized := Strip(text);
    if normalized == "" then None else
      match cfg.pattern(normalized)
      case Some(spec) => if spec.attr == "" then None else Some(spec)
      case None => None
  }

  function AfterLastDot(s: string): string {
    if s == "" then ""
    else if '.' in s[1..] then AfterLastDot(s[1..])
    else if s[0] == '.' then s[1..] else s
  }

  function TargetField(target: string): string {
    var text := Strip(target);
    if '.' in text then Strip(AfterLastDot(text)) else text
  }

  /** The field and formula an entry contributes, when it is enabled and well formed. */
  function EntryFormula(cfg: Config, entry: RegistryEntry): Option<(string, FormulaSpec)> {
    var field := TargetField(entry.target);
    if !entry.enabled || field == "" then None else
      match ParseFormula(cfg, entry.expression)
      case Some(spec) => Some((field, spec))
      case None => None
  }

  function RegistryFormulas(cfg: Config, entries: seq<RegistryEntry>): map<string, FormulaSpec> {
    if entries == [] then map[] else
      var before := RegistryFormulas(cfg, entries[..|entries| - 1]);
      match EntryFormula(cfg, entries[|entries| - 1])
      case Some(pair) => before[pair.0 := pair.1]
      case None => before
  }

  predicate Contributes(cfg: Config, entry: RegistryEntry, field: string) {
    EntryFormula(cfg, entry).Some? && EntryFormula(cfg, entry).value.0 == field
  }

  /** The last usable entry for a field decides its formula; without one the field has none. */
  lemma {:induction false} LastEntryWins(cfg: Config, entries: seq<RegistryEntry>, field: string, i: nat)
    requires i < |entries| && Contributes(cfg, entries[i], field)
    requires forall j :: i < j < |entries| ==> !Contributes(cfg, entries[j], field)
    ensures field in RegistryFormulas(cfg, entries)
    ensures RegistryFormulas(cfg, entries)[field] == EntryFormula(cfg, entries[i]).value.1
  {
    hide EntryFormula;
    var last := |entries| - 1;
    if i < last {
      assert !Contributes(cfg, entries[last], field);
      LastEntryWins(cfg, entries[..last], field, i);
    }
  }

  // ---------- The graph an atom list stands for ----------

  function NormalizeBondType(raw: string): string {
    Replace(Replace(Upper(Strip(raw)), '-', '_'), ' ', '_')
  }

  predicate IsFlow(kind: string) {
    NormalizeBondType(kind) in {"FLOW", "DATAFLOW", "DATA_FLOW", "FORMULA"}
  }

  function NodeOf(cfg: Config, atom: Atom): Node {
    var table := cfg.tableId(Lower(TableName(cfg.prefix, TABLE_KEYS, atom.value, atom.metadata)));
    var entries := if table in cfg.contracts then cfg.contracts[table] else [];
    Node(atom.metadata, RegistryFormulas(cfg, entries))
  }

  function NodesOf(cfg: Config, atoms: seq<Atom>): map<Id, Node> {
    if atoms == [] then map[] else
      NodesOf(cfg, atoms[..|atoms| - 1])[atoms[|atoms| - 1].id := NodeOf(cfg, atoms[|atoms| - 1])]
  }

  function FlowSources(ids: set<Id>, bonds: seq<Bond>, target: Id): set<Id> {
    set b | b in bonds && IsFlow(b.kind) && b.source in ids && b.target == target :: b.source
  }

  function EnvOf(cfg: Config, atoms: seq<Atom>, bonds: seq<Bond>): Env {
    var nodes := NodesOf(cfg, atoms);
    Env(nodes, map t | t in nodes.Keys && FlowSources(nodes.Keys, bonds, t) != {} :: FlowSources(nodes.Keys, bonds, t))
  }

  function SourcesOf(env: Env, node: Id): set<Id> {
    if node in env.incoming then env.incoming[node] else {}
  }

  predicate Closed(env: Env) {
    forall t, s :: t in env.incoming && s in env.incoming[t] ==> s in env.nodes
  }

  function FieldsOf(node: Node): set<string> {
    node.metadata.Keys + node.formulas.Keys
  }

  function KeysOf(env: Env): set<Key> {
    set n, f | n in env.nodes && f in FieldsOf(env.nodes[n]) :: Key(n, f)
  }

  /** Registry first, then a formula text in the metadata; an unreadable one has no source attribute. */
  function FormulaFor(cfg: Config, node: Node, field: string): Option<FormulaSpec> {
    if field in node.formulas then Some(node.formulas[field])
    else if field in node.metadata && IsFormulaText(node.metadata[field]) then
      match ParseFormula(cfg, node.metadata[field].s)
      case Some(spec) => Some(spec)
      case None => Some(FormulaSpec(Sum, ""))
    else None
  }

  function SourceKeys(ids: set<Id>, attr: string): set<Key> {
    set s | s in ids :: Key(s, attr)
  }

  function CellFor(cfg: Config, env: Env, k: Key): Cell {
    if k.node !in env.nodes then Leaf(JNull) else
      match FormulaFor(cfg, env.nodes[k.node], k.field)
      case None => Leaf(LeafValue(cfg, env.nodes[k.node].metadata, k.field))
      case Some(spec) =>
        if spec.attr == "" then Leaf(MISSING_ATTR)
        else Formula(spec.op, SourceKeys(SourcesOf(env, k.node), spec.attr))
  }

  ghost function GraphOf(cfg: Config, env: Env): Graph {
    Graph(map k | k in KeysOf(env) :: CellFor(cfg, env, k), v => SourceNumber(cfg, v), r => r)
  }

  lemma GraphReadsNumbers(cfg: Config, env: Env)
    ensures forall v :: GraphOf(cfg, env).number(v) == SourceNumber(cfg, v)
    ensures forall r :: GraphOf(cfg, env).finalize(r) == r
  {
  }

  lemma CellAtIsCellFor(cfg: Config, env: Env, k: Key)
    ensures CellAt(GraphOf(cfg, env), k) == CellFor(cfg, env, k)
  {
    if k !in KeysOf(env) && k.node in env.nodes {
      assert k.field !in FieldsOf(env.nodes[k.node]);
    }
  }

  // ---------- Building the environment ----------

  method RegistryFormulasForTable(cfg: Config, entries: seq<RegistryEntry>) returns (formulas: map<string, FormulaSpec>)
    ensures formulas == RegistryFormulas(cfg, entries)
  {
    hide EntryFormula;
    formulas := map[];
    for i := 0 to |entries|
      invariant formulas == RegistryFormulas(cfg, entries[..i])
    {
      assert entries[..i + 1][..i] == entries[..i];
      var contribution := EntryFormula(cfg, entries[i]);
      if contribution.Some? {
        formulas := formulas[contribution.value.0 := contribution.value.1];
      }
    }
    assert entries[..|entries|] == entries;
  }

  method BuildNodes(cfg: Config, atoms: seq<Atom>) returns (nodes: map<Id, Node>)
    ensures nodes == NodesOf(cfg, atoms)
  {
    nodes := map[];
    for i := 0 to |atoms|
      invariant nodes == NodesOf(cfg, atoms[..i])
    {
      assert atoms[..i + 1][..i] == atoms[..i];
      var table := cfg.tableId(Lower(TableName(cfg.prefix, TABLE_KEYS, atoms[i].value, atoms[i].metadata)));
      var entries := if table in cfg.contracts then cfg.contracts[table] else [];
      var formulas := RegistryFormulasForTable(cfg, entries);
      nodes := nodes[atoms[i].id := Node(atoms[i].metadata, formulas)];
    }
    assert atoms[..|atoms|] == atoms;
  }

  /** `incoming` lists the sources of exactly the targets that have some. */
  ghost predicate Lists(incoming: map<Id, set<Id>>, ids: set<Id>, bonds: seq<Bond>) {
    && (forall t :: t in incoming <==> t in ids && FlowSources(ids, bonds, t) != {})
    && (forall t :: t in incoming ==> incoming[t] == FlowSources(ids, bonds, t))
  }

  lemma FlowSourcesAppend(ids: set<Id>, bonds: seq<Bond>, b: Bond, target: Id)
    ensures FlowSources(ids, bonds + [b], target) ==
            FlowSources(ids, bonds, target) +
            (if IsFlow(b.kind) && b.source in ids && b.target == target then {b.source} else {})
  {
    hide IsFlow;
    var next := bonds + [b];
    assert b in next && forall c :: c in next <==> c in bonds || c == b;
    var extra := if IsFlow(b.kind) && b.source in ids && b.target == target then {b.source} else {};
    assert FlowSources(ids, next, target) <= FlowSources(ids, bonds, target) + extra;
    assert FlowSources(ids, bonds, target) + extra <= FlowSources(ids, next, target);
  }

  lemma ListsNext(incoming: map<Id, set<Id>>, ids: set<Id>, bonds: seq<Bond>, b: Bond)
    requires Lists(incoming, ids, bonds)
    ensures var known := if b.target in incoming then incoming[b.target] else {};
            Lists(if b.source in ids && b.target in ids && IsFlow(b.kind)
                  then incoming[b.target := known + {b.source}] else incoming, ids, bonds + [b])
  {
    hide IsFlow, FlowSources;
    forall t ensures FlowSources(ids, bonds + [b], t) ==
                     FlowSources(ids, bonds, t) +
                     (if IsFlow(b.kind) && b.source in ids && b.target == t then {b.source} else {}) {
      FlowSourcesAppend(ids, bonds, b, t);
    }
  }

  method BuildEnv(cfg: Config, atoms: seq<Atom>, bonds: seq<Bond>) returns (env: Env)
    ensures env == EnvOf(cfg, atoms, bonds) && Closed(env)
  {
    hide NodeOf, IsFlow, FlowSources;
    var nodes := BuildNodes(cfg, atoms);
    var incoming: map<Id, set<Id>> := map[];
    assert Lists(incoming, nodes.Keys, []) by { NoBondsNoSources(nodes.Keys); }
    for i := 0 to |bonds|
      invariant Lists(incoming, nodes.Keys, bonds[..i])
    {
      var b := bonds[i];
      assert bonds[..i + 1] == bonds[..i] + [b];
      ListsNext(incoming, nodes.Keys, bonds[..i], b);
      if b.source in nodes && b.target in nodes && IsFlow(b.kind) {
        incoming := incoming[b.target := (if b.target in incoming then incoming[b.target] else {}) + {b.source}];
      }
    }
    assert bonds[..|bonds|] == bonds;
    env := Env(nodes, incoming);
    assert env.incoming == EnvOf(cfg, atoms, bonds).incoming;
    SourcesAreNodes(nodes.Keys, bonds);
  }

  lemma NoBondsNoSources(ids: set<Id>)
    ensures forall t :: FlowSources(ids, [], t) == {}
  {
    forall t ensures FlowSources(ids, [], t) == {} {}
  }

  lemma SourcesAreNodes(ids: set<Id>, bonds: seq<Bond>)
    ensures forall t :: FlowSources(ids, bonds, t) <= ids
  {
    forall t ensures FlowSources(ids, bonds, t) <= ids {}
  }

  // ---------- Resolution ----------

  predicate IsLeast(m: Id, s: set<Id>) {
    m in s && forall x :: x in s ==> m <= x
  }

  lemma {:induction false} LeastExists(s: set<Id>)
    requires s != {}
    ensures exists m :: IsLeast(m, s)
    decreases |s|
  {
    var x :| x in s;
    var rest := s - {x};
    if rest == {} {
      assert s == {x};
      assert IsLeast(x, s);
    } else {
      LeastExists(rest);
      var m :| IsLeast(m, rest);
      assert forall y :: y in s ==> y == x || y in rest;
      assert IsLeast(if x <= m then x else m, s);
    }
  }

  /** The keys that recursion can pass through. */
  ghost function FormulaKeys(cfg: Config, env: Env): set<Key> {
    set k | k in KeysOf(env) && CellFor(cfg, env, k).Formula?
  }

  class Evaluator {
    const cfg: Config
    const env: Env
    ghost const g: Graph := GraphOf(cfg, env)
    var cache: map<Key, Json>

    constructor (cfg: Config, env: Env)
      ensures this.cfg == cfg && this.env == env && cache == map[]
    {
      this.cfg := cfg;
      this.env := env;
      cache := map[];
    }

    /** Every cache entry, final or written while its key is in progress, is already the meaning of its key. */
    ghost predicate Sound()
      reads this
    {
      forall k :: k in cache ==> cache[k] == Denote(g, k)
    }

    /** Every key being resolved depends on the key asked for next. */
    ghost predicate Awaiting(stack: set<Key>, k: Key) {
      stack <= FormulaKeys(cfg, env) && forall s :: s in stack ==> Below(g, s, k)
    }

    method ResolveField(node: Id, field: string, stack: set<Key>) returns (value: Json)
      requires Closed(env) && node in env.nodes
      requires Sound() && Awaiting(stack, Key(node, field))
      modifies this`cache
      ensures Sound() && old(cache.Keys) + {Key(node, field)} <= cache.Keys
      ensures value == Denote(g, Key(node, field))
      decreases FormulaKeys(cfg, env) - stack, 1
    {
      hide Denote, GraphOf, LeafValue, ParseFormula, IsFormulaText, Below, Gathered, Combine, ToDecimal, AggregateList;
      var key := Key(node, field);
      if key in cache {
        return cache[key];
      }
      if key in stack {
        BelowSelfIsCircular(g, key);
        CircularIff(g, key);
        cache := cache[key := CIRC];
        return CIRC;
      }
      CellAtIsCellFor(cfg, env, key);
      DenoteEquation(g, key);
      var spec := FormulaFor(cfg, env.nodes[node], field);
      if spec.None? {
        value := LeafValue(cfg, env.nodes[node].metadata, field);
      } else if spec.value.attr == "" {
        value := MISSING_ATTR;
      } else {
        value := ResolveSources(key, spec.value, stack + {key});
      }
      cache := cache[key := value];
    }

    /** The loop over the FLOW sources of a formula, in id order. */
    method ResolveSources(key: Key, spec: FormulaSpec, nextStack: set<Key>) returns (value: Json)
      requires Closed(env) && key.node in env.nodes
      requires CellAt(g, key) == Formula(spec.op, SourceKeys(SourcesOf(env, key.node), spec.attr))
      requires Sound() && key in nextStack && nextStack <= FormulaKeys(cfg, env)
      requires forall s :: s in nextStack ==> s == key || Below(g, s, key)
      modifies this`cache
      ensures Sound() && old(cache.Keys) <= cache.Keys
      ensures value == Combine(g, spec.op, DenoteAll(g, Deps(g, key)))
      decreases FormulaKeys(cfg, env) - nextStack, 2
    {
      hide Denote, GraphOf, Below, Gathered, Combine, AggregateList, FormulaKeys, CellAt, ToDecimal;
      var numbers: seq<real> := [];
      var hasCircular := false;
      var rest := SourcesOf(env, key.node);
      ghost var done: set<Id> := {};
      assert SourceKeys(done, spec.attr) == {};
      GatherNone(g);
      GraphReadsNumbers(cfg, env);
      while rest != {}
        invariant Sound() && old(cache.Keys) <= cache.Keys
        invariant done + rest == SourcesOf(env, key.node) && done !! rest
        invariant Gathered(g, SourceKeys(done, spec.attr), numbers, hasCircular)
        decreases rest
      {
        LeastExists(rest);
        var source :| IsLeast(source, rest);
        ghost var child := Key(source, spec.attr);
        AwaitSource(g, nextStack, key, child);
        var sourceValue := ResolveField(source, spec.attr, nextStack);

        GatherNext(g, SourceKeys(done, spec.attr), numbers, hasCircular, child);
        assert SourceKeys(done + {source}, spec.attr) == SourceKeys(done, spec.attr) + {child};
        rest, done := rest - {source}, done + {source};
        if sourceValue == CIRC {
          hasCircular := true;
        } else {
          var number := SourceNumber(cfg, sourceValue);
          if number.Some? {
            numbers := numbers + [number.value];
          }
        }
      }
      assert done == SourcesOf(env, key.node);
      value := if hasCircular then CIRC else JNum(AggregateList(spec.op, numbers));
      GatherDone(g, spec.op, SourceKeys(done, spec.attr), numbers, hasCircular);
    }

    /** The calculated values of every active atom, field by field. */
    method EvaluateAtoms() returns (calculated: map<Id, map<string, Json>>)
      requires Closed(env) && cache == map[]
      modifies this`cache
      ensures calculated.Keys == env.nodes.Keys
      ensures forall n :: n in calculated ==> calculated[n].Keys == FieldsOf(env.nodes[n])
      ensures forall n, f :: n in calculated && f in calculated[n] ==> calculated[n][f] == Denote(g, Key(n, f))
    {
      calculated := map[];
      var todo := env.nodes.Keys;
      while todo != {}
        invariant Sound()
        invariant todo <= env.nodes.Keys && calculated.Keys == env.nodes.Keys - todo
        invariant forall n :: n in calculated ==> calculated[n].Keys == FieldsOf(env.nodes[n])
        invariant forall n, f :: n in calculated && f in calculated[n] ==> calculated[n][f] == Denote(g, Key(n, f))
        decreases todo
      {
        var n :| n in todo;
        var fields := FieldsOf(env.nodes[n]);
        var row: map<string, Json> := map[];
        while fields != {}
          invariant Sound()
          invariant fields <= FieldsOf(env.nodes[n]) && row.Keys == FieldsOf(env.nodes[n]) - fields
          invariant forall f :: f in row ==> row[f] == Denote(g, Key(n, f))
          decreases fields
        {
          var f :| f in fields;
          var v := ResolveField(n, f, {});
          row := row[f := v];
          fields := fields - {f};
        }
        calculated := calculated[n := row];
        todo := todo - {n};
      }
    }
  }

  lemma AwaitSource(g: Graph, stack: set<Key>, key: Key, child: Key)
    requires child in Deps(g, key)
    requires forall s :: s in stack ==> s == key || Below(g, s, key)
    ensures forall s :: s in stack ==> Below(g, s, child)
  {
    forall s | s in stack ensures Below(g, s, child) {
      BelowStep(g, s, key, child);
    }
  }

  // ---------- Consequences ----------

  /** The whole computation: values are the meaning of the graph the atoms and bonds stand for. */
  method Evaluate(cfg: Config, atoms: seq<Atom>, bonds: seq<Bond>) returns (calculated: map<Id, map<string, Json>>)
    ensures calculated.Keys == NodesOf(cfg, atoms).Keys
    ensures forall n :: n in calculated ==> calculated[n].Keys == FieldsOf(NodesOf(cfg, atoms)[n])
    ensures forall n, f :: n in calculated && f in calculated[n] ==>
              calculated[n][f] == Denote(GraphOf(cfg, EnvOf(cfg, atoms, bonds)), Key(n, f))
  {
    var env := BuildEnv(cfg, atoms, bonds);
    var engine := new Evaluator(cfg, env);
    calculated := engine.EvaluateAtoms();
  }

  // ---------- What the values mean ----------

  /** The atom whose record counts: the last of its id. */
  predicate IsRecord(atoms: seq<Atom>, i: nat) {
    i < |atoms| && forall j :: i < j < |atoms| ==> atoms[j].id != atoms[i].id
  }

  lemma {:induction false} NodeOfRecord(cfg: Config, atoms: seq<Atom>, i: nat)
    requires IsRecord(atoms, i)
    ensures atoms[i].id in NodesOf(cfg, atoms) && NodesOf(cfg, atoms)[atoms[i].id] == NodeOf(cfg, atoms[i])
    decreases |atoms|
  {
    hide NodeOf;
    if i < |atoms| - 1 { NodeOfRecord(cfg, atoms[..|atoms| - 1], i); }
  }

  lemma {:induction false} NodesAreAtoms(cfg: Config, atoms: seq<Atom>, a: Id)
    ensures a in NodesOf(cfg, atoms) <==> exists i :: 0 <= i < |atoms| && atoms[i].id == a
    decreases |atoms|
  {
    hide NodeOf;
    if atoms != [] {
      var init := atoms[..|atoms| - 1];
      NodesAreAtoms(cfg, init, a);
      assert forall i :: 0 <= i < |init| ==> init[i] == atoms[i];
    }
  }

  /** What counts as a number: numbers, and texts that the numeral reader takes, save error markers. */
  lemma NumbersRead(cfg: Config, v: Json, r: real)
    ensures SourceNumber(cfg, v) == Some(r) <==>
            v == JNum(r) || (v.JText? && cfg.numeral(v.s) == Some(r) && !("#ERR:" <= v.s))
  {
  }

  /** A field without a formula has its number as value, or stays as it is. */
  lemma PlainFieldMeans(cfg: Config, atoms: seq<Atom>, bonds: seq<Bond>, i: nat, f: string)
    requires IsRecord(atoms, i) && f in atoms[i].metadata
    requires FormulaFor(cfg, NodeOf(cfg, atoms[i]), f).None?
    ensures var raw := atoms[i].metadata[f];
            var value := Denote(GraphOf(cfg, EnvOf(cfg, atoms, bonds)), Key(atoms[i].id, f));
            && (raw.JText? && cfg.numeral(raw.s).Some? ==> value == JNum(cfg.numeral(raw.s).value))
            && (!(raw.JText? && cfg.numeral(raw.s).Some?) ==> value == raw)
  {
    hide NodeOf, NodesOf, FlowSources, Denote, Combine, GraphOf, FormulaFor;
    NodeOfRecord(cfg, atoms, i);
    NodeMetadata(cfg, atoms[i]);
    var env := EnvOf(cfg, atoms, bonds);
    CellAtIsCellFor(cfg, env, Key(atoms[i].id, f));
    DenoteEquation(GraphOf(cfg, env), Key(atoms[i].id, f));
  }

  /** Which formula a field has: the registry's, else that of a text starting with an equals sign, which may be unreadable. */
  lemma FormulaForMeans(cfg: Config, atom: Atom, f: string)
    ensures var node := NodeOf(cfg, atom);
            var raw := if f in atom.metadata then atom.metadata[f] else JNull;
            var asks := raw.JText? && "=" <= Strip(raw.s);
            && node.metadata == atom.metadata
            && (f in node.formulas ==> FormulaFor(cfg, node, f) == Some(node.formulas[f]))
            && (f !in node.formulas && !asks ==> FormulaFor(cfg, node, f) == None)
            && (f !in node.formulas && asks ==>
                  match cfg.pattern(Strip(raw.s))
                  case Some(spec) => FormulaFor(cfg, node, f) == Some(if spec.attr != "" then spec else FormulaSpec(Sum, ""))
                  case None => FormulaFor(cfg, node, f) == Some(FormulaSpec(Sum, "")))
  {
    hide TableName, RegistryFormulas, Lower, Strip;
  }

  /** An atom's formulas are those its table's contract registers; the table is named by the first of six keys or by the value. */
  lemma NodeMeans(cfg: Config, atom: Atom)
    ensures var name := TableName(cfg.prefix, ["kategorie", "category", "typ", "type", "table", "table_name"], atom.value, atom.metadata);
            var table := cfg.tableId(Lower(name));
            && NodeOf(cfg, atom).metadata == atom.metadata
            && NodeOf(cfg, atom).formulas == if table in cfg.contracts then RegistryFormulas(cfg, cfg.contracts[table]) else map[]
  {
    hide TableName, Lower;
  }

  /** What an entry of the registry contributes: nothing when disabled, without a target field or unreadable. */
  lemma EntryMeans(cfg: Config, entry: RegistryEntry)
    ensures var field, text := TargetField(entry.target), Strip(entry.expression);
            && (EntryFormula(cfg, entry).Some? <==>
                  entry.enabled && field != "" && text != "" && cfg.pattern(text).Some? && cfg.pattern(text).value.attr != "")
            && (EntryFormula(cfg, entry).Some? ==> EntryFormula(cfg, entry).value == (field, cfg.pattern(text).value))
  {
    hide Strip, TargetField;
  }

  /** The target field is what stands behind the last dot, trimmed. */
  lemma {:induction false} TargetFieldMeans(target: string, i: nat)
    requires i < |Strip(target)| && Strip(target)[i] == '.' && forall j :: i < j < |Strip(target)| ==> Strip(target)[j] != '.'
    ensures TargetField(target) == Strip(Strip(target)[i + 1..])
  {
    hide Strip;
    BehindLastDot(Strip(target), i);
  }

  lemma {:induction false} BehindLastDot(s: string, i: nat)
    requires i < |s| && s[i] == '.' && forall j :: i < j < |s| ==> s[j] != '.'
    ensures AfterLastDot(s) == s[i + 1..]
    decreases |s|
  {
    if i > 0 {
      assert s[1..][i - 1] == '.';
      BehindLastDot(s[1..], i - 1);
      assert s[1..][i..] == s[i + 1..];
    }
  }

  /** Without a dot the target field is the whole target, trimmed. */
  lemma UndottedTarget(target: string)
    requires '.' !in Strip(target)
    ensures TargetField(target) == Strip(target)
  {
    hide Strip;
  }

  /** A bond is a data flow when its type, trimmed, in upper case and with underscores, is one of four words. */
  lemma FlowSpellings(raw: string, kind: string)
    requires |kind| == |Strip(raw)|
    requires forall i :: 0 <= i < |kind| ==> kind[i] == (if Strip(raw)[i] == '-' || Strip(raw)[i] == ' ' then '_' else UpperChar(Strip(raw)[i]))
    ensures IsFlow(raw) <==> kind == "FLOW" || kind == "DATAFLOW" || kind == "DATA_FLOW" || kind == "FORMULA"
  {
    hide Strip;
    assert forall i :: 0 <= i < |kind| ==> NormalizeBondType(raw)[i] == kind[i];
    assert NormalizeBondType(raw) == kind;
  }

  /** The attribute of every atom from which a data flow leads to the target, and of no other. */
  ghost function FlowingIn(atoms: seq<Atom>, bonds: seq<Bond>, target: Id, attr: string): set<Key> {
    set b | b in bonds && IsFlow(b.kind) && b.target == target && (exists j :: 0 <= j < |atoms| && atoms[j].id == b.source)
      :: Key(b.source, attr)
  }

  /**
   A formula field is circular iff an attribute that flows in is.  Otherwise it is the sum, mean, least,
   greatest or count of those attributes that are numbers.
   */
  lemma FormulaFieldMeans(cfg: Config, atoms: seq<Atom>, bonds: seq<Bond>, i: nat, f: string, spec: FormulaSpec)
    requires IsRecord(atoms, i) && FormulaFor(cfg, NodeOf(cfg, atoms[i]), f) == Some(spec) && spec.attr != ""
    ensures var g := GraphOf(cfg, EnvOf(cfg, atoms, bonds));
            var sources := FlowingIn(atoms, bonds, atoms[i].id, spec.attr);
            var numbers := map s | s in sources && SourceNumber(cfg, Denote(g, s)).Some? :: SourceNumber(cfg, Denote(g, s)).value;
            var value := Denote(g, Key(atoms[i].id, f));
            && (value == CIRC <==> exists s :: s in sources && Denote(g, s) == CIRC)
            && (value != CIRC ==> Aggregates(r => r, spec.op, numbers, value))
  {
    hide NodeOf, NodesOf, IsFlow, Denote, SourceNumber, Combine, Aggregates, FlowingIn;
    NodeOfRecord(cfg, atoms, i);
    NodeMetadata(cfg, atoms[i]);
    var env := EnvOf(cfg, atoms, bonds);
    var g, k := GraphOf(cfg, env), Key(atoms[i].id, f);
    CellAtIsCellFor(cfg, env, k);
    SourcesAreFlows(cfg, atoms, bonds, k.node, spec.attr);
    var sources := FlowingIn(atoms, bonds, atoms[i].id, spec.attr);
    assert CellAt(g, k) == Formula(spec.op, sources);
    DenoteEquation(g, k);
    GraphReadsNumbers(cfg, env);
    CombineMeans(g, spec.op, DenoteAll(g, sources));
    AggregatesAlike(g, cfg, spec.op, sources, Denote(g, k));
  }

  lemma NodeMetadata(cfg: Config, atom: Atom)
    ensures NodeOf(cfg, atom).metadata == atom.metadata
  {
  }

  lemma UnfinishedAggregates(finalize: real -> real, op: Op, numbers: map<Key, real>, value: Json)
    requires forall r :: finalize(r) == r
    ensures Aggregates(finalize, op, numbers, value) ==> Aggregates(r => r, op, numbers, value)
  {
    hide Total;
  }

  lemma AggregatesAlike(g: Graph, cfg: Config, op: Op, sources: set<Key>, value: Json)
    requires forall v :: g.number(v) == SourceNumber(cfg, v)
    requires forall r :: g.finalize(r) == r
    ensures var vals := DenoteAll(g, sources);
            var numbers := map s | s in sources && SourceNumber(cfg, Denote(g, s)).Some? :: SourceNumber(cfg, Denote(g, s)).value;
            Aggregates(g.finalize, op, map d | d in vals && g.number(vals[d]).Some? :: g.number(vals[d]).value, value)
            ==> Aggregates(r => r, op, numbers, value)
    ensures (exists d :: d in DenoteAll(g, sources) && DenoteAll(g, sources)[d] == CIRC) <==> exists s :: s in sources && Denote(g, s) == CIRC
  {
    hide Denote, SourceNumber, Total, Aggregates;
    var vals := DenoteAll(g, sources);
    var numbers := map s | s in sources && SourceNumber(cfg, Denote(g, s)).Some? :: SourceNumber(cfg, Denote(g, s)).value;
    assert (map d | d in vals && g.number(vals[d]).Some? :: g.number(vals[d]).value) == numbers;
    UnfinishedAggregates(g.finalize, op, numbers, value);
    if s :| s in sources && Denote(g, s) == CIRC { assert s in vals && vals[s] == CIRC; }
  }

  lemma SourcesAreFlows(cfg: Config, atoms: seq<Atom>, bonds: seq<Bond>, t: Id, attr: string)
    requires t in NodesOf(cfg, atoms)
    ensures SourceKeys(SourcesOf(EnvOf(cfg, atoms, bonds), t), attr) == FlowingIn(atoms, bonds, t, attr)
  {
    hide NodesOf, IsFlow;
    forall a ensures a in NodesOf(cfg, atoms) <==> exists j :: 0 <= j < |atoms| && atoms[j].id == a { NodesAreAtoms(cfg, atoms, a); }
  }

  lemma NodeChangeIsLocal(cfg: Config, env: Env, atom: Id, node: Node, k: Key)
    requires atom in env.nodes && k.node != atom
    requires forall x :: Below(GraphOf(cfg, env), k, x) ==> x.node != atom
    ensures Denote(GraphOf(cfg, env), k) == Denote(GraphOf(cfg, env.(nodes := env.nodes[atom := node])), k)
  {
    var next := env.(nodes := env.nodes[atom := node]);
    forall x: Key | x.node != atom ensures CellAt(GraphOf(cfg, env), x) == CellAt(GraphOf(cfg, next), x) {
      CellAtIsCellFor(cfg, env, x);
      CellAtIsCellFor(cfg, next, x);
    }
    var g, h := GraphOf(cfg, env), GraphOf(cfg, next);
    DenotationIsLocal(g, h.(number := g.number, finalize := g.finalize), k);
    assert h.(number := g.number, finalize := g.finalize) == h;
  }

  /** A new record under the same id touches that id's node only. */
  lemma {:induction false} NodesAfterChange(cfg: Config, atoms: seq<Atom>, i: nat, changed: Atom)
    requires i < |atoms| && changed.id == atoms[i].id
    ensures var before, after := NodesOf(cfg, atoms), NodesOf(cfg, atoms[i := changed]);
            changed.id in before && changed.id in after && after == before[changed.id := after[changed.id]]
  {
    hide NodeOf;
    var last := |atoms| - 1;
    if i < last {
      assert atoms[i := changed][..last] == atoms[..last][i := changed];
      NodesAfterChange(cfg, atoms[..last], i, changed);
    } else {
      assert atoms[i := changed][..last] == atoms[..last];
    }
  }

  /** Changing one atom leaves every value that is not its own and does not depend on it unchanged. */
  lemma AtomChangeIsLocal(cfg: Config, atoms: seq<Atom>, bonds: seq<Bond>, i: nat, changed: Atom, k: Key)
    requires i < |atoms| && changed.id == atoms[i].id && k.node != changed.id
    requires forall x :: Below(GraphOf(cfg, EnvOf(cfg, atoms, bonds)), k, x) ==> x.node != changed.id
    ensures Denote(GraphOf(cfg, EnvOf(cfg, atoms[i := changed], bonds)), k) == Denote(GraphOf(cfg, EnvOf(cfg, atoms, bonds)), k)
  {
    hide NodeOf, NodesOf, FlowSources, GraphOf;
    var env := EnvOf(cfg, atoms, bonds);
    NodesAfterChange(cfg, atoms, i, changed);
    var node := NodesOf(cfg, atoms[i := changed])[changed.id];
    assert NodesOf(cfg, atoms[i := changed]).Keys == NodesOf(cfg, atoms).Keys;
    assert EnvOf(cfg, atoms[i := changed], bonds) == env.(nodes := env.nodes[changed.id := node]);
    NodeChangeIsLocal(cfg, env, changed.id, node, k);
  }
}
