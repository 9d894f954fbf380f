/** What the stored counters count, said of the rows of a galaxy and their fields. */
module CounterMeaning {
  import opened Values
  import opened ReadModel
  import opened FormulaGraph
  import opened Rollups
  import Tables
  import CalcEngine
  import Guardian

  /** An active row of the galaxy. */
  predicate Lives(s: State, scope: Scope, a: Id) {
    a in s.atoms && s.atoms[a].scope == scope && !s.atoms[a].isDeleted
  }

  /** An active bond of the galaxy between two of its active rows. */
  predicate Joins(s: State, scope: Scope, b: Id) {
    b in s.bonds && s.bonds[b].scope == scope && !s.bonds[b].isDeleted && Lives(s, scope, s.bonds[b].source) && Lives(s, scope, s.bonds[b].target)
  }

  function Pairs<T(==)>(sets: map<Id, set<T>>): set<(Id, T)> {
    set a, x | a in sets && x in sets[a] :: (a, x)
  }

  function PairsOf<T(==)>(a: Id, xs: set<T>): set<(Id, T)> {
    set x | x in xs :: (a, x)
  }

  lemma {:induction false} PairsOfOne<T>(a: Id, xs: set<T>)
    ensures |PairsOf(a, xs)| == |xs|
    decreases |xs|
  {
    if xs != {} {
      var x :| x in xs;
      PairsOfOne(a, xs - {x});
      assert PairsOf(a, xs) == PairsOf(a, xs - {x}) + {(a, x)};
    }
  }

  lemma PairsWithout<T>(sets: map<Id, set<T>>, a: Id)
    requires a in sets
    ensures |Pairs(sets)| == |Pairs(sets - {a})| + |sets[a]|
  {
    PairsOfOne(a, sets[a]);
    var rest := Pairs(sets - {a});
    forall p ensures p in Pairs(sets) <==> p in rest || p in PairsOf(a, sets[a]) {}
    assert Pairs(sets) == rest + PairsOf(a, sets[a]);
    assert rest !! PairsOf(a, sets[a]);
  }

  /** A sum of sizes is the number of pairs. */
  lemma {:induction false} TotalIsPairs<T>(counts: map<Id, nat>, sets: map<Id, set<T>>)
    requires counts.Keys == sets.Keys && forall a :: a in counts ==> counts[a] == |sets[a]|
    ensures TotalOf(counts) == |Pairs(sets)|
    decreases |counts|
  {
    hide TotalOf;
    if counts.Keys == {} {
      assert Pairs(sets) == {};
      AllZero(counts);
    } else {
      hide Pairs;
      var a :| a in counts;
      SumSplit(counts, a);
      assert (counts - {a}).Keys == counts.Keys - {a} && (sets - {a}).Keys == sets.Keys - {a};
      TotalIsPairs(counts - {a}, sets - {a});
      PairsWithout(sets, a);
    }
  }

  /** The name of the table a row belongs to. */
  function TableName(cfg: Config, scope: Scope, row: AtomRow): string {
    Tables.TableName(cfg.engine(scope).prefix, ["table", "table_name", "category", "kategorie", "type", "typ"], row.value, row.metadata)
  }

  /** Rows, bonds between them, and the distinct tables and constellations the rows belong to. */
  lemma SummaryMeans(cfg: Config, s: State, scope: Scope)
    ensures var summary := Recompute(cfg, s, scope).0;
            && summary.moons == |set a | a in s.atoms && Lives(s, scope, a)|
            && summary.bonds == |set b | b in s.bonds && Joins(s, scope, b)|
            && summary.planets == |set a | a in s.atoms && Lives(s, scope, a) :: TableName(cfg, scope, s.atoms[a])|
            && summary.constellations == |set a | a in s.atoms && Lives(s, scope, a) :: cfg.constellation(TableName(cfg, scope, s.atoms[a]))|
  {
    hide Tables.TableName, TotalOf;
    var atoms, bonds := ActiveAtoms(s, scope), ActiveBonds(s, scope);
    assert atoms.Keys == set a | a in s.atoms && Lives(s, scope, a);
    assert bonds.Keys == set b | b in s.bonds && Joins(s, scope, b);
    TablesOfRows(cfg, s, scope);
  }

  lemma TablesOfRows(cfg: Config, s: State, scope: Scope)
    ensures var names := TableNames(cfg, scope, ActiveAtoms(s, scope));
            && names == (set a | a in s.atoms && Lives(s, scope, a) :: TableName(cfg, scope, s.atoms[a]))
            && Constellations(cfg, names) == set a | a in s.atoms && Lives(s, scope, a) :: cfg.constellation(TableName(cfg, scope, s.atoms[a]))
  {
    hide Tables.TableName;
    var atoms := ActiveAtoms(s, scope);
    assert forall a :: a in atoms ==> TableOf(cfg, scope, atoms[a]) == TableName(cfg, scope, s.atoms[a]);
  }

  /** The fields of active rows whose text starts with an equals sign. */
  function FormulaPairs(s: State, scope: Scope): set<(Id, string)> {
    set a, f | a in s.atoms && Lives(s, scope, a) && f in s.atoms[a].metadata
               && s.atoms[a].metadata[f].JText? && "=" <= Strip(s.atoms[a].metadata[f].s) :: (a, f)
  }

  lemma FormulaFieldsMean(cfg: Config, s: State, scope: Scope)
    ensures Recompute(cfg, s, scope).0.formulaFields == |FormulaPairs(s, scope)|
  {
    hide TotalOf, Strip;
    var atoms := ActiveAtoms(s, scope);
    var sets := map a | a in atoms :: FormulaFields(atoms[a].metadata);
    TotalIsPairs(FormulaCounts(atoms), sets);
    assert Pairs(sets) == FormulaPairs(s, scope);
  }

  /** The dicts in the `_guardians` lists of active rows. */
  function RulePairs(s: State, scope: Scope): set<(Id, nat)> {
    set a, i | a in s.atoms && Lives(s, scope, a) && "_guardians" in s.atoms[a].metadata && s.atoms[a].metadata["_guardians"].JList?
               && i in Guardian.DictPositions(s.atoms[a].metadata["_guardians"].items) :: (a, i)
  }

  lemma GuardianRulesMean(cfg: Config, s: State, scope: Scope)
    ensures Recompute(cfg, s, scope).1.guardianRules == |RulePairs(s, scope)|
  {
    hide TotalOf, Guardian.CountDicts, Guardian.DictPositions;
    var atoms := ActiveAtoms(s, scope);
    var sets := map a | a in atoms :: Guardian.DictPositions(Guardian.RulesOf(atoms[a].metadata));
    forall a | a in atoms ensures GuardianCounts(atoms)[a] == |sets[a]| { Guardian.CountDictsMeans(Guardian.RulesOf(atoms[a].metadata)); }
    TotalIsPairs(GuardianCounts(atoms), sets);
    assert Guardian.DictPositions([]) == {} by { NoPositions(); }
    assert Pairs(sets) == RulePairs(s, scope);
  }

  lemma NoPositions()
    ensures Guardian.DictPositions([]) == {}
  {
  }

  /** The values are calculated over the galaxy's own rows, with an edge from source to target for every joining data flow. */
  lemma EdgesMean(cfg: Config, s: State, scope: Scope, t: Id)
    ensures var env := EnvOf(cfg, scope, ActiveAtoms(s, scope), ActiveBonds(s, scope));
            && env.nodes.Keys == (set a | a in s.atoms && Lives(s, scope, a))
            && CalcEngine.SourcesOf(env, t) ==
               set b | b in s.bonds && Joins(s, scope, b) && CalcEngine.IsFlow(s.bonds[b].kind) && s.bonds[b].target == t :: s.bonds[b].source
  {
    hide CalcEngine.IsFlow, NodeOf;
    var atoms, bonds := ActiveAtoms(s, scope), ActiveBonds(s, scope);
    assert atoms.Keys == set a | a in s.atoms && Lives(s, scope, a);
    forall b ensures b in bonds <==> b in s.bonds && Joins(s, scope, b) {}
    var sources := set b | b in s.bonds && Joins(s, scope, b) && CalcEngine.IsFlow(s.bonds[b].kind) && s.bonds[b].target == t :: s.bonds[b].source;
    forall x ensures x in FlowSources(bonds, t) <==> x in sources {
      if x in FlowSources(bonds, t) {
        var b :| b in bonds && CalcEngine.IsFlow(bonds[b].kind) && bonds[b].target == t && bonds[b].source == x;
        assert Joins(s, scope, b);
      }
      if x in sources {
        var b :| b in s.bonds && Joins(s, scope, b) && CalcEngine.IsFlow(s.bonds[b].kind) && s.bonds[b].target == t && s.bonds[b].source == x;
        assert b in bonds;
      }
    }
    assert t !in atoms ==> sources == {};
  }

  /** The fields of active rows whose calculated value is the marker. */
  ghost function CircularPairs(cfg: Config, s: State, scope: Scope): set<(Id, string)> {
    var env := EnvOf(cfg, scope, ActiveAtoms(s, scope), ActiveBonds(s, scope));
    set a, f | a in s.atoms && Lives(s, scope, a) && f in Calculated(cfg, scope, env, a) && Calculated(cfg, scope, env, a)[f] == CIRC :: (a, f)
  }

  lemma CircularFieldsMean(cfg: Config, s: State, scope: Scope)
    ensures Recompute(cfg, s, scope).1.circular == |CircularPairs(cfg, s, scope)|
  {
    hide TotalOf, Calculated, NodeOf;
    var atoms, bonds := ActiveAtoms(s, scope), ActiveBonds(s, scope);
    var env := EnvOf(cfg, scope, atoms, bonds);
    var sets := map a | a in atoms :: CircularFields(Calculated(cfg, scope, env, a));
    TotalIsPairs(CircularCounts(cfg, scope, atoms, bonds), sets);
    assert Pairs(sets) == CircularPairs(cfg, s, scope);
  }

  /**
   Rows with an alert on their calculated values are counted once; fifteen points are lost for every
   circular field and eight for every such row, and the status turns below 60 and below 85.
   */
  lemma HealthMeans(cfg: Config, s: State, scope: Scope)
    ensures var env := EnvOf(cfg, scope, ActiveAtoms(s, scope), ActiveBonds(s, scope));
            var h := Recompute(cfg, s, scope).1;
            && h.alerted == |set a | a in s.atoms && Lives(s, scope, a)
                                     && Guardian.Alerted(cfg.guardian, Calculated(cfg, scope, env, a), s.atoms[a].metadata)|
            && (15 * h.circular + 8 * h.alerted <= 100 ==> h.quality == 100 - 15 * h.circular - 8 * h.alerted)
            && (15 * h.circular + 8 * h.alerted > 100 ==> h.quality == 0)
            && (h.status == Red <==> h.quality < 60) && (h.status == Green <==> h.quality >= 85)
  {
    hide TotalOf, Calculated, NodeOf, Guardian.Alerted;
    var atoms, bonds := ActiveAtoms(s, scope), ActiveBonds(s, scope);
    var env := EnvOf(cfg, scope, atoms, bonds);
    assert AlertedAtoms(cfg, scope, atoms, bonds) ==
           set a | a in s.atoms && Lives(s, scope, a) && Guardian.Alerted(cfg.guardian, Calculated(cfg, scope, env, a), s.atoms[a].metadata);
  }

  /** The keys that name a row's table or hold its rules, in any case and with blanks around. */
  predicate IsStructuralKey(key: string) {
    var k := Lower(Strip(key));
    k == "table" || k == "table_name" || k == "category" || k == "kategorie" || k == "type" || k == "typ" || k == "_guardians"
  }

  /**
   On the main timeline recounting is skipped exactly for metadata updates of galaxies with stored counters
   that change nothing, or, where no bond, formula or rule is stored, that touch no structural key and
   write no formula.
   */
  lemma SkippedIff(summary: Option<Summary>, health: Option<Health>, e: Event)
    requires e.branch.None?
    ensures CanSkip(summary, health, e) <==>
            && e.body.MetadataUpdated? && summary.Some? && health.Some?
            && ((e.body.patch == map[] && forall r :: r in e.body.remove ==> Strip(r) == "")
                || (&& summary.value.bonds == 0 && summary.value.formulaFields == 0 && health.value.guardianRules == 0
                    && (forall k :: k in e.body.patch ==> !IsStructuralKey(k) && !(e.body.patch[k].JText? && "=" <= Strip(e.body.patch[k].s)))
                    && (forall r :: r in e.body.remove && Strip(r) != "" ==> !IsStructuralKey(Strip(r)))))
  {
    hide Strip, Lower;
    if e.body.MetadataUpdated? {
      forall k ensures IsStructural(k) <==> IsStructuralKey(k) {}
      assert CleanKeys(e.body.remove) == {} <==> forall r :: r in e.body.remove ==> Strip(r) == "" by {
        forall r | r in e.body.remove && Strip(r) != "" ensures Strip(r) in CleanKeys(e.body.remove) {}
        if CleanKeys(e.body.remove) != {} { var k :| k in CleanKeys(e.body.remove); }
      }
      forall r | r in e.body.remove && Strip(r) != "" ensures Strip(r) in CleanKeys(e.body.remove) {}
    }
  }
}
