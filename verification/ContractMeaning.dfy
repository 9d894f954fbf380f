/** What a compiled contract contains, said of the fields and rules that the base contract and the capabilities list. */
module ContractMeaning {
  import opened Values
  import opened Capabilities
  import opened EffectiveContract

  // ---------- Texts ----------

  /** A text stands for itself, anything else for what `str` shows. */
  predicate Says(cfg: Config, raw: Json, text: string) {
    (raw.JText? ==> text == raw.s) && (!raw.JText? ==> text == cfg.show(raw))
  }

  /** Values that count as empty where the base contract or a type table is read. */
  predicate IsEmpty(raw: Json) {
    raw == JNull || raw == JBool(false) || raw == JNum(0.0) || raw == JText("") || raw == JList([]) || raw == JDict(map[])
  }

  lemma TextMeans(cfg: Config, raw: Json)
    ensures Says(cfg, raw, Show(cfg, raw))
    ensures IsEmpty(raw) ==> TextOf(cfg, raw) == ""
    ensures !IsEmpty(raw) ==> TextOf(cfg, raw) == Show(cfg, raw)
  {
  }

  /** The trimmed texts that are not blank, each once. */
  lemma {:induction false} NormalizeMeans(texts: seq<string>, f: string)
    ensures f in Normalize(texts) <==> f != "" && exists i :: 0 <= i < |texts| && Strip(texts[i]) == f
    decreases |texts|
  {
    hide Strip;
    if texts != [] {
      var init := texts[..|texts| - 1];
      NormalizeMeans(init, f);
      assert forall i :: 0 <= i < |init| ==> init[i] == texts[i];
    }
  }

  /** They come in the order in which they first occur. */
  lemma {:induction false} NormalizeOrder(texts: seq<string>, i: nat, j: nat)
    requires i < j < |Normalize(texts)|
    ensures exists p :: 0 <= p < |texts| && Strip(texts[p]) == Normalize(texts)[i] && forall q :: 0 <= q <= p ==> Strip(texts[q]) != Normalize(texts)[j]
    decreases |texts|
  {
    hide Strip;
    var last := |texts| - 1;
    var init, rest := texts[..last], Normalize(texts[..last]);
    assert forall k :: 0 <= k < last ==> init[k] == texts[k];
    if j < |rest| {
      NormalizeOrder(init, i, j);
      var p :| 0 <= p < |init| && Strip(init[p]) == rest[i] && forall q :: 0 <= q <= p ==> Strip(init[q]) != rest[j];
      assert Strip(texts[p]) == rest[i];
    } else {
      var later := Strip(texts[last]);
      assert rest[i] in rest;
      NormalizeMeans(init, rest[i]);
      NormalizeMeans(init, later);
      var p :| 0 <= p < |init| && Strip(init[p]) == rest[i];
      assert Strip(texts[p]) == rest[i] && forall q :: 0 <= q <= p ==> Strip(init[q]) != later;
    }
  }

  // ---------- Required fields ----------

  /** The base contract lists the field, by a value that is not empty. */
  predicate BaseRequires(cfg: Config, base: Contribution, f: string) {
    exists i :: 0 <= i < |base.requiredFields| && !IsEmpty(base.requiredFields[i]) && Strip(Show(cfg, base.requiredFields[i])) == f
  }

  predicate Requires(cfg: Config, c: Capability, f: string) {
    exists i :: 0 <= i < |c.contribution.requiredFields| && Strip(Show(cfg, c.contribution.requiredFields[i])) == f
  }

  lemma BaseRequiredMeans(cfg: Config, base: Contribution, f: string)
    ensures f in BaseRequired(cfg, base) <==> f != "" && BaseRequires(cfg, base, f)
  {
    hide Normalize, Strip;
    var raw := base.requiredFields;
    var texts := seq(|base.requiredFields|, i requires 0 <= i < |base.requiredFields| => TextOf(cfg, base.requiredFields[i]));
    assert BaseRequired(cfg, base) == Normalize(texts);
    NormalizeMeans(texts, f);
    assert Strip("") == "" by { StripNothing(); }
    forall i | 0 <= i < |raw| ensures texts[i] == (if IsEmpty(raw[i]) then "" else Show(cfg, raw[i])) { TextMeans(cfg, raw[i]); }
    if f in BaseRequired(cfg, base) {
      var i :| 0 <= i < |texts| && Strip(texts[i]) == f;
      assert !IsEmpty(raw[i]) && Strip(Show(cfg, raw[i])) == f;
    }
    if f != "" && BaseRequires(cfg, base, f) {
      var i :| 0 <= i < |raw| && !IsEmpty(raw[i]) && Strip(Show(cfg, raw[i])) == f;
      assert Strip(texts[i]) == f;
    }
  }

  lemma StripNothing()
    ensures Strip("") == ""
  {
  }

  lemma RequiredOfMeans(cfg: Config, c: Capability, f: string)
    ensures f in RequiredOf(cfg, c) <==> f != "" && Requires(cfg, c, f)
  {
    hide Normalize, Strip;
    var raw := c.contribution.requiredFields;
    var texts := seq(|raw|, i requires 0 <= i < |raw| => Show(cfg, raw[i]));
    NormalizeMeans(texts, f);
    if i :| 0 <= i < |texts| && Strip(texts[i]) == f { assert Strip(Show(cfg, raw[i])) == f; }
    if Requires(cfg, c, f) {
      var i :| 0 <= i < |raw| && Strip(Show(cfg, raw[i])) == f;
      assert Strip(texts[i]) == f;
    }
  }

  /**
   A field is required exactly when the base contract or a capability lists it, trimmed and not blank; its
   source is the base contract, else the first capability that lists it.
   */
  lemma {:induction false} RequiredFieldsMean(cfg: Config, base: Contribution, caps: seq<Capability>, f: string)
    ensures var c := Compile(cfg, base, caps);
            && (f in c.requiredFields <==> f in c.requiredFieldSources)
            && (f in c.requiredFields <==> f != "" && (BaseRequires(cfg, base, f) || exists k :: 0 <= k < |caps| && Requires(cfg, caps[k], f)))
            && (f != "" && BaseRequires(cfg, base, f) ==> c.requiredFieldSources[f] == BaseContract)
            && (f != "" && !BaseRequires(cfg, base, f) ==>
                  forall k :: 0 <= k < |caps| && Requires(cfg, caps[k], f) && (forall m :: 0 <= m < k ==> !Requires(cfg, caps[m], f)) ==>
                    c.requiredFieldSources[f] == MoonCapability(caps[k].key, caps[k].id))
  {
    hide Compile, BaseRequired, RequiredOf, BaseRequires, Requires;
    RequiredAreRight(cfg, base, caps);
    var c := Compile(cfg, base, caps);
    var lists := RequiredLists(cfg, caps);
    BaseRequiredMeans(cfg, base, f);
    forall k | 0 <= k < |caps| ensures f in lists[k] <==> f != "" && Requires(cfg, caps[k], f) { RequiredOfMeans(cfg, caps[k], f); }
    hide RequiredLists;
    if f in c.requiredFields && f !in BaseRequired(cfg, base) {
      assert IsFirstOf(Same, lists, caps, f, c.requiredFieldSources[f]);
      FirstIsUnique(lists, caps, f, c.requiredFieldSources[f]);
    }
  }

  lemma FirstIsUnique(lists: seq<seq<string>>, caps: seq<Capability>, f: string, source: Source)
    requires |lists| == |caps| && IsFirstOf(Same, lists, caps, f, source)
    ensures exists k :: 0 <= k < |caps| && f in lists[k]
    ensures forall k :: 0 <= k < |caps| && f in lists[k] && (forall m :: 0 <= m < k ==> f !in lists[m]) ==> source == MoonCapability(caps[k].key, caps[k].id)
  {
    var k: nat :| FirstContributor(Same, lists, k, Same(f)) && f in lists[k] && source == SourceOf(caps[k]);
    forall j | 0 <= j < |caps| && f in lists[j] && (forall m :: 0 <= m < j ==> f !in lists[m]) ensures j == k {
      assert !(k < j);
      assert !(j < k);
    }
  }

  // ---------- Field types ----------

  /** The item types the field: key and value are not empty, and trimmed they are the field and, in lower case, its type. */
  predicate Types(cfg: Config, item: (Json, Json), f: string, kind: string) {
    && f != "" && kind != "" && !IsEmpty(item.0) && !IsEmpty(item.1)
    && Strip(Show(cfg, item.0)) == f && Lower(Strip(Show(cfg, item.1))) == kind
  }

  /** The last item that types the field decides. */
  lemma {:induction false} FieldTypesMean(cfg: Config, items: seq<(Json, Json)>, f: string, kind: string)
    ensures var types := FieldTypes(cfg, items);
            (f in types && types[f] == kind) <==>
            exists j :: 0 <= j < |items| && Types(cfg, items[j], f, kind) && forall m, other :: j < m < |items| ==> !Types(cfg, items[m], f, other)
    decreases |items|
  {
    hide Strip, Lower, Types;
    if items != [] {
      var last := |items| - 1;
      var init := items[..last];
      FieldTypesMean(cfg, init, f, kind);
      assert forall j :: 0 <= j < last ==> init[j] == items[j];
      ItemTypes(cfg, items[last], f);
      var types := FieldTypes(cfg, items);
      var own := (Strip(TextOf(cfg, items[last].0)), Lower(Strip(TextOf(cfg, items[last].1))));
      assert types == if own.0 == "" || own.1 == "" then FieldTypes(cfg, init) else FieldTypes(cfg, init)[own.0 := own.1];
      if own.0 == f && own.0 != "" && own.1 != "" {
        assert Types(cfg, items[last], f, own.1);
      } else {
        forall other ensures !Types(cfg, items[last], f, other) {}
      }
    }
  }

  lemma ItemTypes(cfg: Config, item: (Json, Json), f: string)
    ensures var own := (Strip(TextOf(cfg, item.0)), Lower(Strip(TextOf(cfg, item.1))));
            forall kind :: Types(cfg, item, f, kind) <==> own.0 == f && own.1 == kind && f != "" && kind != ""
  {
    hide Strip, Lower;
    TextMeans(cfg, item.0);
    TextMeans(cfg, item.1);
    StripNothing();
    assert Lower("") == "" by { LowerNothing(); }
  }

  lemma LowerNothing()
    ensures Lower("") == ""
  {
  }

  /** In the compiled contract the last capability that types a field decides it and is its source. */
  lemma {:induction false} CompiledTypesMean(cfg: Config, base: Contribution, caps: seq<Capability>, f: string, k: nat)
    requires k < |caps| && f in FieldTypes(cfg, caps[k].contribution.fieldTypes)
    requires forall m :: k < m < |caps| ==> f !in FieldTypes(cfg, caps[m].contribution.fieldTypes)
    ensures var c := Compile(cfg, base, caps);
            && f in c.fieldTypes && c.fieldTypes[f] == FieldTypes(cfg, caps[k].contribution.fieldTypes)[f]
            && f in c.fieldTypeSources && c.fieldTypeSources[f] == MoonCapability(caps[k].key, caps[k].id)
  {
    hide FieldTypes, Required, Rules, TypesOver, TypeSourcesOver, DefaultsOver;
    TypesAreRight(cfg, base, caps, f);
    assert LastTyper(cfg, caps, k, f);
  }

  /** A field that no capability types is typed as in the base contract. */
  lemma {:induction false} BaseTypesMean(cfg: Config, base: Contribution, caps: seq<Capability>, f: string)
    requires forall k :: 0 <= k < |caps| ==> f !in FieldTypes(cfg, caps[k].contribution.fieldTypes)
    ensures var c := Compile(cfg, base, caps);
            && (f in c.fieldTypes <==> f in FieldTypes(cfg, base.fieldTypes)) && (f in c.fieldTypes <==> f in c.fieldTypeSources)
            && (f in c.fieldTypes ==> c.fieldTypes[f] == FieldTypes(cfg, base.fieldTypes)[f] && c.fieldTypeSources[f] == BaseContract)
  {
    hide FieldTypes, Required, Rules, TypesOver, TypeSourcesOver, DefaultsOver;
    TypesAreRight(cfg, base, caps, f);
    assert NoTyper(cfg, caps, f);
  }

  // ---------- Rules and defaults ----------

  /** The list holds the dicts among the items, all of them, in their order; `at` are their places. */
  ghost predicate AreDicts(items: seq<Json>, dicts: seq<Json>, at: seq<nat>) {
    && |at| == |dicts|
    && (forall i :: 0 <= i < |at| ==> at[i] < |items| && dicts[i] == items[at[i]] && items[at[i]].JDict?)
    && (forall i, j :: 0 <= i < j < |at| ==> at[i] < at[j])
    && (forall p :: 0 <= p < |items| && items[p].JDict? ==> p in at)
  }

  lemma DictsNext(init: seq<Json>, x: Json, dicts: seq<Json>, at: seq<nat>)
    requires AreDicts(init, dicts, at)
    ensures x.JDict? ==> AreDicts(init + [x], dicts + [x], at + [|init|])
    ensures !x.JDict? ==> AreDicts(init + [x], dicts, at)
  {
    var items := init + [x];
    assert items[|init|] == x && forall p :: 0 <= p < |init| ==> items[p] == init[p];
    if x.JDict? {
      assert |init| in at + [|init|];
      assert forall p :: p in at ==> p in at + [|init|];
    }
  }

  /** The dicts of a list. */
  lemma {:induction false} DictsMean(items: seq<Json>) returns (at: seq<nat>)
    ensures AreDicts(items, DictsOnly(items), at)
    decreases |items|
  {
    if items == [] {
      at := [];
    } else {
      var last := |items| - 1;
      at := DictsMean(items[..last]);
      DictsNext(items[..last], items[last], DictsOnly(items[..last]), at);
      assert items == items[..last] + [items[last]];
      hide AreDicts;
      if items[last].JDict? { at := at + [last]; }
    }
  }

  lemma DictsAre(items: seq<Json>, x: Json)
    ensures x in DictsOnly(items) <==> x in items && x.JDict?
  {
    var at := DictsMean(items);
    if x in DictsOnly(items) { var i :| 0 <= i < |at| && DictsOnly(items)[i] == x; }
    if x in items && x.JDict? {
      var p :| 0 <= p < |items| && items[p] == x;
      var i :| 0 <= i < |at| && at[i] == p;
      assert DictsOnly(items)[i] == x;
    }
  }

  /** What each capability contributes to one part of the contract. */
  function Parts(part: Contribution -> seq<Json>, caps: seq<Capability>): (r: seq<seq<Json>>)
    ensures |r| == |caps|
  {
    seq(|caps|, k requires 0 <= k < |caps| => part(caps[k].contribution))
  }

  /** A list of rules made of those of the base and those of the capabilities, no text of a rule added twice or left out. */
  ghost predicate Gathers(cfg: Config, base: seq<Json>, lists: seq<seq<Json>>, rules: seq<Json>) {
    && (forall x :: x in rules ==> x.JDict? && (x in base || exists k :: 0 <= k < |lists| && x in lists[k]))
    && (forall x :: x in base && x.JDict? ==> x in rules)
    && (forall k, x: Json :: 0 <= k < |lists| && x in lists[k] && x.JDict? ==> exists y :: y in rules && cfg.repr(y) == cfg.repr(x))
  }

  lemma {:induction false} MergedGathers(cfg: Config, base: Contribution, part: Contribution -> seq<Json>, caps: seq<Capability>)
    ensures Gathers(cfg, part(base), Parts(part, caps), Items(Rules(cfg, base, part, caps)))
  {
    hide DictsOnly, Merged, MergedRight;
    var first, lists, raw := DictsOnly(part(base)), RuleLists(part, caps), Parts(part, caps);
    var r := Rules(cfg, base, part, caps);
    MergedIsRight(cfg.repr, first, lists, caps);
    forall x ensures x in first <==> x in part(base) && x.JDict? { DictsAre(part(base), x); }
    forall k, x: Json | 0 <= k < |caps| ensures x in lists[k] <==> x in raw[k] && x.JDict? { DictsAre(raw[k], x); }
    hide Rules, RuleLists, Items, Parts;
    MergedGathersDicts(cfg, part(base), raw, first, lists, caps, Items(r), Sources(r));
  }

  lemma {:induction false} MergedGathersDicts(cfg: Config, base: seq<Json>, raw: seq<seq<Json>>, first: seq<Json>, lists: seq<seq<Json>>,
                                              caps: seq<Capability>, rules: seq<Json>, sources: seq<Source>)
    requires |raw| == |lists| == |caps| && MergedRight(cfg.repr, first, lists, caps, rules, sources)
    requires forall x :: x in first <==> x in base && x.JDict?
    requires forall k, x: Json :: 0 <= k < |lists| ==> (x in lists[k] <==> x in raw[k] && x.JDict?)
    ensures Gathers(cfg, base, raw, rules)
  {
    hide IsFirstOf;
    forall x | x in rules ensures x.JDict? && (x in base || exists k :: 0 <= k < |raw| && x in raw[k]) {
      var j :| 0 <= j < |rules| && rules[j] == x;
      if j < |first| {
        assert first[j] in first;
      } else {
        var k := FirstIsSomewhere(cfg.repr, lists, caps, x, sources[j]);
        assert x in raw[k];
      }
    }
    forall x | x in base && x.JDict? ensures x in rules {
      var i :| 0 <= i < |first| && first[i] == x;
      assert rules[i] == x;
    }
    forall k, x: Json | 0 <= k < |raw| && x in raw[k] && x.JDict? ensures exists y :: y in rules && cfg.repr(y) == cfg.repr(x) {
      assert x in lists[k];
      var i :| 0 <= i < |rules| && cfg.repr(rules[i]) == cfg.repr(x);
      assert rules[i] in rules;
    }
  }

  lemma FirstIsSomewhere(key: Json -> string, lists: seq<seq<Json>>, caps: seq<Capability>, x: Json, source: Source) returns (k: nat)
    requires |lists| == |caps| && IsFirstOf(key, lists, caps, x, source)
    ensures k < |lists| && x in lists[k]
  {
    k :| FirstContributor(key, lists, k, key(x)) && x in lists[k] && source == SourceOf(caps[k]);
  }

  /** Each of the five lists of rules is gathered from the lists of the same name. */
  lemma {:induction false} RulesMean(cfg: Config, base: Contribution, caps: seq<Capability>)
    ensures var c := Compile(cfg, base, caps);
            && Gathers(cfg, base.uniqueRules, Parts((c: Contribution) => c.uniqueRules, caps), c.uniqueRules)
            && Gathers(cfg, base.validators, Parts((c: Contribution) => c.validators, caps), c.validators)
            && Gathers(cfg, base.formulas, Parts((c: Contribution) => c.formulas, caps), c.formulas)
            && Gathers(cfg, base.physics.rules, Parts((c: Contribution) => c.physics.rules, caps), c.physics.rules)
            && Gathers(cfg, base.physics.autoSemantics, Parts((c: Contribution) => c.physics.autoSemantics, caps), c.physics.autoSemantics)
  {
    hide Gathers, Rules, Items, Required, TypesOver, TypeSourcesOver, DefaultsOver;
    MergedGathers(cfg, base, UniqueOf, caps);
    MergedGathers(cfg, base, ValidatorsOf, caps);
    MergedGathers(cfg, base, FormulasOf, caps);
    MergedGathers(cfg, base, PhysicsRulesOf, caps);
    MergedGathers(cfg, base, AutoSemanticsOf, caps);
    assert Parts(UniqueOf, caps) == Parts((c: Contribution) => c.uniqueRules, caps);
    assert Parts(ValidatorsOf, caps) == Parts((c: Contribution) => c.validators, caps);
    assert Parts(FormulasOf, caps) == Parts((c: Contribution) => c.formulas, caps);
    assert Parts(PhysicsRulesOf, caps) == Parts((c: Contribution) => c.physics.rules, caps);
    assert Parts(AutoSemanticsOf, caps) == Parts((c: Contribution) => c.physics.autoSemantics, caps);
  }

  /** The last capability that has a default under the key is the `k`-th. */
  predicate LastDefault(caps: seq<Capability>, k: nat, key: string) {
    && k < |caps| && key in caps[k].contribution.physics.defaults
    && forall m :: k < m < |caps| ==> key !in caps[m].contribution.physics.defaults
  }

  predicate NoDefault(caps: seq<Capability>, key: string) {
    forall k :: 0 <= k < |caps| ==> key !in caps[k].contribution.physics.defaults
  }

  predicate DefaultIs(defaults: map<string, Json>, base: Contribution, caps: seq<Capability>, k: nat, key: string) {
    && (LastDefault(caps, k, key) ==> key in defaults && defaults[key] == caps[k].contribution.physics.defaults[key])
    && (NoDefault(caps, key) ==>
          (key in defaults <==> key in base.physics.defaults) && (key in defaults ==> defaults[key] == base.physics.defaults[key]))
  }

  /** A default is that of the last capability that has one under the key, else the base contract's. */
  lemma {:induction false} DefaultsMean(cfg: Config, base: Contribution, caps: seq<Capability>, k: nat, key: string)
    ensures DefaultIs(Compile(cfg, base, caps).physics.defaults, base, caps, k, key)
  {
    hide Rules, Required, TypesOver, TypeSourcesOver, Items, DefaultIs;
    DefaultsOverMean(base, caps, k, key);
  }

  lemma {:induction false} DefaultsOverMean(base: Contribution, caps: seq<Capability>, k: nat, key: string)
    ensures DefaultIs(DefaultsOver(base, caps), base, caps, k, key)
    decreases |caps|
  {
    if caps != [] {
      var init, last := caps[..|caps| - 1], caps[|caps| - 1];
      DefaultsOverMean(base, init, k, key);
      hide DefaultsOver;
      DefaultsNext(DefaultsOver(base, init), base, init, last, k, key);
      assert caps == init + [last];
      assert DefaultsOver(base, caps) == DefaultsOver(base, init) + last.contribution.physics.defaults by { DefaultsUnfold(base, caps); }
    }
  }

  lemma DefaultsUnfold(base: Contribution, caps: seq<Capability>)
    requires caps != []
    ensures DefaultsOver(base, caps) == DefaultsOver(base, caps[..|caps| - 1]) + caps[|caps| - 1].contribution.physics.defaults
  {
  }

  lemma DefaultsNext(defaults: map<string, Json>, base: Contribution, init: seq<Capability>, last: Capability, k: nat, key: string)
    requires DefaultIs(defaults, base, init, k, key)
    ensures DefaultIs(defaults + last.contribution.physics.defaults, base, init + [last], k, key)
  {
    var caps := init + [last];
    assert caps[|init|] == last && forall m :: 0 <= m < |init| ==> caps[m] == init[m];
    if key in last.contribution.physics.defaults {
      assert LastDefault(caps, k, key) ==> k == |init|;
    } else {
      assert LastDefault(caps, k, key) ==> LastDefault(init, k, key);
      assert NoDefault(caps, key) ==> NoDefault(init, key);
    }
  }

  // ---------- Which capabilities, in which order ----------

  /** Only capabilities that are not deleted and whose status reads `active` contribute. */
  lemma {:induction false} ActiveMeans(caps: seq<Capability>, c: Capability)
    requires DistinctIds(caps)
    ensures c in SortedActive(caps) <==> c in caps && !c.deleted && Lower(Strip(c.status)) == "active"
  {
    hide Strip, Lower;
    SortedActiveIsSorted(caps);
  }

  /** Texts are ordered by their first difference, a text before its extensions. */
  lemma {:induction false} TextBeforeMeans(a: string, b: string, n: nat)
    requires n <= |a| && n <= |b| && a[..n] == b[..n]
    ensures n == |a| && n < |b| ==> TextBefore(a, b)
    ensures n < |a| && n < |b| && a[n] < b[n] ==> TextBefore(a, b)
    decreases n
  {
    if n > 0 {
      assert a[0] == a[..n][0] && b[0] == b[..n][0];
      assert a[1..][..n - 1] == a[..n][1..] && b[1..][..n - 1] == b[..n][1..];
      TextBeforeMeans(a[1..], b[1..], n - 1);
    }
  }

  /** Contributions come by order index, then key in lower case, then version, then creation time, then id. */
  lemma {:induction false} OrderMeans(caps: seq<Capability>, i: nat, j: nat)
    requires DistinctIds(caps) && i < j < |SortedActive(caps)|
    ensures var a, b := SortedActive(caps)[i], SortedActive(caps)[j];
            && a.orderIndex <= b.orderIndex
            && (a.orderIndex == b.orderIndex ==> !TextBefore(Lower(b.key), Lower(a.key)))
            && (a.orderIndex == b.orderIndex && Lower(a.key) == Lower(b.key) ==> a.version <= b.version)
            && (a.orderIndex == b.orderIndex && Lower(a.key) == Lower(b.key) && a.version == b.version ==> a.createdAt <= b.createdAt)
            && (a.orderIndex == b.orderIndex && Lower(a.key) == Lower(b.key) && a.version == b.version && a.createdAt == b.createdAt ==> a.id < b.id)
  {
    hide Lower, TextBefore, SortedActive;
    SortedActiveIsSorted(caps);
    var a, b := SortedActive(caps)[i], SortedActive(caps)[j];
    assert Before(a, b);
    TextTotal(Lower(a.key), Lower(b.key));
  }
}
