/** Compiling a table's effective contract from its base contract and its active capabilities. */
module EffectiveContract {
  import opened Values
  import opened Capabilities

  /** `str` and `repr`; two rules count as the same when their `repr` is the same text. */
  datatype Config = Config(show: Json -> string, repr: Json -> string)

  datatype Source = BaseContract | MoonCapability(key: string, id: Id)

  /** A contributed item and where it came from. */
  datatype Entry<T> = Entry(item: T, source: Source)

  datatype Effective = Effective(
    requiredFields: seq<string>, requiredFieldSources: map<string, Source>,
    fieldTypes: map<string, string>, fieldTypeSources: map<string, Source>,
    uniqueRules: seq<Json>, uniqueRuleSources: seq<Source>,
    validators: seq<Json>, validatorSources: seq<Source>,
    formulas: seq<Json>, physics: Physics)

  function SourceOf(c: Capability): Source {
    MoonCapability(c.key, c.id)
  }

  // ---------- Normalizing ----------

  function Show(cfg: Config, raw: Json): string {
    if raw.JText? then raw.s else cfg.show(raw)
  }

  predicate Falsy(raw: Json) {
    match raw
    case JNull => true
    case JBool(b) => !b
    case JNum(r) => r == 0.0
    case JText(s) => s == ""
    case JList(items) => items == []
    case JDict(entries) => entries == map[]
  }

  function TextOf(cfg: Config, raw: Json): string {
    if Falsy(raw) then "" else Show(cfg, raw)
  }

  function Normalize(texts: seq<string>): seq<string> {
    if texts == [] then [] else
      var rest, text := Normalize(texts[..|texts| - 1]), Strip(texts[|texts| - 1]);
      if text == "" || text in rest then rest else rest + [text]
  }

  /** The base contract's own list turns empty values into nothing; a capability's turns every value into text first. */
  function BaseRequired(cfg: Config, base: Contribution): seq<string> {
    Normalize(seq(|base.requiredFields|, i requires 0 <= i < |base.requiredFields| => TextOf(cfg, base.requiredFields[i])))
  }

  function RequiredOf(cfg: Config, c: Capability): seq<string> {
    var raw := c.contribution.requiredFields;
    Normalize(seq(|raw|, i requires 0 <= i < |raw| => Show(cfg, raw[i])))
  }

  function FieldTypes(cfg: Config, items: seq<(Json, Json)>): map<string, string> {
    if items == [] then map[] else
      var rest, (k, v) := FieldTypes(cfg, items[..|items| - 1]), items[|items| - 1];
      var field, kind := Strip(TextOf(cfg, k)), Lower(Strip(TextOf(cfg, v)));
      if field == "" || kind == "" then rest else rest[field := kind]
  }

  function DictsOnly(items: seq<Json>): seq<Json> {
    if items == [] then [] else
      var rest := DictsOnly(items[..|items| - 1]);
      if items[|items| - 1].JDict? then rest + [items[|items| - 1]] else rest
  }

  function NormalPhysics(p: Physics): Physics {
    Physics(DictsOnly(p.rules), p.defaults, DictsOnly(p.autoSemantics))
  }

  // ---------- Keeping the first of each key ----------

  function Keys<T>(key: T -> string, entries: seq<Entry<T>>): set<string> {
    set i | 0 <= i < |entries| :: key(entries[i].item)
  }

  function KeepFirst<T>(key: T -> string, kept: seq<Entry<T>>, more: seq<Entry<T>>): seq<Entry<T>> {
    if more == [] then kept else
      var r, last := KeepFirst(key, kept, more[..|more| - 1]), more[|more| - 1];
      if key(last.item) in Keys(key, r) then r else r + [last]
  }

  function Tag<T>(items: seq<T>, source: Source): seq<Entry<T>> {
    seq(|items|, i requires 0 <= i < |items| => Entry(items[i], source))
  }

  function Items<T>(entries: seq<Entry<T>>): seq<T> {
    seq(|entries|, i requires 0 <= i < |entries| => entries[i].item)
  }

  function Sources<T>(entries: seq<Entry<T>>): seq<Source> {
    seq(|entries|, i requires 0 <= i < |entries| => entries[i].source)
  }

  function SourceMap(entries: seq<Entry<string>>): map<string, Source> {
    if entries == [] then map[]
    else SourceMap(entries[..|entries| - 1])[entries[|entries| - 1].item := entries[|entries| - 1].source]
  }

  /** The facts about a merged list that its readers rely on. */
  ghost predicate FirstWins<T>(key: T -> string, kept: seq<Entry<T>>, more: seq<Entry<T>>, r: seq<Entry<T>>) {
    && kept <= r
    && Keys(key, r) == Keys(key, kept) + Keys(key, more)
    && (forall i, j :: 0 <= i < j < |r| && |kept| <= j ==> key(r[i].item) != key(r[j].item))
    && (forall j :: |kept| <= j < |r| ==> FirstAmong(key, more, r[j]))
  }

  /** The entry is in the list, and no entry before it has its key. */
  ghost predicate FirstAmong<T>(key: T -> string, entries: seq<Entry<T>>, e: Entry<T>) {
    exists p :: 0 <= p < |entries| && entries[p] == e && forall q :: 0 <= q < p ==> key(entries[q].item) != key(e.item)
  }

  lemma {:induction false} KeepFirstWins<T>(key: T -> string, kept: seq<Entry<T>>, more: seq<Entry<T>>)
    ensures FirstWins(key, kept, more, KeepFirst(key, kept, more))
    decreases |more|
  {
    hide FirstAmong;
    if more != [] {
      var init, last := more[..|more| - 1], more[|more| - 1];
      KeepFirstWins(key, kept, init);
      var r := KeepFirst(key, kept, init);
      var next := KeepFirst(key, kept, more);
      assert more == init + [last];
      KeysSnoc(key, init, last);
      KeysSnoc(key, r, last);
      forall j | |kept| <= j < |next| ensures FirstAmong(key, more, next[j]) {
        if j < |r| {
          StillFirst(key, init, last, r[j]);
        } else {
          NewIsFirst(key, init, last);
        }
      }
    }
  }

  lemma KeysSnoc<T>(key: T -> string, entries: seq<Entry<T>>, e: Entry<T>)
    ensures Keys(key, entries + [e]) == Keys(key, entries) + {key(e.item)}
  {
    var all := entries + [e];
    forall k ensures k in Keys(key, all) <==> k in Keys(key, entries) + {key(e.item)} {
      if k in Keys(key, entries) {
        var i :| 0 <= i < |entries| && key(entries[i].item) == k;
        assert all[i] == entries[i];
      }
      if k == key(e.item) { assert all[|entries|] == e; }
    }
  }

  lemma StillFirst<T>(key: T -> string, entries: seq<Entry<T>>, last: Entry<T>, e: Entry<T>)
    requires FirstAmong(key, entries, e)
    ensures FirstAmong(key, entries + [last], e)
  {
    var p :| 0 <= p < |entries| && entries[p] == e && forall q :: 0 <= q < p ==> key(entries[q].item) != key(e.item);
    var all := entries + [last];
    assert all[p] == e && forall q :: 0 <= q < p ==> all[q] == entries[q];
  }

  lemma NewIsFirst<T>(key: T -> string, entries: seq<Entry<T>>, e: Entry<T>)
    requires key(e.item) !in Keys(key, entries)
    ensures FirstAmong(key, entries + [e], e)
  {
    var all := entries + [e];
    assert all[|entries|] == e;
    forall q | 0 <= q < |entries| ensures key(all[q].item) != key(e.item) { assert all[q] == entries[q]; }
  }

  lemma {:induction false} KeepFirstInTwo<T>(key: T -> string, kept: seq<Entry<T>>, a: seq<Entry<T>>, b: seq<Entry<T>>)
    ensures KeepFirst(key, kept, a + b) == KeepFirst(key, KeepFirst(key, kept, a), b)
    decreases |b|
  {
    hide Keys;
    if b == [] {
      assert a + b == a;
    } else {
      var last := |b| - 1;
      KeepFirstInTwo(key, kept, a, b[..last]);
      assert (a + b)[..|a + b| - 1] == a + b[..last];
    }
  }

  // ---------- The compiled contract ----------

  function Same(text: string): string {
    text
  }

  function TypesOver(cfg: Config, base: Contribution, caps: seq<Capability>): map<string, string> {
    if caps == [] then FieldTypes(cfg, base.fieldTypes)
    else TypesOver(cfg, base, caps[..|caps| - 1]) + FieldTypes(cfg, caps[|caps| - 1].contribution.fieldTypes)
  }

  function AllFrom(types: map<string, string>, source: Source): map<string, Source> {
    map f | f in types :: source
  }

  function TypeSourcesOver(cfg: Config, base: Contribution, caps: seq<Capability>): map<string, Source> {
    if caps == [] then AllFrom(FieldTypes(cfg, base.fieldTypes), BaseContract)
    else
      var last := caps[|caps| - 1];
      TypeSourcesOver(cfg, base, caps[..|caps| - 1]) + AllFrom(FieldTypes(cfg, last.contribution.fieldTypes), SourceOf(last))
  }

  function DefaultsOver(base: Contribution, caps: seq<Capability>): map<string, Json> {
    if caps == [] then base.physics.defaults
    else DefaultsOver(base, caps[..|caps| - 1]) + caps[|caps| - 1].contribution.physics.defaults
  }

  /** All that the capabilities contribute, list by list; `lists[k]` is what `caps[k]` contributes. */
  function Contributed<T>(lists: seq<seq<T>>, caps: seq<Capability>): seq<Entry<T>>
    requires |lists| == |caps|
  {
    if caps == [] then [] else
      var last := |caps| - 1;
      Contributed(lists[..last], caps[..last]) + Tag(lists[last], SourceOf(caps[last]))
  }

  function Merged<T>(key: T -> string, base: seq<T>, lists: seq<seq<T>>, caps: seq<Capability>): seq<Entry<T>>
    requires |lists| == |caps|
  {
    KeepFirst(key, Tag(base, BaseContract), Contributed(lists, caps))
  }

  function RequiredLists(cfg: Config, caps: seq<Capability>): (r: seq<seq<string>>)
    ensures |r| == |caps|
  {
    seq(|caps|, k requires 0 <= k < |caps| => RequiredOf(cfg, caps[k]))
  }

  function RuleLists(part: Contribution -> seq<Json>, caps: seq<Capability>): (r: seq<seq<Json>>)
    ensures |r| == |caps|
  {
    seq(|caps|, k requires 0 <= k < |caps| => DictsOnly(part(caps[k].contribution)))
  }

  function Required(cfg: Config, base: Contribution, caps: seq<Capability>): seq<Entry<string>> {
    Merged(Same, BaseRequired(cfg, base), RequiredLists(cfg, caps), caps)
  }

  function Rules(cfg: Config, base: Contribution, part: Contribution -> seq<Json>, caps: seq<Capability>): seq<Entry<Json>> {
    Merged(cfg.repr, DictsOnly(part(base)), RuleLists(part, caps), caps)
  }

  function UniqueOf(c: Contribution): seq<Json> { c.uniqueRules }

  function ValidatorsOf(c: Contribution): seq<Json> { c.validators }

  function FormulasOf(c: Contribution): seq<Json> { c.formulas }

  function PhysicsRulesOf(c: Contribution): seq<Json> { c.physics.rules }

  function AutoSemanticsOf(c: Contribution): seq<Json> { c.physics.autoSemantics }

  /** The contract over capabilities already filtered and sorted. */
  function Compile(cfg: Config, base: Contribution, caps: seq<Capability>): Effective {
    var unique, validators := Rules(cfg, base, UniqueOf, caps), Rules(cfg, base, ValidatorsOf, caps);
    Effective(
      Items(Required(cfg, base, caps)), SourceMap(Required(cfg, base, caps)),
      TypesOver(cfg, base, caps), TypeSourcesOver(cfg, base, caps),
      Items(unique), Sources(unique), Items(validators), Sources(validators),
      Items(Rules(cfg, base, FormulasOf, caps)),
      Physics(Items(Rules(cfg, base, PhysicsRulesOf, caps)), DefaultsOver(base, caps), Items(Rules(cfg, base, AutoSemanticsOf, caps))))
  }

  // ---------- Who contributed what ----------

  /** The first capability to contribute an item with this key is the `k`-th. */
  ghost predicate FirstContributor<T>(key: T -> string, lists: seq<seq<T>>, k: nat, text: string) {
    && k < |lists|
    && (exists x :: x in lists[k] && key(x) == text)
    && forall m :: 0 <= m < k ==> forall x :: x in lists[m] ==> key(x) != text
  }

  /** The item and its source are those of the first capability to contribute the item's key. */
  ghost predicate IsFirstOf<T>(key: T -> string, lists: seq<seq<T>>, caps: seq<Capability>, item: T, source: Source)
    requires |lists| == |caps|
  {
    exists k: nat :: FirstContributor(key, lists, k, key(item)) && item in lists[k] && source == SourceOf(caps[k])
  }

  lemma {:induction false} FirstAmongIsFirst<T>(key: T -> string, lists: seq<seq<T>>, caps: seq<Capability>, e: Entry<T>)
    requires |lists| == |caps| && FirstAmong(key, Contributed(lists, caps), e)
    ensures IsFirstOf(key, lists, caps, e.item, e.source)
    decreases |caps|
  {
    hide SourceOf;
    if caps != [] {
      var last := |caps| - 1;
      var before, own := Contributed(lists[..last], caps[..last]), Tag(lists[last], SourceOf(caps[last]));
      var all := Contributed(lists, caps);
      var p :| 0 <= p < |all| && all[p] == e && forall q :: 0 <= q < p ==> key(all[q].item) != key(e.item);
      assert all == before + own;
      if p < |before| {
        assert FirstAmong(key, before, e) by { FirstInPrefix(key, before, own, p, e); }
        FirstAmongIsFirst(key, lists[..last], caps[..last], e);
        IsFirstInMore(key, lists, caps, last, e);
      } else {
        assert own[p - |before|] == e && e.item == lists[last][p - |before|];
        forall m, x | 0 <= m < last && x in lists[m] ensures key(x) != key(e.item) {
          ContributedHas(lists[..last], caps[..last], m, x);
          var q :| 0 <= q < |before| && before[q].item == x;
          assert all[q] == before[q];
        }
        assert FirstContributor(key, lists, last, key(e.item));
        assert IsFirstOf(key, lists, caps, e.item, e.source);
      }
    }
  }

  lemma FirstInPrefix<T>(key: T -> string, before: seq<Entry<T>>, own: seq<Entry<T>>, p: nat, e: Entry<T>)
    requires p < |before| && (before + own)[p] == e && forall q :: 0 <= q < p ==> key((before + own)[q].item) != key(e.item)
    ensures FirstAmong(key, before, e)
  {
    assert before[p] == e;
    forall q | 0 <= q < p ensures key(before[q].item) != key(e.item) { assert (before + own)[q] == before[q]; }
  }

  lemma IsFirstInMore<T>(key: T -> string, lists: seq<seq<T>>, caps: seq<Capability>, n: nat, e: Entry<T>)
    requires |lists| == |caps| && n <= |lists| && IsFirstOf(key, lists[..n], caps[..n], e.item, e.source)
    ensures IsFirstOf(key, lists, caps, e.item, e.source)
  {
    hide SourceOf;
    var k: nat :| FirstContributor(key, lists[..n], k, key(e.item)) && e.item in lists[..n][k] && e.source == SourceOf(caps[..n][k]);
    FirstInMore(key, lists, n, k, key(e.item));
  }

  lemma FirstInMore<T>(key: T -> string, lists: seq<seq<T>>, n: nat, k: nat, text: string)
    requires n <= |lists| && FirstContributor(key, lists[..n], k, text)
    ensures FirstContributor(key, lists, k, text) && k < n
  {
    assert forall m :: 0 <= m < n ==> lists[..n][m] == lists[m];
  }

  lemma {:induction false} ContributedHas<T>(lists: seq<seq<T>>, caps: seq<Capability>, m: nat, x: T)
    requires |lists| == |caps| && m < |lists| && x in lists[m]
    ensures exists q :: 0 <= q < |Contributed(lists, caps)| && Contributed(lists, caps)[q].item == x
    decreases |caps|
  {
    hide SourceOf;
    var last := |caps| - 1;
    var before, own := Contributed(lists[..last], caps[..last]), Tag(lists[last], SourceOf(caps[last]));
    assert Contributed(lists, caps) == before + own;
    if m < last {
      ContributedHas(lists[..last], caps[..last], m, x);
      var q :| 0 <= q < |before| && before[q].item == x;
      assert (before + own)[q] == before[q];
    } else {
      var i :| 0 <= i < |lists[last]| && lists[last][i] == x;
      assert (before + own)[|before| + i] == own[i];
    }
  }

  /**
   A merged list: the base items come first, marked as the base contract's; no later item repeats a
   key; every later item is marked with the first capability to contribute its key; and every
   contributed key is there.
   */
  ghost predicate MergedRight<T>(key: T -> string, base: seq<T>, lists: seq<seq<T>>, caps: seq<Capability>, items: seq<T>, sources: seq<Source>)
    requires |lists| == |caps|
  {
    && |items| == |sources| >= |base|
    && (forall i :: 0 <= i < |base| ==> items[i] == base[i] && sources[i] == BaseContract)
    && (forall i, j :: 0 <= i < j < |items| && |base| <= j ==> key(items[i]) != key(items[j]))
    && (forall j :: |base| <= j < |items| ==> IsFirstOf(key, lists, caps, items[j], sources[j]))
    && (forall k, x :: 0 <= k < |lists| && x in lists[k] ==> exists i :: 0 <= i < |items| && key(items[i]) == key(x))
  }

  lemma {:induction false} MergedIsRight<T>(key: T -> string, base: seq<T>, lists: seq<seq<T>>, caps: seq<Capability>)
    requires |lists| == |caps|
    ensures var r := Merged(key, base, lists, caps);
            MergedRight(key, base, lists, caps, Items(r), Sources(r))
  {
    hide FirstAmong, IsFirstOf, KeepFirst, Contributed;
    var kept, more := Tag(base, BaseContract), Contributed(lists, caps);
    var r := Merged(key, base, lists, caps);
    KeepFirstWins(key, kept, more);
    assert forall i :: 0 <= i < |base| ==> r[i] == kept[i];
    forall j | |base| <= j < |r| ensures IsFirstOf(key, lists, caps, r[j].item, r[j].source) {
      FirstAmongIsFirst(key, lists, caps, r[j]);
    }
    forall k, x | 0 <= k < |lists| && x in lists[k]
      ensures exists i :: 0 <= i < |Items(r)| && key(Items(r)[i]) == key(x)
    {
      ContributedHas(lists, caps, k, x);
      var q :| 0 <= q < |more| && more[q].item == x;
      assert key(x) in Keys(key, more);
      assert key(x) in Keys(key, r);
      var i :| 0 <= i < |r| && key(r[i].item) == key(x);
      assert Items(r)[i] == r[i].item;
    }
  }

  lemma KeyIsThere<T>(key: T -> string, base: seq<T>, lists: seq<seq<T>>, caps: seq<Capability>, items: seq<T>, sources: seq<Source>, k: nat, x: T)
    returns (i: nat)
    requires |lists| == |caps| && MergedRight(key, base, lists, caps, items, sources) && k < |lists| && x in lists[k]
    ensures i < |items| && key(items[i]) == key(x)
  {
    hide IsFirstOf;
    i :| 0 <= i < |items| && key(items[i]) == key(x);
  }

  // ---------- What the compiled contract says ----------

  /** Every rule list is merged right; unique rules and validators stay aligned with their recorded sources. */
  lemma {:induction false} RulesAreMergedRight(cfg: Config, base: Contribution, caps: seq<Capability>)
    ensures var c := Compile(cfg, base, caps);
            && MergedRight(cfg.repr, DictsOnly(base.uniqueRules), RuleLists(UniqueOf, caps), caps, c.uniqueRules, c.uniqueRuleSources)
            && MergedRight(cfg.repr, DictsOnly(base.validators), RuleLists(ValidatorsOf, caps), caps, c.validators, c.validatorSources)
            && MergedRight(cfg.repr, DictsOnly(base.formulas), RuleLists(FormulasOf, caps), caps,
                           c.formulas, Sources(Rules(cfg, base, FormulasOf, caps)))
            && MergedRight(cfg.repr, DictsOnly(base.physics.rules), RuleLists(PhysicsRulesOf, caps), caps,
                           c.physics.rules, Sources(Rules(cfg, base, PhysicsRulesOf, caps)))
            && MergedRight(cfg.repr, DictsOnly(base.physics.autoSemantics), RuleLists(AutoSemanticsOf, caps), caps,
                           c.physics.autoSemantics, Sources(Rules(cfg, base, AutoSemanticsOf, caps)))
  {
    hide MergedRight, Merged, DictsOnly, TypesOver, TypeSourcesOver, DefaultsOver, RuleLists;
    MergedIsRight(cfg.repr, DictsOnly(base.uniqueRules), RuleLists(UniqueOf, caps), caps);
    MergedIsRight(cfg.repr, DictsOnly(base.validators), RuleLists(ValidatorsOf, caps), caps);
    MergedIsRight(cfg.repr, DictsOnly(base.formulas), RuleLists(FormulasOf, caps), caps);
    MergedIsRight(cfg.repr, DictsOnly(base.physics.rules), RuleLists(PhysicsRulesOf, caps), caps);
    MergedIsRight(cfg.repr, DictsOnly(base.physics.autoSemantics), RuleLists(AutoSemanticsOf, caps), caps);
  }

  predicate IsNormal(texts: seq<string>) {
    && (forall i, j :: 0 <= i < j < |texts| ==> texts[i] != texts[j])
    && (forall i :: 0 <= i < |texts| ==> texts[i] != "" && Strip(texts[i]) == texts[i])
  }

  lemma {:induction false} NormalizeIsNormal(texts: seq<string>)
    ensures IsNormal(Normalize(texts))
    decreases |texts|
  {
    hide Strip, IsNormal;
    if texts == [] {
      EmptyIsNormal();
    } else {
      NormalizeIsNormal(texts[..|texts| - 1]);
      var rest, text := Normalize(texts[..|texts| - 1]), Strip(texts[|texts| - 1]);
      if text != "" && text !in rest {
        StripFixes(text);
        NormalSnoc(rest, text);
      }
    }
  }

  lemma EmptyIsNormal()
    ensures IsNormal([])
  {
  }

  lemma NormalSnoc(texts: seq<string>, text: string)
    requires IsNormal(texts) && text != "" && Strip(text) == text && text !in texts
    ensures IsNormal(texts + [text])
  {
    hide Strip;
  }

  lemma NormalInit(texts: seq<string>)
    requires IsNormal(texts) && texts != []
    ensures IsNormal(texts[..|texts| - 1])
    ensures var last := texts[|texts| - 1]; last != "" && Strip(last) == last && last !in texts[..|texts| - 1]
  {
    hide Strip;
  }

  lemma {:induction false} SourceMapAt(entries: seq<Entry<string>>, i: nat)
    requires i < |entries| && forall j :: i < j < |entries| ==> entries[j].item != entries[i].item
    ensures entries[i].item in SourceMap(entries) && SourceMap(entries)[entries[i].item] == entries[i].source
    decreases |entries|
  {
    if i < |entries| - 1 { SourceMapAt(entries[..|entries| - 1], i); }
  }

  lemma {:induction false} SourceMapHasItems(entries: seq<Entry<string>>, f: string)
    requires f in SourceMap(entries)
    ensures exists i :: 0 <= i < |entries| && entries[i].item == f
    decreases |entries|
  {
    var last := |entries| - 1;
    if entries[last].item != f {
      SourceMapHasItems(entries[..last], f);
      var i :| 0 <= i < last && entries[..last][i].item == f;
      assert entries[i].item == f;
    }
  }

  /** Base fields first; trimmed, non-empty, without repetition; the sources cover exactly them, first contributor winning. */
  ghost predicate RequiredRight(first: seq<string>, lists: seq<seq<string>>, caps: seq<Capability>, fields: seq<string>, sources: map<string, Source>)
    requires |lists| == |caps|
  {
    && first <= fields && IsNormal(fields)
    && (forall f :: f in fields <==> f in sources)
    && (forall f :: f in first ==> f in sources && sources[f] == BaseContract)
    && (forall f :: f in fields && f !in first ==> f in sources && IsFirstOf(Same, lists, caps, f, sources[f]))
    && (forall k, f :: 0 <= k < |lists| && f in lists[k] ==> f in fields)
  }

  lemma {:induction false} RequiredAreRight(cfg: Config, base: Contribution, caps: seq<Capability>)
    ensures var c := Compile(cfg, base, caps);
            RequiredRight(BaseRequired(cfg, base), RequiredLists(cfg, caps), caps, c.requiredFields, c.requiredFieldSources)
  {
    hide IsFirstOf, Merged, TypesOver, TypeSourcesOver, DefaultsOver, Rules, BaseRequired, RequiredLists, SourceMap;
    var entries := Required(cfg, base, caps);
    var first, lists := BaseRequired(cfg, base), RequiredLists(cfg, caps);
    MergedIsRight(Same, first, lists, caps);
    RequiredIsNormal(cfg, base, caps);
    SourceMapOf(entries);
    RequiredFromMerged(first, lists, caps, Items(entries), Sources(entries), SourceMap(entries));
  }

  lemma {:induction false} RequiredFromMerged(first: seq<string>, lists: seq<seq<string>>, caps: seq<Capability>,
                                             fields: seq<string>, marks: seq<Source>, sources: map<string, Source>)
    requires |lists| == |caps| && MergedRight(Same, first, lists, caps, fields, marks) && IsNormal(fields)
    requires forall f :: f in fields <==> f in sources
    requires forall i :: 0 <= i < |fields| ==> fields[i] in sources && sources[fields[i]] == marks[i]
    ensures RequiredRight(first, lists, caps, fields, sources)
  {
    hide IsFirstOf, IsNormal;
    assert fields[..|first|] == first;
    forall f | f in fields && f !in first ensures IsFirstOf(Same, lists, caps, f, sources[f]) {
      var j :| 0 <= j < |fields| && fields[j] == f;
      assert forall i :: 0 <= i < |first| ==> fields[i] == first[i] && first[i] in first;
    }
    forall k, f | 0 <= k < |lists| && f in lists[k] ensures f in fields {
      var i := KeyIsThere(Same, first, lists, caps, fields, marks, k, f);
      assert fields[i] == f;
    }
  }

  lemma {:induction false} SourceMapOf(entries: seq<Entry<string>>)
    requires IsNormal(Items(entries))
    ensures forall f :: f in Items(entries) <==> f in SourceMap(entries)
    ensures forall i :: 0 <= i < |entries| ==> Items(entries)[i] in SourceMap(entries) && SourceMap(entries)[Items(entries)[i]] == Sources(entries)[i]
  {
    hide SourceMap;
    forall i | 0 <= i < |entries|
      ensures Items(entries)[i] in SourceMap(entries) && SourceMap(entries)[Items(entries)[i]] == Sources(entries)[i]
    {
      forall j | i < j < |entries| ensures entries[j].item != entries[i].item { assert Items(entries)[i] != Items(entries)[j]; }
      SourceMapAt(entries, i);
    }
    forall f | f in SourceMap(entries) ensures f in Items(entries) {
      SourceMapHasItems(entries, f);
      var i :| 0 <= i < |entries| && entries[i].item == f;
      assert Items(entries)[i] == f;
    }
  }

  lemma {:induction false} RequiredIsNormal(cfg: Config, base: Contribution, caps: seq<Capability>)
    ensures IsNormal(Items(Required(cfg, base, caps)))
  {
    hide SourceOf, Merged, Normalize, Strip;
    var first, lists := BaseRequired(cfg, base), RequiredLists(cfg, caps);
    var fields := Items(Required(cfg, base, caps));
    MergedIsRight(Same, first, lists, caps);
    NormalizeIsNormal(seq(|base.requiredFields|, i requires 0 <= i < |base.requiredFields| => TextOf(cfg, base.requiredFields[i])));
    assert IsNormal(first);
    forall i, j | 0 <= i < j < |fields| ensures fields[i] != fields[j] {
      if j < |first| { assert fields[i] == first[i] && fields[j] == first[j]; } else { assert Same(fields[i]) != Same(fields[j]); }
    }
    forall i | 0 <= i < |fields| ensures fields[i] != "" && Strip(fields[i]) == fields[i] {
      if i < |first| {
        assert fields[i] == first[i];
      } else {
        assert IsFirstOf(Same, lists, caps, fields[i], Sources(Required(cfg, base, caps))[i]);
        var k: nat :| FirstContributor(Same, lists, k, Same(fields[i])) && fields[i] in lists[k];
        ContributionIsNormal(cfg, caps, lists, k, fields[i]);
      }
    }
  }

  lemma ContributionIsNormal(cfg: Config, caps: seq<Capability>, lists: seq<seq<string>>, k: nat, f: string)
    requires lists == RequiredLists(cfg, caps) && k < |lists| && f in lists[k]
    ensures f != "" && Strip(f) == f
  {
    hide Normalize;
    var raw := caps[k].contribution.requiredFields;
    NormalizeIsNormal(seq(|raw|, i requires 0 <= i < |raw| => Show(cfg, raw[i])));
  }

  /** The last capability to type the field is the `k`-th. */
  predicate LastTyper(cfg: Config, caps: seq<Capability>, k: nat, f: string) {
    && k < |caps| && f in FieldTypes(cfg, caps[k].contribution.fieldTypes)
    && forall m :: k < m < |caps| ==> f !in FieldTypes(cfg, caps[m].contribution.fieldTypes)
  }

  /** The last contributor decides a field's type and is recorded as its source. */
  ghost predicate TypeRight(cfg: Config, base: Contribution, caps: seq<Capability>, types: map<string, string>, sources: map<string, Source>, f: string) {
    && (f in types <==> f in sources)
    && (forall k: nat :: LastTyper(cfg, caps, k, f) ==>
          f in sources && types[f] == FieldTypes(cfg, caps[k].contribution.fieldTypes)[f] && sources[f] == SourceOf(caps[k]))
    && (NoTyper(cfg, caps, f) ==>
          && (f in types <==> f in FieldTypes(cfg, base.fieldTypes))
          && (f in types ==> types[f] == FieldTypes(cfg, base.fieldTypes)[f] && sources[f] == BaseContract))
    && (NoTyper(cfg, caps, f) || exists k: nat :: LastTyper(cfg, caps, k, f))
  }

  predicate NoTyper(cfg: Config, caps: seq<Capability>, f: string) {
    forall m :: 0 <= m < |caps| ==> f !in FieldTypes(cfg, caps[m].contribution.fieldTypes)
  }

  lemma {:induction false} TypesAreRight(cfg: Config, base: Contribution, caps: seq<Capability>, f: string)
    ensures TypeRight(cfg, base, caps, TypesOver(cfg, base, caps), TypeSourcesOver(cfg, base, caps), f)
    decreases |caps|
  {
    hide FieldTypes, SourceOf, TypeRight;
    if caps == [] {
      NobodyTypes(cfg, base, f);
    } else {
      TypesAreRight(cfg, base, caps[..|caps| - 1], f);
      if f in FieldTypes(cfg, caps[|caps| - 1].contribution.fieldTypes) {
        LastOneTypes(cfg, base, caps, f);
      } else {
        LastOneSkips(cfg, base, caps, f);
      }
    }
  }

  lemma NobodyTypes(cfg: Config, base: Contribution, f: string)
    ensures TypeRight(cfg, base, [], TypesOver(cfg, base, []), TypeSourcesOver(cfg, base, []), f)
  {
    hide FieldTypes;
  }

  lemma LastOneTypes(cfg: Config, base: Contribution, caps: seq<Capability>, f: string)
    requires caps != [] && f in FieldTypes(cfg, caps[|caps| - 1].contribution.fieldTypes)
    ensures TypeRight(cfg, base, caps, TypesOver(cfg, base, caps), TypeSourcesOver(cfg, base, caps), f)
  {
    hide FieldTypes, SourceOf;
    var last := |caps| - 1;
    assert LastTyper(cfg, caps, last, f);
    assert forall k: nat :: LastTyper(cfg, caps, k, f) ==> k == last;
  }

  lemma LastOneSkips(cfg: Config, base: Contribution, caps: seq<Capability>, f: string)
    requires caps != [] && f !in FieldTypes(cfg, caps[|caps| - 1].contribution.fieldTypes)
    requires var init := caps[..|caps| - 1]; TypeRight(cfg, base, init, TypesOver(cfg, base, init), TypeSourcesOver(cfg, base, init), f)
    ensures TypeRight(cfg, base, caps, TypesOver(cfg, base, caps), TypeSourcesOver(cfg, base, caps), f)
  {
    hide FieldTypes, SourceOf, NoTyper;
    var init := caps[..|caps| - 1];
    NoTyperInit(cfg, caps, f);
    forall k: nat ensures LastTyper(cfg, caps, k, f) <==> LastTyper(cfg, init, k, f) {
      LastTyperInit(cfg, caps, k, f);
    }
    forall k: nat | LastTyper(cfg, caps, k, f) ensures k < |init| && caps[k] == init[k] {
      assert LastTyper(cfg, init, k, f);
    }
  }

  lemma NoTyperInit(cfg: Config, caps: seq<Capability>, f: string)
    requires caps != [] && f !in FieldTypes(cfg, caps[|caps| - 1].contribution.fieldTypes)
    ensures NoTyper(cfg, caps, f) <==> NoTyper(cfg, caps[..|caps| - 1], f)
  {
    hide FieldTypes;
    var init := caps[..|caps| - 1];
    assert forall m :: 0 <= m < |init| ==> init[m] == caps[m];
  }

  lemma LastTyperInit(cfg: Config, caps: seq<Capability>, k: nat, f: string)
    requires caps != [] && f !in FieldTypes(cfg, caps[|caps| - 1].contribution.fieldTypes)
    ensures LastTyper(cfg, caps, k, f) <==> LastTyper(cfg, caps[..|caps| - 1], k, f)
  {
    hide FieldTypes;
    var init := caps[..|caps| - 1];
    assert forall m :: 0 <= m < |init| ==> init[m] == caps[m];
  }

  /** The compiled contract does not depend on the order of the capability rows. */
  lemma {:induction false} RowOrderIsIrrelevant(cfg: Config, base: Contribution, caps: seq<Capability>, other: seq<Capability>)
    requires multiset(caps) == multiset(other) && DistinctIds(caps)
    ensures Compile(cfg, base, SortedActive(caps)) == Compile(cfg, base, SortedActive(other))
  {
    hide Compile, SortedActive;
    OrderOfRowsIsIrrelevant(caps, other);
  }

  // ---------- The compiler ----------

  method NormalizeStringList(texts: seq<string>) returns (normalized: seq<string>)
    ensures normalized == Normalize(texts) && IsNormal(normalized)
  {
    hide IsNormal;
    normalized := [];
    for i := 0 to |texts|
      invariant normalized == Normalize(texts[..i])
    {
      assert texts[..i + 1][..i] == texts[..i];
      var value := Strip(texts[i]);
      if value != "" && value !in normalized {
        normalized := normalized + [value];
      }
    }
    assert texts[..|texts|] == texts;
    NormalizeIsNormal(texts);
  }

  lemma KeepFirstSnoc<T>(key: T -> string, kept: seq<Entry<T>>, more: seq<Entry<T>>, e: Entry<T>)
    ensures KeepFirst(key, kept, more + [e]) ==
            var r := KeepFirst(key, kept, more); if key(e.item) in Keys(key, r) then r else r + [e]
  {
    hide Keys;
    assert (more + [e])[..|more|] == more;
  }

  lemma ItemsSnoc<T>(entries: seq<Entry<T>>, e: Entry<T>)
    ensures Items(entries + [e]) == Items(entries) + [e.item] && Sources(entries + [e]) == Sources(entries) + [e.source]
  {
  }

  lemma TagSnoc<T>(items: seq<T>, i: nat, source: Source)
    requires i < |items|
    ensures Tag(items[..i + 1], source) == Tag(items[..i], source) + [Entry(items[i], source)]
  {
  }

  /** Appends the rules whose text is new, each with its source; `kept` is what the two lists stand for. */
  method MergeRuleListWithSources(cfg: Config, rules: seq<Json>, sources: seq<Source>, extra: seq<Json>, source: Source,
                                  ghost kept: seq<Entry<Json>>)
    returns (mergedRules: seq<Json>, mergedSources: seq<Source>)
    requires rules == Items(kept) && sources == Sources(kept)
    ensures mergedRules == Items(KeepFirst(cfg.repr, kept, Tag(extra, source)))
    ensures mergedSources == Sources(KeepFirst(cfg.repr, kept, Tag(extra, source)))
  {
    hide KeepFirst, Items, Sources, Tag;
    mergedRules, mergedSources := rules, sources;
    ghost var merged := kept;
    var existing: set<string> := set i | 0 <= i < |rules| :: cfg.repr(rules[i]);
    assert existing == Keys(cfg.repr, kept) by { SameKeys(cfg.repr, kept); }
    assert Tag(extra[..0], source) == [] && KeepFirst(cfg.repr, kept, []) == kept by { NothingMerged(cfg.repr, extra, kept, source); }
    for i := 0 to |extra|
      invariant merged == KeepFirst(cfg.repr, kept, Tag(extra[..i], source))
      invariant mergedRules == Items(merged) && mergedSources == Sources(merged)
      invariant existing == Keys(cfg.repr, merged)
    {
      var marker := cfg.repr(extra[i]);
      TagSnoc(extra, i, source);
      KeepFirstSnoc(cfg.repr, kept, Tag(extra[..i], source), Entry(extra[i], source));
      if marker !in existing {
        KeysSnoc(cfg.repr, merged, Entry(extra[i], source));
        ItemsSnoc(merged, Entry(extra[i], source));
        existing := existing + {marker};
        mergedRules := mergedRules + [extra[i]];
        mergedSources := mergedSources + [source];
        merged := merged + [Entry(extra[i], source)];
      }
    }
    assert extra[..|extra|] == extra;
  }

  lemma SameKeys(repr: Json -> string, kept: seq<Entry<Json>>)
    ensures (set i | 0 <= i < |Items(kept)| :: repr(Items(kept)[i])) == Keys(repr, kept)
  {
    var rules := Items(kept);
    forall k ensures k in (set i | 0 <= i < |rules| :: repr(rules[i])) <==> k in Keys(repr, kept) {
      if k in Keys(repr, kept) {
        var i :| 0 <= i < |kept| && repr(kept[i].item) == k;
        assert rules[i] == kept[i].item;
      }
    }
  }

  lemma NothingMerged(repr: Json -> string, extra: seq<Json>, kept: seq<Entry<Json>>, source: Source)
    ensures Tag(extra[..0], source) == [] && KeepFirst(repr, kept, []) == kept
  {
  }

  /** The same without sources. */
  method MergeDictList(cfg: Config, rules: seq<Json>, extra: seq<Json>, source: Source, ghost kept: seq<Entry<Json>>)
    returns (mergedRules: seq<Json>)
    requires rules == Items(kept)
    ensures mergedRules == Items(KeepFirst(cfg.repr, kept, Tag(extra, source)))
  {
    hide KeepFirst, Items, Tag;
    mergedRules := rules;
    ghost var merged := kept;
    assert Tag(extra[..0], source) == [] && KeepFirst(cfg.repr, kept, []) == kept by { NothingMerged(cfg.repr, extra, kept, source); }
    if extra == [] {
      assert extra[..0] == extra;
      return;
    }
    var existing: set<string> := set i | 0 <= i < |rules| :: cfg.repr(rules[i]);
    assert existing == Keys(cfg.repr, kept) by { SameKeys(cfg.repr, kept); }
    for i := 0 to |extra|
      invariant merged == KeepFirst(cfg.repr, kept, Tag(extra[..i], source)) && mergedRules == Items(merged)
      invariant existing == Keys(cfg.repr, merged)
    {
      var marker := cfg.repr(extra[i]);
      TagSnoc(extra, i, source);
      KeepFirstSnoc(cfg.repr, kept, Tag(extra[..i], source), Entry(extra[i], source));
      if marker !in existing {
        KeysSnoc(cfg.repr, merged, Entry(extra[i], source));
        ItemsSnoc(merged, Entry(extra[i], source));
        existing := existing + {marker};
        mergedRules := mergedRules + [extra[i]];
        merged := merged + [Entry(extra[i], source)];
      }
    }
    assert extra[..|extra|] == extra;
  }

  /** The capability's required fields, one by one. */
  method MergeRequired(fields: seq<string>, sources: map<string, Source>, extra: seq<string>, source: Source, ghost kept: seq<Entry<string>>)
    returns (mergedFields: seq<string>, mergedSources: map<string, Source>, ghost merged: seq<Entry<string>>)
    requires fields == Items(kept) && sources == SourceMap(kept) && IsNormal(fields) && IsNormal(extra)
    ensures merged == KeepFirst(Same, kept, Tag(extra, source))
    ensures mergedFields == Items(merged) && mergedSources == SourceMap(merged) && IsNormal(mergedFields)
  {
    hide KeepFirst, Items, Tag, SourceMap, Keys, IsNormal;
    mergedFields, mergedSources, merged := fields, sources, kept;
    assert Tag(extra[..0], source) == [] && KeepFirst(Same, kept, []) == kept by { NothingRequired(extra, kept, source); }
    for i := 0 to |extra|
      invariant merged == KeepFirst(Same, kept, Tag(extra[..i], source))
      invariant mergedFields == Items(merged) && mergedSources == SourceMap(merged) && IsNormal(mergedFields)
    {
      assert extra[i] != "" && Strip(extra[i]) == extra[i] by { NormalAt(extra, i); }
      TagSnoc(extra, i, source);
      KeepFirstSnoc(Same, kept, Tag(extra[..i], source), Entry(extra[i], source));
      KeysAreItems(merged, extra[i]);
      mergedFields, mergedSources, merged := MergeOneField(mergedFields, mergedSources, extra[i], source, merged);
    }
    assert extra[..|extra|] == extra;
  }

  lemma NormalAt(texts: seq<string>, i: nat)
    requires IsNormal(texts) && i < |texts|
    ensures texts[i] != "" && Strip(texts[i]) == texts[i]
  {
  }

  method MergeOneField(fields: seq<string>, sources: map<string, Source>, field: string, source: Source, ghost kept: seq<Entry<string>>)
    returns (mergedFields: seq<string>, mergedSources: map<string, Source>, ghost merged: seq<Entry<string>>)
    requires fields == Items(kept) && sources == SourceMap(kept) && IsNormal(fields) && field != "" && Strip(field) == field
    ensures merged == if field in fields then kept else kept + [Entry(field, source)]
    ensures mergedFields == Items(merged) && mergedSources == SourceMap(merged) && IsNormal(mergedFields)
  {
    hide Items, SourceMap, Normalize, IsNormal;
    mergedSources, merged := sources, kept;
    SourceMapOf(kept);
    ItemsSnoc(kept, Entry(field, source));
    SourceMapSnoc(kept, Entry(field, source));
    NormalizeOneMore(fields, field);
    if field !in mergedSources {
      mergedSources := mergedSources[field := source];
      merged := merged + [Entry(field, source)];
    }
    mergedFields := NormalizeStringList(fields + [field]);
  }

  lemma NothingRequired(extra: seq<string>, kept: seq<Entry<string>>, source: Source)
    ensures Tag(extra[..0], source) == [] && KeepFirst(Same, kept, []) == kept
  {
  }

  lemma KeysAreItems(entries: seq<Entry<string>>, f: string)
    ensures f in Keys(Same, entries) <==> f in Items(entries)
  {
    if f in Keys(Same, entries) {
      var i :| 0 <= i < |entries| && entries[i].item == f;
      assert Items(entries)[i] == f;
    }
    if f in Items(entries) {
      var i :| 0 <= i < |Items(entries)| && Items(entries)[i] == f;
      assert Same(entries[i].item) == f;
    }
  }

  lemma SourceMapSnoc(entries: seq<Entry<string>>, e: Entry<string>)
    ensures SourceMap(entries + [e]) == SourceMap(entries)[e.item := e.source]
  {
    assert (entries + [e])[..|entries|] == entries;
  }

  lemma {:induction false} NormalizeFixes(texts: seq<string>)
    requires IsNormal(texts)
    ensures Normalize(texts) == texts
    decreases |texts|
  {
    hide Strip, IsNormal;
    if texts != [] {
      var last := |texts| - 1;
      NormalInit(texts);
      NormalizeFixes(texts[..last]);
      assert texts == texts[..last] + [texts[last]];
    }
  }

  lemma NormalizeOneMore(texts: seq<string>, text: string)
    requires IsNormal(texts) && text != "" && Strip(text) == text
    ensures Normalize(texts + [text]) == if text in texts then texts else texts + [text]
  {
    hide Strip, IsNormal;
    NormalizeFixes(texts);
    assert (texts + [text])[..|texts|] == texts;
  }

  /** The lists of one capability more. */
  lemma ContributedMore<T>(lists: seq<seq<T>>, caps: seq<Capability>, list: seq<T>, c: Capability)
    requires |lists| == |caps|
    ensures Contributed(lists + [list], caps + [c]) == Contributed(lists, caps) + Tag(list, SourceOf(c))
  {
    assert (lists + [list])[..|lists|] == lists && (caps + [c])[..|caps|] == caps;
  }

  lemma RequiredMore(cfg: Config, base: Contribution, caps: seq<Capability>, c: Capability)
    ensures Required(cfg, base, caps + [c]) == KeepFirst(Same, Required(cfg, base, caps), Tag(RequiredOf(cfg, c), SourceOf(c)))
  {
    hide KeepFirst, RequiredOf, BaseRequired;
    assert RequiredLists(cfg, caps + [c]) == RequiredLists(cfg, caps) + [RequiredOf(cfg, c)];
    ContributedMore(RequiredLists(cfg, caps), caps, RequiredOf(cfg, c), c);
    KeepFirstInTwo(Same, Tag(BaseRequired(cfg, base), BaseContract), Contributed(RequiredLists(cfg, caps), caps), Tag(RequiredOf(cfg, c), SourceOf(c)));
  }

  lemma RulesMore(cfg: Config, base: Contribution, part: Contribution -> seq<Json>, caps: seq<Capability>, c: Capability)
    ensures Rules(cfg, base, part, caps + [c]) ==
            KeepFirst(cfg.repr, Rules(cfg, base, part, caps), Tag(DictsOnly(part(c.contribution)), SourceOf(c)))
  {
    hide KeepFirst, DictsOnly;
    var list := DictsOnly(part(c.contribution));
    assert RuleLists(part, caps + [c]) == RuleLists(part, caps) + [list];
    ContributedMore(RuleLists(part, caps), caps, list, c);
    KeepFirstInTwo(cfg.repr, Tag(DictsOnly(part(base)), BaseContract), Contributed(RuleLists(part, caps), caps), Tag(list, SourceOf(c)));
  }

  lemma BaseOnly(cfg: Config, base: Contribution, part: Contribution -> seq<Json>)
    ensures Rules(cfg, base, part, []) == Tag(DictsOnly(part(base)), BaseContract)
    ensures Required(cfg, base, []) == Tag(BaseRequired(cfg, base), BaseContract)
  {
    hide DictsOnly, BaseRequired;
  }

  lemma TaggedItems<T>(items: seq<T>, source: Source)
    ensures Items(Tag(items, source)) == items && Sources(Tag(items, source)) == seq(|items|, _ => source)
  {
  }

  lemma BaseRequiredIsNormal(cfg: Config, base: Contribution)
    ensures IsNormal(BaseRequired(cfg, base))
  {
    NormalizeIsNormal(seq(|base.requiredFields|, i requires 0 <= i < |base.requiredFields| => TextOf(cfg, base.requiredFields[i])));
  }

  lemma RequiredOfIsNormal(cfg: Config, c: Capability)
    ensures IsNormal(RequiredOf(cfg, c))
  {
    var raw := c.contribution.requiredFields;
    NormalizeIsNormal(seq(|raw|, i requires 0 <= i < |raw| => Show(cfg, raw[i])));
  }

  lemma {:induction false} TaggedSources(items: seq<string>)
    requires IsNormal(items)
    ensures SourceMap(Tag(items, BaseContract)) == map f | f in items :: BaseContract
  {
    hide SourceMap;
    TaggedItems(items, BaseContract);
    SourceMapOf(Tag(items, BaseContract));
    var sources := SourceMap(Tag(items, BaseContract));
    forall f | f in items ensures sources[f] == BaseContract {
      var i :| 0 <= i < |items| && items[i] == f;
      assert Sources(Tag(items, BaseContract))[i] == BaseContract;
    }
  }

  /** The two lists a rule list with sources consists of. */
  datatype Sourced = Sourced(rules: seq<Json>, sources: seq<Source>)

  method MergeFrom(cfg: Config, base: Contribution, ghost part: Contribution -> seq<Json>, ghost caps: seq<Capability>, c: Capability,
                   own: seq<Json>, current: Sourced) returns (next: Sourced)
    requires own == DictsOnly(part(c.contribution))
    requires current == Sourced(Items(Rules(cfg, base, part, caps)), Sources(Rules(cfg, base, part, caps)))
    ensures next == Sourced(Items(Rules(cfg, base, part, caps + [c])), Sources(Rules(cfg, base, part, caps + [c])))
  {
    hide Rules, Items, Sources, KeepFirst, Tag, DictsOnly;
    RulesMore(cfg, base, part, caps, c);
    var rules, sources := MergeRuleListWithSources(cfg, current.rules, current.sources, own, SourceOf(c), Rules(cfg, base, part, caps));
    next := Sourced(rules, sources);
  }

  method MergeDictsFrom(cfg: Config, base: Contribution, ghost part: Contribution -> seq<Json>, ghost caps: seq<Capability>, c: Capability,
                        own: seq<Json>, current: seq<Json>) returns (next: seq<Json>)
    requires own == DictsOnly(part(c.contribution))
    requires current == Items(Rules(cfg, base, part, caps))
    ensures next == Items(Rules(cfg, base, part, caps + [c]))
  {
    hide Rules, Items, KeepFirst, Tag, DictsOnly;
    RulesMore(cfg, base, part, caps, c);
    next := MergeDictList(cfg, current, own, SourceOf(c), Rules(cfg, base, part, caps));
  }

  method BaseEffective(cfg: Config, base: Contribution) returns (r: Effective)
    ensures r == Compile(cfg, base, [])
  {
    hide DictsOnly, BaseRequired, SourceMap, Items, Sources, Tag, FieldTypes, Rules, Required;
    BaseOnly(cfg, base, UniqueOf);
    BaseOnly(cfg, base, ValidatorsOf);
    BaseOnly(cfg, base, FormulasOf);
    BaseOnly(cfg, base, PhysicsRulesOf);
    BaseOnly(cfg, base, AutoSemanticsOf);
    var required := BaseRequired(cfg, base);
    BaseRequiredIsNormal(cfg, base);
    TaggedSources(required);
    TaggedItems(required, BaseContract);
    var types := FieldTypes(cfg, base.fieldTypes);
    var unique, validators := DictsOnly(base.uniqueRules), DictsOnly(base.validators);
    TaggedItems(unique, BaseContract);
    TaggedItems(validators, BaseContract);
    TaggedItems(DictsOnly(base.formulas), BaseContract);
    TaggedItems(DictsOnly(base.physics.rules), BaseContract);
    TaggedItems(DictsOnly(base.physics.autoSemantics), BaseContract);
    r := Effective(required, map f | f in required :: BaseContract, types, AllFrom(types, BaseContract),
                   unique, seq(|unique|, _ => BaseContract), validators, seq(|validators|, _ => BaseContract),
                   DictsOnly(base.formulas), NormalPhysics(base.physics));
  }

  /** Capability by capability, in sorted order; the result is the contract the properties above are about. */
  method CompileEffectiveTableContract(cfg: Config, base: Contribution, capabilities: seq<Capability>) returns (r: Effective)
    ensures r == Compile(cfg, base, SortedActive(capabilities))
  {
    hide SortedActive, Compile;
    r := BaseEffective(cfg, base);
    var sorted := SortedActive(capabilities);
    assert sorted[..0] == [];
    for i := 0 to |sorted|
      invariant r == Compile(cfg, base, sorted[..i])
    {
      assert sorted[..i + 1] == sorted[..i] + [sorted[i]];
      r := AddCapability(cfg, base, sorted[..i], sorted[i], r);
    }
    assert sorted[..|sorted|] == sorted;
  }

  method AddCapability(cfg: Config, base: Contribution, ghost caps: seq<Capability>, c: Capability, r: Effective) returns (next: Effective)
    requires r == Compile(cfg, base, caps)
    ensures next == Compile(cfg, base, caps + [c])
  {
    hide DictsOnly, BaseRequired, RequiredOf, SourceMap, Items, Sources, Tag, FieldTypes, Rules, Required, KeepFirst, IsNormal;
    var part := c.contribution;
    RequiredOfIsNormal(cfg, c);
    RequiredIsNormal(cfg, base, caps);
    RequiredMore(cfg, base, caps, c);
    var fields, fieldSources;
    ghost var kept;
    fields, fieldSources, kept := MergeRequired(r.requiredFields, r.requiredFieldSources, RequiredOf(cfg, c), SourceOf(c), Required(cfg, base, caps));
    var own := FieldTypes(cfg, part.fieldTypes);
    var types, typeSources := r.fieldTypes + own, r.fieldTypeSources + AllFrom(own, SourceOf(c));
    assert (caps + [c])[..|caps|] == caps;
    var unique := MergeFrom(cfg, base, UniqueOf, caps, c, DictsOnly(part.uniqueRules), Sourced(r.uniqueRules, r.uniqueRuleSources));
    var validators := MergeFrom(cfg, base, ValidatorsOf, caps, c, DictsOnly(part.validators), Sourced(r.validators, r.validatorSources));
    var formulas := MergeDictsFrom(cfg, base, FormulasOf, caps, c, DictsOnly(part.formulas), r.formulas);
    var patch := NormalPhysics(part.physics);
    var rules := MergeDictsFrom(cfg, base, PhysicsRulesOf, caps, c, patch.rules, r.physics.rules);
    var autos := MergeDictsFrom(cfg, base, AutoSemanticsOf, caps, c, patch.autoSemantics, r.physics.autoSemantics);
    next := Effective(fields, fieldSources, types, typeSources, unique.rules, unique.sources, validators.rules, validators.sources,
                      formulas, Physics(rules, r.physics.defaults + patch.defaults, autos));
  }
}
