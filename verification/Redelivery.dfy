/** Delivering any suffix of a well-formed log again leaves the tables exactly as they were. */
module Redelivery {
  import opened Values
  import opened ReadModel

  // ---------- One atom at a time ----------

  function RowAt(s: State, x: Id): Option<AtomRow> {
    if x in s.atoms then Some(s.atoms[x]) else None
  }

  predicate Concerns(e: Event, x: Id) {
    e.branch.None? && e.entity == x
  }

  function RowStep(r: Option<AtomRow>, x: Id, e: Event): Option<AtomRow> {
    if !Concerns(e, x) then r else
      match e.body
      case AsteroidCreated(value, metadata) =>
        Some(AtomRow(e.scope, value, metadata, false, if r.Some? then r.value.createdAt else e.at, None))
      case MetadataUpdated(_, _, _) =>
        if r.Some? && r.value.scope == e.scope then
          Some(r.value.(metadata := MergeMetadata(r.value.metadata, EffectivePatch(e.body), EffectiveRemove(e.body))))
        else r
      case ValueUpdated(v) =>
        if r.Some? && r.value.scope == e.scope && !r.value.isDeleted then Some(r.value.(value := v)) else r
      case AsteroidSoftDeleted =>
        if r.Some? && r.value.scope == e.scope && !r.value.isDeleted then
          Some(r.value.(isDeleted := true, deletedAt := Some(e.at)))
        else r
      case _ => r
  }

  lemma RowIsLocal(s: State, x: Id, e: Event)
    ensures RowAt(Apply(s, e), x) == RowStep(RowAt(s, x), x, e)
  {
    hide MergeMetadata, EffectivePatch, EffectiveRemove, RelationTaken, DeleteTouching;
  }

  function RowReplay(r: Option<AtomRow>, x: Id, log: seq<Event>): Option<AtomRow> {
    if log == [] then r else RowStep(RowReplay(r, x, log[..|log| - 1]), x, log[|log| - 1])
  }

  lemma {:induction false} RowOfReplay(s: State, x: Id, log: seq<Event>)
    ensures RowAt(Replay(s, log), x) == RowReplay(RowAt(s, x), x, log)
  {
    hide Apply, RowStep;
    if log != [] {
      RowOfReplay(s, x, log[..|log| - 1]);
      RowIsLocal(Replay(s, log[..|log| - 1]), x, log[|log| - 1]);
    }
  }

  /** What well-formedness demands of an event that concerns the atom. */
  predicate RowAdmissible(r: Option<AtomRow>, x: Id, e: Event) {
    Concerns(e, x) ==>
      match e.body
      case AsteroidCreated(_, _) => r.None?
      case MetadataUpdated(_, _, _) => r.Some? && r.value.scope == e.scope
      case ValueUpdated(_) => r.Some? && r.value.scope == e.scope
      case AsteroidSoftDeleted => r.Some? && r.value.scope == e.scope
      case _ => true
  }

  predicate RowWellFormed(r: Option<AtomRow>, x: Id, log: seq<Event>) {
    forall i :: 0 <= i < |log| ==> RowAdmissible(RowReplay(r, x, log[..i]), x, log[i])
  }

  lemma {:induction false} WellFormedRows(s: State, x: Id, log: seq<Event>, i: nat)
    requires WellFormed(s, log) && i < |log|
    ensures RowAdmissible(RowReplay(RowAt(s, x), x, log[..i]), x, log[i])
    decreases |log|
  {
    hide Apply, RowStep, RowReplay, RelationTaken, IsActive;
    var last := |log| - 1;
    if i < last {
      WellFormedRows(s, x, log[..last], i);
      assert log[..last][..i] == log[..i];
    } else {
      RowOfReplay(s, x, log[..last]);
    }
  }

  predicate RowKept(a: Option<AtomRow>, b: Option<AtomRow>) {
    a.Some? ==> b.Some? && AtomKept(a.value, b.value)
  }

  lemma {:induction false} RowKeptFrom(r: Option<AtomRow>, x: Id, log: seq<Event>, i: nat, j: nat)
    requires RowWellFormed(r, x, log) && i <= j <= |log|
    ensures RowKept(RowReplay(r, x, log[..i]), RowReplay(r, x, log[..j]))
    decreases j
  {
    hide MergeMetadata, EffectivePatch, EffectiveRemove;
    if i < j {
      RowKeptFrom(r, x, log, i, j - 1);
      assert log[..j][..j - 1] == log[..j - 1] && log[..j][j - 1] == log[j - 1];
      assert RowAdmissible(RowReplay(r, x, log[..j - 1]), x, log[j - 1]);
    }
  }

  // ---------- What a stretch of the log has written ----------

  predicate Creates(log: seq<Event>, x: Id) {
    log != [] && (Creates(log[..|log| - 1], x) || (Concerns(log[|log| - 1], x) && log[|log| - 1].body.AsteroidCreated?))
  }

  function WrittenKeys(log: seq<Event>, x: Id): set<string> {
    if log == [] then {} else
      var e := log[|log| - 1];
      WrittenKeys(log[..|log| - 1], x) +
      (if Concerns(e, x) && e.body.MetadataUpdated? then EffectivePatch(e.body).Keys + EffectiveRemove(e.body) else {})
  }

  predicate WritesValue(log: seq<Event>, x: Id) {
    log != [] && (WritesValue(log[..|log| - 1], x) || (Concerns(log[|log| - 1], x) && log[|log| - 1].body.ValueUpdated?))
  }

  function Lookup(m: Metadata, k: string): Option<Json> {
    if k in m then Some(m[k]) else None
  }

  lemma LookupMerge(m: Metadata, patch: Metadata, remove: set<string>, k: string)
    ensures Lookup(MergeMetadata(m, patch, remove), k) ==
            if k in remove then None else if k in patch then Some(patch[k]) else Lookup(m, k)
  {
  }

  lemma SameLookups(m: Metadata, n: Metadata)
    requires forall k :: Lookup(m, k) == Lookup(n, k)
    ensures m == n
  {
    forall k ensures (k in m <==> k in n) && (k in m ==> m[k] == n[k]) {
      assert Lookup(m, k) == Lookup(n, k);
    }
  }

  /** A second pass that has not met the creation yet: fields already rewritten agree with the first pass, the others with its end. */
  ghost predicate Midway(final: AtomRow, first: Option<AtomRow>, second: AtomRow, keys: set<string>, value: bool) {
    && second == final.(value := second.value, metadata := second.metadata)
    && (keys != {} || value ==> first.Some?)
    && (forall k :: Lookup(second.metadata, k) ==
                    if k in keys then Lookup(first.value.metadata, k) else Lookup(final.metadata, k))
    && second.value == if value && !final.isDeleted then first.value.value else final.value
  }

  ghost predicate InStep(final: Option<AtomRow>, first: Option<AtomRow>, second: Option<AtomRow>, log: seq<Event>, x: Id) {
    if Creates(log, x) || final.None? then first == second
    else second.Some? && Midway(final.value, first, second.value, WrittenKeys(log, x), WritesValue(log, x))
  }

  lemma StepAtMetadata(final: AtomRow, first: AtomRow, second: AtomRow, keys: set<string>, value: bool, e: Event)
    requires Midway(final, Some(first), second, keys, value)
    requires e.body.MetadataUpdated?
    ensures var p, r := EffectivePatch(e.body), EffectiveRemove(e.body);
            Midway(final, Some(first.(metadata := MergeMetadata(first.metadata, p, r))),
                   second.(metadata := MergeMetadata(second.metadata, p, r)), keys + (p.Keys + r), value)
  {
    var p, r := EffectivePatch(e.body), EffectiveRemove(e.body);
    hide MergeMetadata, EffectivePatch, EffectiveRemove;
    forall k ensures Lookup(MergeMetadata(second.metadata, p, r), k) ==
                     if k in keys + (p.Keys + r) then Lookup(MergeMetadata(first.metadata, p, r), k) else Lookup(final.metadata, k) {
      LookupMerge(second.metadata, p, r, k);
      LookupMerge(first.metadata, p, r, k);
    }
  }

  lemma {:induction false} Unfold(r: Option<AtomRow>, x: Id, log: seq<Event>, i: nat)
    requires 0 < i <= |log|
    ensures RowReplay(r, x, log[..i]) == RowStep(RowReplay(r, x, log[..i - 1]), x, log[i - 1])
    ensures Creates(log[..i], x) <==> Creates(log[..i - 1], x) || (Concerns(log[i - 1], x) && log[i - 1].body.AsteroidCreated?)
    ensures WrittenKeys(log[..i], x) == WrittenKeys(log[..i - 1], x) +
              (if Concerns(log[i - 1], x) && log[i - 1].body.MetadataUpdated?
               then EffectivePatch(log[i - 1].body).Keys + EffectiveRemove(log[i - 1].body) else {})
    ensures WritesValue(log[..i], x) <==> WritesValue(log[..i - 1], x) || (Concerns(log[i - 1], x) && log[i - 1].body.ValueUpdated?)
  {
    hide RowStep, EffectivePatch, EffectiveRemove;
    assert log[..i][..i - 1] == log[..i - 1] && log[..i][i - 1] == log[i - 1];
  }

  /** One event of the second pass. */
  lemma {:induction false} InStepNext(r: Option<AtomRow>, x: Id, log: seq<Event>, i: nat)
    requires 0 < i <= |log| && RowWellFormed(r, x, log)
    requires var final := RowReplay(r, x, log);
             InStep(final, RowReplay(r, x, log[..i - 1]), RowReplay(final, x, log[..i - 1]), log[..i - 1], x)
    ensures var final := RowReplay(r, x, log);
            InStep(final, RowReplay(r, x, log[..i]), RowReplay(final, x, log[..i]), log[..i], x)
  {
    hide RowReplay, Creates, WrittenKeys, WritesValue, MergeMetadata, EffectivePatch, EffectiveRemove, RowWellFormed;
    var final := RowReplay(r, x, log);
    var e := log[i - 1];
    Unfold(r, x, log, i);
    Unfold(final, x, log, i);
    assert log[..|log|] == log;
    RowKeptFrom(r, x, log, i, |log|);
    RowKeptFrom(r, x, log, i - 1, |log|);
    AdmissibleAt(r, x, log, i - 1);
    var first, second := RowReplay(r, x, log[..i - 1]), RowReplay(final, x, log[..i - 1]);
    if Concerns(e, x) && final.Some? && !Creates(log[..i - 1], x) {
      NextBeforeCreation(final.value, first, second.value, WrittenKeys(log[..i - 1], x), WritesValue(log[..i - 1], x), x, e);
    }
  }

  lemma AdmissibleAt(r: Option<AtomRow>, x: Id, log: seq<Event>, i: nat)
    requires RowWellFormed(r, x, log) && i < |log|
    ensures RowAdmissible(RowReplay(r, x, log[..i]), x, log[i])
  {
  }

  lemma {:induction false} NextBeforeCreation(final: AtomRow, first: Option<AtomRow>, second: AtomRow, keys: set<string>, value: bool, x: Id, e: Event)
    requires Midway(final, first, second, keys, value)
    requires Concerns(e, x) && RowAdmissible(first, x, e)
    requires RowKept(first, Some(final)) && RowKept(RowStep(first, x, e), Some(final))
    ensures RowStep(Some(second), x, e).Some?
    ensures if e.body.AsteroidCreated? then RowStep(first, x, e) == RowStep(Some(second), x, e)
            else Midway(final, RowStep(first, x, e), RowStep(Some(second), x, e).value,
                        keys + (if e.body.MetadataUpdated? then EffectivePatch(e.body).Keys + EffectiveRemove(e.body) else {}),
                        value || e.body.ValueUpdated?)
  {
    hide MergeMetadata, EffectivePatch, EffectiveRemove;
    if e.body.MetadataUpdated? {
      StepAtMetadata(final, first.value, second, keys, value, e);
    } else {
      assert keys + {} == keys;
    }
  }

  lemma {:induction false} SecondPass(r: Option<AtomRow>, x: Id, log: seq<Event>, i: nat)
    requires i <= |log| && RowWellFormed(r, x, log)
    ensures var final := RowReplay(r, x, log);
            InStep(final, RowReplay(r, x, log[..i]), RowReplay(final, x, log[..i]), log[..i], x)
    decreases i
  {
    hide InStep, RowStep, RowWellFormed, Midway;
    if i == 0 {
      NothingAbsent(r, x, log);
      assert log[..0] == [];
      InStepStart(r, x, log);
    } else {
      SecondPass(r, x, log, i - 1);
      InStepNext(r, x, log, i);
    }
  }

  /** An atom that does not exist at the end of the log never existed. */
  lemma {:induction false} NothingAbsent(r: Option<AtomRow>, x: Id, log: seq<Event>)
    requires RowWellFormed(r, x, log)
    ensures RowReplay(r, x, log).None? ==> r.None?
  {
    RowKeptFrom(r, x, log, 0, |log|);
    assert log[..0] == [] && log[..|log|] == log;
  }

  lemma InStepStart(r: Option<AtomRow>, x: Id, log: seq<Event>)
    requires RowReplay(r, x, log).None? ==> r.None?
    ensures var final := RowReplay(r, x, log); InStep(final, RowReplay(r, x, []), RowReplay(final, x, []), [], x)
  {
    hide RowStep;
  }

  lemma {:induction false} RowRedelivery(r: Option<AtomRow>, x: Id, log: seq<Event>)
    requires RowWellFormed(r, x, log)
    ensures RowReplay(RowReplay(r, x, log), x, log) == RowReplay(r, x, log)
  {
    hide RowReplay, Creates, WrittenKeys, WritesValue, RowWellFormed;
    var final := RowReplay(r, x, log);
    SecondPass(r, x, log, |log|);
    assert log[..|log|] == log;
    if final.Some? && !Creates(log, x) {
      SameLookups(RowReplay(final, x, log).value.metadata, final.value.metadata);
    }
  }

  // ---------- Bonds and activity ----------

  /** The state already holds everything the event asks of bonds, of deletions and of the activity list. */
  predicate Absorbed(s: State, e: Event) {
    e.branch.Some? ||
    (e.id in s.activity &&
     match e.body
     case AsteroidSoftDeleted => Exists(s, e.scope, e.entity) && s.atoms[e.entity].isDeleted
     case BondFormed(_, _, _) => e.entity in s.bonds
     case BondSoftDeleted => e.entity in s.bonds && s.bonds[e.entity].isDeleted
     case _ => true)
  }

  lemma AbsorbedByApply(s: State, e: Event)
    requires Admissible(s, e)
    ensures Absorbed(Apply(s, e), e)
  {
    hide MergeMetadata, EffectivePatch, EffectiveRemove, DeleteTouching;
    ProjectKeepsActivity(s, e);
  }

  lemma AbsorbedStays(s: State, t: State, e: Event)
    requires Absorbed(s, e) && RowsKept(s, t)
    ensures Absorbed(t, e)
  {
    if e.branch.None? && e.body.AsteroidSoftDeleted? { assert AtomKept(s.atoms[e.entity], t.atoms[e.entity]); }
    if e.branch.None? && e.body.BondSoftDeleted? { assert BondKept(s.bonds[e.entity], t.bonds[e.entity]); }
  }

  lemma {:induction false} LogIsAbsorbed(s: State, log: seq<Event>, i: nat)
    requires WellFormed(s, log) && i < |log|
    ensures Absorbed(Replay(s, log), log[i])
    decreases |log|
  {
    hide Absorbed, Apply, Admissible, RowsKept;
    var init, e := log[..|log| - 1], log[|log| - 1];
    var t := Replay(s, init);
    if i < |init| {
      LogIsAbsorbed(s, init, i);
      ApplyKeepsRows(t, e);
      AbsorbedStays(t, Apply(t, e), log[i]);
    } else {
      AbsorbedByApply(t, e);
    }
  }

  lemma AbsorbedChangesNoBond(s: State, t: State, e: Event)
    requires Consistent(s) && Absorbed(s, e) && t.bonds == s.bonds && t.activity == s.activity
    ensures Apply(t, e).bonds == s.bonds && Apply(t, e).activity == s.activity
  {
    hide MergeMetadata, EffectivePatch, EffectiveRemove, RelationTaken, FlagsAgree, RelationsUnique, DeleteTouching;
    if e.branch.None? && e.body.AsteroidSoftDeleted? {
      NothingTouches(s, e.scope, e.entity, e.at);
    }
    ProjectKeepsActivity(t, e);
  }

  lemma NothingTouches(s: State, scope: Scope, atom: Id, at: Time)
    requires EndpointsActive(s) && Exists(s, scope, atom) && s.atoms[atom].isDeleted
    ensures DeleteTouching(s.bonds, scope, atom, at) == s.bonds
  {
    forall b | b in s.bonds && !s.bonds[b].isDeleted ensures !Touches(s.bonds[b], scope, atom) {
      assert IsActive(s, s.bonds[b].scope, s.bonds[b].source) && IsActive(s, s.bonds[b].scope, s.bonds[b].target);
    }
  }

  lemma {:induction false} ReplayChangesNoBond(s: State, t: State, log: seq<Event>)
    requires Consistent(s) && t.bonds == s.bonds && t.activity == s.activity
    requires forall i :: 0 <= i < |log| ==> Absorbed(s, log[i])
    ensures Replay(t, log).bonds == s.bonds && Replay(t, log).activity == s.activity
  {
    hide Consistent, Absorbed, Apply;
    if log != [] {
      ReplayChangesNoBond(s, t, log[..|log| - 1]);
      AbsorbedChangesNoBond(s, Replay(t, log[..|log| - 1]), log[|log| - 1]);
    }
  }

  // ---------- Main result ----------

  lemma SameRows(s: State, t: State)
    requires forall x :: RowAt(s, x) == RowAt(t, x)
    ensures s.atoms == t.atoms
  {
    forall x ensures (x in s.atoms <==> x in t.atoms) && (x in s.atoms ==> s.atoms[x] == t.atoms[x]) {
      assert RowAt(s, x) == RowAt(t, x);
    }
  }

  lemma {:induction false} WholeLogRedelivery(s: State, log: seq<Event>)
    requires Consistent(s) && WellFormed(s, log)
    ensures Replay(Replay(s, log), log) == Replay(s, log)
  {
    hide Consistent, Replay, WellFormed, RowReplay, RowWellFormed, Absorbed, RowAt;
    var t := Replay(s, log);
    RunsStayConsistent(s, log);
    forall i | 0 <= i < |log| ensures Absorbed(t, log[i]) { LogIsAbsorbed(s, log, i); }
    ReplayChangesNoBond(t, t, log);
    forall x ensures RowAt(Replay(t, log), x) == RowAt(t, x) {
      RowsWellFormed(s, x, log);
      RowOfReplay(s, x, log);
      RowOfReplay(t, x, log);
      RowRedelivery(RowAt(s, x), x, log);
    }
    SameRows(Replay(t, log), t);
  }

  lemma RowsWellFormed(s: State, x: Id, log: seq<Event>)
    requires WellFormed(s, log)
    ensures RowWellFormed(RowAt(s, x), x, log)
  {
    hide RowReplay, RowAdmissible;
    forall i | 0 <= i < |log| ensures RowAdmissible(RowReplay(RowAt(s, x), x, log[..i]), x, log[i]) {
      WellFormedRows(s, x, log, i);
    }
  }

  lemma {:induction false} ReplayAppend(s: State, p: seq<Event>, q: seq<Event>)
    ensures Replay(s, p + q) == Replay(Replay(s, p), q)
    ensures WellFormed(s, p + q) ==> WellFormed(s, p) && WellFormed(Replay(s, p), q)
    decreases |q|
  {
    hide Apply, Admissible;
    if q == [] {
      assert p + q == p;
    } else {
      assert (p + q)[..|p + q| - 1] == p + q[..|q| - 1];
      ReplayAppend(s, p, q[..|q| - 1]);
    }
  }

  /** The suffix matters: delivering an older patch on its own again undoes a newer one. */
  lemma OldEventAloneIsNotHarmless(scope: Scope)
    ensures var create := Event(1, scope, None, 7, 1, AsteroidCreated(JNull, map[]));
            var older := Event(2, scope, None, 7, 2, MetadataUpdated(map["a" := JNum(1.0)], [], true));
            var newer := Event(3, scope, None, 7, 3, MetadataUpdated(map["a" := JNum(2.0)], [], true));
            var s1 := Apply(EMPTY, create);
            var s2 := Apply(s1, older);
            var s3 := Apply(s2, newer);
            Admissible(EMPTY, create) && Admissible(s1, older) && Admissible(s2, newer) && Apply(s3, older) != s3
  {
    var older := Event(2, scope, None, 7, 2, MetadataUpdated(map["a" := JNum(1.0)], [], true));
    var newer := Event(3, scope, None, 7, 3, MetadataUpdated(map["a" := JNum(2.0)], [], true));
    var s2 := Apply(Apply(EMPTY, Event(1, scope, None, 7, 1, AsteroidCreated(JNull, map[]))), older);
    var s3 := Apply(s2, newer);
    assert CleanKeys([]) == {};
    assert s3.atoms[7].metadata["a"] == JNum(2.0);
    assert Apply(s3, older).atoms[7].metadata["a"] == JNum(1.0);
  }

  /** At-least-once delivery: any suffix of a well-formed log may be delivered again. */
  lemma {:induction false} SuffixRedelivery(s: State, absorbed: seq<Event>, again: seq<Event>)
    requires Consistent(s) && WellFormed(s, absorbed + again)
    ensures Replay(Replay(s, absorbed + again), again) == Replay(s, absorbed + again)
  {
    hide Consistent, Replay, WellFormed;
    ReplayAppend(s, absorbed, again);
    RunsStayConsistent(s, absorbed);
    WholeLogRedelivery(Replay(s, absorbed), again);
  }
}
