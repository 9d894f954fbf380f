/** The projected tables, the events of the log, and what each event does to the tables. */
module ReadModel {
  import opened Values

  type Id = nat
  type Time = nat

  /** A user's galaxy: the unit to which every row and event belongs. */
  datatype Scope = Scope(user: Id, galaxy: Id)

  datatype AtomRow = AtomRow(scope: Scope, value: Json, metadata: Metadata, isDeleted: bool, createdAt: Time, deletedAt: Option<Time>)

  datatype BondRow = BondRow(scope: Scope, source: Id, target: Id, kind: string, isDeleted: bool, createdAt: Time, deletedAt: Option<Time>)

  datatype Body =
    | AsteroidCreated(value: Json, metadata: Metadata)
      /** `valid` tells whether the payload passed validation; if not, it projects as an empty update. */
    | MetadataUpdated(patch: Metadata, remove: seq<string>, valid: bool)
    | ValueUpdated(newValue: Json)
    | AsteroidSoftDeleted
    | BondFormed(source: Id, target: Id, kind: string)
    | BondSoftDeleted
      /** Any other event type, or a payload that cannot be projected. */
    | Unprojected

  datatype Event = Event(id: Id, scope: Scope, branch: Option<Id>, entity: Id, at: Time, body: Body)

  datatype State = State(atoms: map<Id, AtomRow>, bonds: map<Id, BondRow>, activity: map<Id, Event>)

  const EMPTY: State := State(map[], map[], map[])

  // ---------- Row updates ----------

  /** The trimmed, non-blank keys to remove. */
  function CleanKeys(remove: seq<string>): set<string> {
    set k | k in remove && Strip(k) != "" :: Strip(k)
  }

  function EffectivePatch(body: Body): Metadata
    requires body.MetadataUpdated?
  {
    if body.valid then body.patch else map[]
  }

  function EffectiveRemove(body: Body): set<string>
    requires body.MetadataUpdated?
  {
    if body.valid then CleanKeys(body.remove) else {}
  }

  function MergeMetadata(current: Metadata, patch: Metadata, remove: set<string>): Metadata {
    (current + patch) - remove
  }

  function CreateAtom(s: State, e: Event): State
    requires e.body.AsteroidCreated?
  {
    var createdAt := if e.entity in s.atoms then s.atoms[e.entity].createdAt else e.at;
    s.(atoms := s.atoms[e.entity := AtomRow(e.scope, e.body.value, e.body.metadata, false, createdAt, None)])
  }

  function UpdateMetadata(s: State, e: Event): State
    requires e.body.MetadataUpdated?
  {
    if e.entity in s.atoms && s.atoms[e.entity].scope == e.scope then
      var row := s.atoms[e.entity];
      s.(atoms := s.atoms[e.entity := row.(metadata := MergeMetadata(row.metadata, EffectivePatch(e.body), EffectiveRemove(e.body)))])
    else s
  }

  function UpdateValue(s: State, e: Event): State
    requires e.body.ValueUpdated?
  {
    if e.entity in s.atoms && s.atoms[e.entity].scope == e.scope && !s.atoms[e.entity].isDeleted then
      s.(atoms := s.atoms[e.entity := s.atoms[e.entity].(value := e.body.newValue)])
    else s
  }

  predicate Touches(b: BondRow, scope: Scope, atom: Id) {
    b.scope == scope && (b.source == atom || b.target == atom)
  }

  function DeleteTouching(bonds: map<Id, BondRow>, scope: Scope, atom: Id, at: Time): map<Id, BondRow> {
    map b | b in bonds ::
      if !bonds[b].isDeleted && Touches(bonds[b], scope, atom) then bonds[b].(isDeleted := true, deletedAt := Some(at))
      else bonds[b]
  }

  function DeleteAtom(s: State, e: Event): State {
    var atoms := if e.entity in s.atoms && s.atoms[e.entity].scope == e.scope && !s.atoms[e.entity].isDeleted
                 then s.atoms[e.entity := s.atoms[e.entity].(isDeleted := true, deletedAt := Some(e.at))] else s.atoms;
    s.(atoms := atoms, bonds := DeleteTouching(s.bonds, e.scope, e.entity, e.at))
  }

  predicate SameRelation(b: BondRow, scope: Scope, source: Id, target: Id, kind: string) {
    b.scope == scope && b.source == source && b.target == target && b.kind == kind
  }

  /** The unique index over active relations is occupied. */
  predicate RelationTaken(bonds: map<Id, BondRow>, scope: Scope, source: Id, target: Id, kind: string) {
    exists b :: b in bonds && !bonds[b].isDeleted && SameRelation(bonds[b], scope, source, target, kind)
  }

  function FormBond(s: State, e: Event): State
    requires e.body.BondFormed?
  {
    var body := e.body;
    if e.entity in s.bonds || RelationTaken(s.bonds, e.scope, body.source, body.target, body.kind) then s
    else s.(bonds := s.bonds[e.entity := BondRow(e.scope, body.source, body.target, body.kind, false, e.at, None)])
  }

  function DeleteBond(s: State, e: Event): State {
    if e.entity in s.bonds && s.bonds[e.entity].scope == e.scope && !s.bonds[e.entity].isDeleted then
      s.(bonds := s.bonds[e.entity := s.bonds[e.entity].(isDeleted := true, deletedAt := Some(e.at))])
    else s
  }

  function Project(s: State, e: Event): State {
    match e.body
    case AsteroidCreated(_, _) => CreateAtom(s, e)
    case MetadataUpdated(_, _, _) => UpdateMetadata(s, e)
    case ValueUpdated(_) => UpdateValue(s, e)
    case AsteroidSoftDeleted => DeleteAtom(s, e)
    case BondFormed(_, _, _) => FormBond(s, e)
    case BondSoftDeleted => DeleteBond(s, e)
    case Unprojected => s
  }

  function RecordActivity(activity: map<Id, Event>, e: Event): map<Id, Event> {
    if e.id in activity then activity else activity[e.id := e]
  }

  /** Events on branches are replayed on read and leave the shared tables alone. */
  function Apply(s: State, e: Event): State {
    if e.branch.Some? then s else
      var p := Project(s, e);
      p.(activity := RecordActivity(p.activity, e))
  }

  function Replay(s: State, log: seq<Event>): State {
    if log == [] then s else Apply(Replay(s, log[..|log| - 1]), log[|log| - 1])
  }

  // ---------- Well-formed logs ----------

  predicate IsActive(s: State, scope: Scope, atom: Id) {
    atom in s.atoms && s.atoms[atom].scope == scope && !s.atoms[atom].isDeleted
  }

  predicate Exists(s: State, scope: Scope, atom: Id) {
    atom in s.atoms && s.atoms[atom].scope == scope
  }

  /** The event may be appended in the state the log so far has led to. */
  predicate Admissible(s: State, e: Event) {
    e.branch.Some? ||
    match e.body
    case AsteroidCreated(_, _) => e.entity !in s.atoms
    case MetadataUpdated(_, _, _) => Exists(s, e.scope, e.entity)
    case ValueUpdated(_) => Exists(s, e.scope, e.entity)
    case AsteroidSoftDeleted => Exists(s, e.scope, e.entity)
    case BondFormed(source, target, kind) =>
      && e.entity !in s.bonds && source != target
      && IsActive(s, e.scope, source) && IsActive(s, e.scope, target)
      && !RelationTaken(s.bonds, e.scope, source, target, kind)
    case BondSoftDeleted => e.entity in s.bonds && s.bonds[e.entity].scope == e.scope
    case Unprojected => true
  }

  predicate WellFormed(s: State, log: seq<Event>) {
    log == [] ||
    (WellFormed(s, log[..|log| - 1]) && Admissible(Replay(s, log[..|log| - 1]), log[|log| - 1]))
  }

  // ---------- Invariants ----------

  /** The soft-delete flag and its timestamp agree. */
  predicate AtomFlagsAgree(atoms: map<Id, AtomRow>) {
    forall a :: a in atoms ==> (atoms[a].isDeleted <==> atoms[a].deletedAt.Some?)
  }

  predicate BondFlagsAgree(bonds: map<Id, BondRow>) {
    forall b :: b in bonds ==> (bonds[b].isDeleted <==> bonds[b].deletedAt.Some?)
  }

  predicate FlagsAgree(s: State) {
    AtomFlagsAgree(s.atoms) && BondFlagsAgree(s.bonds)
  }

  predicate Clash(a: BondRow, b: BondRow) {
    !a.isDeleted && !b.isDeleted && SameRelation(a, b.scope, b.source, b.target, b.kind)
  }

  predicate RelationsUnique(s: State) {
    forall a, b :: a in s.bonds && b in s.bonds && a != b ==> !Clash(s.bonds[a], s.bonds[b])
  }

  predicate EndpointsActive(s: State) {
    forall b :: b in s.bonds && !s.bonds[b].isDeleted ==>
      && s.bonds[b].source != s.bonds[b].target
      && IsActive(s, s.bonds[b].scope, s.bonds[b].source)
      && IsActive(s, s.bonds[b].scope, s.bonds[b].target)
  }

  predicate Consistent(s: State) {
    FlagsAgree(s) && RelationsUnique(s) && EndpointsActive(s)
  }

  /** An atom keeps its owner and creation time, and once deleted it stays deleted as of then. */
  predicate AtomKept(a: AtomRow, b: AtomRow) {
    && b.scope == a.scope && b.createdAt == a.createdAt
    && (a.isDeleted ==> b.isDeleted && b.deletedAt == a.deletedAt)
  }

  /** A bond keeps everything but its deletion, which is final. */
  predicate BondKept(a: BondRow, b: BondRow) {
    b == a || (!a.isDeleted && b == a.(isDeleted := true, deletedAt := b.deletedAt))
  }

  predicate AtomsKept(s: map<Id, AtomRow>, t: map<Id, AtomRow>) {
    forall a :: a in s ==> a in t && AtomKept(s[a], t[a])
  }

  predicate BondsKept(s: map<Id, BondRow>, t: map<Id, BondRow>) {
    forall b :: b in s ==> b in t && BondKept(s[b], t[b])
  }

  predicate ActivityKept(s: map<Id, Event>, t: map<Id, Event>) {
    forall i :: i in s ==> i in t && t[i] == s[i]
  }

  /** No row disappears. */
  predicate RowsKept(s: State, t: State) {
    AtomsKept(s.atoms, t.atoms) && BondsKept(s.bonds, t.bonds) && ActivityKept(s.activity, t.activity)
  }

  lemma ApplyKeepsAtoms(s: State, e: Event)
    requires Admissible(s, e)
    ensures AtomsKept(s.atoms, Apply(s, e).atoms)
  {
    hide MergeMetadata, EffectivePatch, EffectiveRemove, RelationTaken, IsActive, DeleteTouching;
  }

  lemma ApplyKeepsBonds(s: State, e: Event)
    ensures BondsKept(s.bonds, Apply(s, e).bonds)
  {
    hide MergeMetadata, EffectivePatch, EffectiveRemove, RelationTaken, IsActive, Touches;
  }

  lemma ApplyKeepsRows(s: State, e: Event)
    requires Admissible(s, e)
    ensures RowsKept(s, Apply(s, e))
  {
    ApplyKeepsAtoms(s, e);
    ApplyKeepsBonds(s, e);
    hide Project, AtomsKept, BondsKept;
    assert Apply(s, e).activity == s.activity || Apply(s, e).activity == RecordActivity(s.activity, e) by {
      ProjectKeepsActivity(s, e);
    }
  }

  lemma ProjectKeepsActivity(s: State, e: Event)
    ensures Project(s, e).activity == s.activity
  {
    hide MergeMetadata, RelationTaken, DeleteTouching;
  }

  lemma RowsKeptTrans(s: State, t: State, u: State)
    requires RowsKept(s, t) && RowsKept(t, u)
    ensures RowsKept(s, u)
  {
  }

  lemma AtomFlagsStay(s: State, e: Event)
    requires AtomFlagsAgree(s.atoms)
    ensures AtomFlagsAgree(Apply(s, e).atoms)
  {
    hide MergeMetadata, EffectivePatch, EffectiveRemove, RelationTaken, DeleteTouching;
  }

  lemma BondFlagsStay(s: State, e: Event)
    requires BondFlagsAgree(s.bonds)
    ensures BondFlagsAgree(Apply(s, e).bonds)
  {
    hide MergeMetadata, EffectivePatch, EffectiveRemove, RelationTaken, Touches;
  }

  lemma ApplyKeepsFlags(s: State, e: Event)
    requires FlagsAgree(s)
    ensures FlagsAgree(Apply(s, e))
  {
    hide Apply, AtomFlagsAgree, BondFlagsAgree;
    AtomFlagsStay(s, e);
    BondFlagsStay(s, e);
  }

  lemma ApplyKeepsRelations(s: State, e: Event)
    requires RelationsUnique(s)
    ensures RelationsUnique(Apply(s, e))
  {
    hide MergeMetadata, EffectivePatch, EffectiveRemove, Touches;
    var t := Apply(s, e);
    forall a, b | a in t.bonds && b in t.bonds && a != b ensures !Clash(t.bonds[a], t.bonds[b]) {
      if a in s.bonds && b in s.bonds {
        assert !Clash(s.bonds[a], s.bonds[b]);
      }
    }
  }

  lemma ApplyKeepsEndpoints(s: State, e: Event)
    requires EndpointsActive(s) && Admissible(s, e)
    ensures EndpointsActive(Apply(s, e))
  {
    hide MergeMetadata, EffectivePatch, EffectiveRemove, RelationTaken;
    var t := Apply(s, e);
    forall b | b in t.bonds && !t.bonds[b].isDeleted
      ensures t.bonds[b].source != t.bonds[b].target
      ensures IsActive(t, t.bonds[b].scope, t.bonds[b].source) && IsActive(t, t.bonds[b].scope, t.bonds[b].target)
    {
      if b in s.bonds { assert t.bonds[b] == s.bonds[b]; }
    }
  }

  /** On every run over a well-formed log the tables stay consistent and no row disappears. */
  lemma {:induction false} RunsStayConsistent(s: State, log: seq<Event>)
    requires Consistent(s) && WellFormed(s, log)
    ensures Consistent(Replay(s, log)) && RowsKept(s, Replay(s, log))
  {
    hide Apply, Admissible, FlagsAgree, RelationsUnique, EndpointsActive, RowsKept;
    if log == [] {
      RowsKeptRefl(s);
    } else {
      var init, e := log[..|log| - 1], log[|log| - 1];
      RunsStayConsistent(s, init);
      var t := Replay(s, init);
      ApplyKeepsFlags(t, e);
      ApplyKeepsRelations(t, e);
      ApplyKeepsEndpoints(t, e);
      ApplyKeepsRows(t, e);
      RowsKeptTrans(s, t, Apply(t, e));
    }
  }

  lemma RowsKeptRefl(s: State)
    ensures RowsKept(s, s)
  {
  }

  lemma EmptyIsConsistent()
    ensures Consistent(EMPTY)
  {
  }

  /** Replaying a log from the empty tables is consistent at every point, and no row is lost from there to the end. */
  lemma {:induction false} HistoryStaysConsistent(log: seq<Event>, i: nat)
    requires WellFormed(EMPTY, log) && i <= |log|
    ensures Consistent(Replay(EMPTY, log[..i])) && RowsKept(Replay(EMPTY, log[..i]), Replay(EMPTY, log))
  {
    hide Apply, Admissible, Consistent, RowsKept;
    if i == |log| {
      assert log[..i] == log;
      EmptyIsConsistent();
      RunsStayConsistent(EMPTY, log);
      RowsKeptRefl(Replay(EMPTY, log));
    } else {
      var init, e := log[..|log| - 1], log[|log| - 1];
      assert log[..i] == init[..i];
      HistoryStaysConsistent(init, i);
      ApplyKeepsRows(Replay(EMPTY, init), e);
      RowsKeptTrans(Replay(EMPTY, log[..i]), Replay(EMPTY, init), Replay(EMPTY, log));
    }
  }
}
