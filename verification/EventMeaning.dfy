/** What each event of the main timeline does to the tables, said of rows and keys rather than of table updates. */
module EventMeaning {
  import opened Values
  import opened ReadModel

  /** Neither table lost or gained a row, and every row but one reads as before. */
  ghost predicate OnlyAtomRow(s: State, t: State, a: Id) {
    && t.bonds == s.bonds
    && (forall x :: x != a ==> (x in t.atoms <==> x in s.atoms) && (x in s.atoms ==> t.atoms[x] == s.atoms[x]))
  }

  ghost predicate OnlyBondRow(s: State, t: State, b: Id) {
    && t.atoms == s.atoms
    && (forall x :: x != b ==> (x in t.bonds <==> x in s.bonds) && (x in s.bonds ==> t.bonds[x] == s.bonds[x]))
  }

  /** Some removal, trimmed, names the key; blank removals name none. */
  predicate Removed(remove: seq<string>, k: string) {
    k != "" && exists r :: r in remove && Strip(r) == k
  }

  /** Every event is recorded under its id, once. */
  lemma ActivityRecords(s: State, e: Event)
    ensures e.branch.Some? ==> Apply(s, e) == s
    ensures e.branch.None? ==> var t := Apply(s, e);
            && e.id in t.activity && (e.id in s.activity ==> t.activity == s.activity)
            && (e.id !in s.activity ==> t.activity[e.id] == e)
            && forall x :: x != e.id ==> (x in t.activity <==> x in s.activity) && (x in s.activity ==> t.activity[x] == s.activity[x])
  {
    ProjectKeepsActivity(s, e);
  }

  lemma CreatedMeans(s: State, e: Event)
    requires e.branch.None? && e.body.AsteroidCreated?
    ensures var t := Apply(s, e);
            && OnlyAtomRow(s, t, e.entity) && e.entity in t.atoms
            && var row := t.atoms[e.entity];
               && row.scope == e.scope && row.value == e.body.value && row.metadata == e.body.metadata
               && !row.isDeleted && row.deletedAt == None
               && row.createdAt == if e.entity in s.atoms then s.atoms[e.entity].createdAt else e.at
  {
  }

  /** A row of another owner, or none at all, is left alone; so is every row when the payload is not valid. */
  lemma MetadataUpdateMisses(s: State, e: Event)
    requires e.branch.None? && e.body.MetadataUpdated?
    requires !Exists(s, e.scope, e.entity) || !e.body.valid
    ensures Apply(s, e).atoms == s.atoms && Apply(s, e).bonds == s.bonds
  {
    if Exists(s, e.scope, e.entity) {
      var row := s.atoms[e.entity];
      assert MergeMetadata(row.metadata, map[], {}) == row.metadata;
    }
  }

  /** Removed keys are gone, the patch's other keys have its values, all other keys read as before. */
  lemma MetadataUpdateMeans(s: State, e: Event)
    requires e.branch.None? && e.body.MetadataUpdated? && e.body.valid && Exists(s, e.scope, e.entity)
    ensures var t := Apply(s, e);
            && OnlyAtomRow(s, t, e.entity) && e.entity in t.atoms
            && var row, next := s.atoms[e.entity], t.atoms[e.entity];
               && next == row.(metadata := next.metadata)
               && (forall r :: r in e.body.remove && Strip(r) != "" ==> Strip(r) !in next.metadata)
               && (forall k :: k in e.body.patch && !Removed(e.body.remove, k) ==> k in next.metadata && next.metadata[k] == e.body.patch[k])
               && (forall k :: k !in e.body.patch && !Removed(e.body.remove, k) ==>
                     (k in next.metadata <==> k in row.metadata) && (k in row.metadata ==> next.metadata[k] == row.metadata[k]))
  {
    hide Strip;
    forall k ensures k in CleanKeys(e.body.remove) <==> Removed(e.body.remove, k) {}
    forall r | r in e.body.remove && Strip(r) != "" ensures Removed(e.body.remove, Strip(r)) {}
  }

  lemma ValueUpdateMeans(s: State, e: Event)
    requires e.branch.None? && e.body.ValueUpdated?
    ensures var t := Apply(s, e);
            && OnlyAtomRow(s, t, e.entity) && (e.entity in t.atoms <==> e.entity in s.atoms)
            && (e.entity in s.atoms ==>
                  if s.atoms[e.entity].scope == e.scope && !s.atoms[e.entity].isDeleted
                  then t.atoms[e.entity] == s.atoms[e.entity].(value := e.body.newValue)
                  else t.atoms[e.entity] == s.atoms[e.entity])
  {
  }

  /** The row is marked deleted as of the event, and with it exactly the owner's active bonds that have it as an end. */
  lemma AsteroidDeletedMeans(s: State, e: Event)
    requires e.branch.None? && e.body.AsteroidSoftDeleted?
    ensures var t := Apply(s, e);
            && t.atoms.Keys == s.atoms.Keys && t.bonds.Keys == s.bonds.Keys
            && (forall a :: a in s.atoms ==>
                  if a == e.entity && s.atoms[a].scope == e.scope && !s.atoms[a].isDeleted
                  then t.atoms[a] == s.atoms[a].(isDeleted := true, deletedAt := Some(e.at)) else t.atoms[a] == s.atoms[a])
            && (forall b :: b in s.bonds ==>
                  var bond := s.bonds[b];
                  if bond.scope == e.scope && !bond.isDeleted && (bond.source == e.entity || bond.target == e.entity)
                  then t.bonds[b] == bond.(isDeleted := true, deletedAt := Some(e.at)) else t.bonds[b] == bond)
  {
  }

  /** The bond is inserted unless its id is known or an active bond of the same owner, ends and kind is there. */
  lemma BondFormedMeans(s: State, e: Event)
    requires e.branch.None? && e.body.BondFormed?
    ensures var t := Apply(s, e);
            var taken := e.entity in s.bonds
                         || exists b :: b in s.bonds && !s.bonds[b].isDeleted && s.bonds[b].scope == e.scope && s.bonds[b].kind == e.body.kind
                                        && s.bonds[b].source == e.body.source && s.bonds[b].target == e.body.target;
            && OnlyBondRow(s, t, e.entity) && (taken ==> t.bonds == s.bonds)
            && (!taken ==> e.entity in t.bonds && t.bonds[e.entity] == BondRow(e.scope, e.body.source, e.body.target, e.body.kind, false, e.at, None))
  {
  }

  lemma BondDeletedMeans(s: State, e: Event)
    requires e.branch.None? && e.body.BondSoftDeleted?
    ensures var t := Apply(s, e);
            && OnlyBondRow(s, t, e.entity) && (e.entity in t.bonds <==> e.entity in s.bonds)
            && (e.entity in s.bonds ==>
                  if s.bonds[e.entity].scope == e.scope && !s.bonds[e.entity].isDeleted
                  then t.bonds[e.entity] == s.bonds[e.entity].(isDeleted := true, deletedAt := Some(e.at))
                  else t.bonds[e.entity] == s.bonds[e.entity])
  {
  }
}
