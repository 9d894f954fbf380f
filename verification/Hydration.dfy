/**
 The executor's working context: a partially loaded one that is completed on demand, against one
 that starts from the whole snapshot.
 */
module Hydration {
  import opened Values

  type Id = nat

  datatype Asteroid = Asteroid(value: Json, metadata: Metadata)

  datatype Bond = Bond(source: Id, target: Id, kind: string)

  /** The active rows of a galaxy as the read model holds them. */
  datatype Snapshot = Snapshot(asteroids: map<Id, Asteroid>, bonds: map<Id, Bond>)

  /** The two maps of the context and the ids it has recorded as extinguished. */
  datatype Context = Context(asteroids: map<Id, Asteroid>, bonds: map<Id, Bond>, goneAsteroids: set<Id>, goneBonds: set<Id>)

  datatype Op =
    | PutAsteroid(id: Id, asteroid: Asteroid)
    | PutBond(id: Id, bond: Bond)
    | ExtinguishBond(id: Id)
    | ExtinguishAsteroids(ids: seq<Id>)

  function Closed(bonds: map<Id, Bond>, asteroids: map<Id, Asteroid>): map<Id, Bond> {
    map b | b in bonds && bonds[b].source in asteroids && bonds[b].target in asteroids :: bonds[b]
  }

  function Touching(bonds: map<Id, Bond>, asteroid: Id): set<Id> {
    set b | b in bonds && (bonds[b].source == asteroid || bonds[b].target == asteroid)
  }

  /** One asteroid leaves together with the held bonds that touch it. */
  function ExtinguishOne(ctx: Context, id: Id): Context {
    var touching := Touching(ctx.bonds, id);
    Context(ctx.asteroids - {id}, ctx.bonds - touching, ctx.goneAsteroids + {id}, ctx.goneBonds + touching)
  }

  function ExtinguishEach(ctx: Context, ids: seq<Id>): Context {
    if ids == [] then ctx else ExtinguishOne(ExtinguishEach(ctx, ids[..|ids| - 1]), ids[|ids| - 1])
  }

  function Apply(ctx: Context, op: Op): Context {
    match op
    case PutAsteroid(id, asteroid) => ctx.(asteroids := ctx.asteroids[id := asteroid])
    case PutBond(id, bond) => ctx.(bonds := ctx.bonds[id := bond])
    case ExtinguishBond(id) => ctx.(bonds := ctx.bonds - {id}, goneBonds := ctx.goneBonds + {id})
    case ExtinguishAsteroids(ids) =>
      var next := ExtinguishEach(ctx, ids);
      next.(bonds := Closed(next.bonds, next.asteroids))
  }

  function Run(ctx: Context, ops: seq<Op>): Context {
    if ops == [] then ctx else Apply(Run(ctx, ops[..|ops| - 1]), ops[|ops| - 1])
  }

  function Fresh(s: Snapshot): Context {
    Context(s.asteroids, s.bonds, {}, {})
  }

  /** Completing a context from the snapshot: held rows win, recorded ids stay out, bonds need both endpoints. */
  function Hydrate(s: Snapshot, ctx: Context): Context {
    var asteroids := s.asteroids + ctx.asteroids - ctx.goneAsteroids;
    ctx.(asteroids := asteroids, bonds := Closed(s.bonds + ctx.bonds - ctx.goneBonds, asteroids))
  }

  /** Row by row: held rows win, the snapshot's come in, what is recorded gone stays out, and a bond needs both its ends. */
  lemma HydrateMeans(s: Snapshot, ctx: Context, x: Id)
    ensures var h := Hydrate(s, ctx);
            && h.goneAsteroids == ctx.goneAsteroids && h.goneBonds == ctx.goneBonds
            && (x in h.asteroids <==> x !in ctx.goneAsteroids && (x in s.asteroids || x in ctx.asteroids))
            && (x in h.asteroids ==> h.asteroids[x] == if x in ctx.asteroids then ctx.asteroids[x] else s.asteroids[x])
            && (x in h.bonds ==> x !in ctx.goneBonds && h.bonds[x].source in h.asteroids && h.bonds[x].target in h.asteroids)
            && (x in h.bonds ==> if x in ctx.bonds then h.bonds[x] == ctx.bonds[x] else x in s.bonds && h.bonds[x] == s.bonds[x])
            && (x !in ctx.goneBonds && (x in ctx.bonds || x in s.bonds) ==>
                  var b := if x in ctx.bonds then ctx.bonds[x] else s.bonds[x];
                  b.source in h.asteroids && b.target in h.asteroids ==> x in h.bonds)
  {
  }

  /** Putting and extinguishing by id touch that id alone. */
  lemma OpsMean(ctx: Context, id: Id, asteroid: Asteroid, bond: Bond, x: Id)
    ensures var put := Apply(ctx, PutAsteroid(id, asteroid));
            && put.bonds == ctx.bonds && put.goneAsteroids == ctx.goneAsteroids && put.goneBonds == ctx.goneBonds
            && (x in put.asteroids <==> x == id || x in ctx.asteroids)
            && (x in put.asteroids ==> put.asteroids[x] == if x == id then asteroid else ctx.asteroids[x])
    ensures var put := Apply(ctx, PutBond(id, bond));
            && put.asteroids == ctx.asteroids && put.goneAsteroids == ctx.goneAsteroids && put.goneBonds == ctx.goneBonds
            && (x in put.bonds <==> x == id || x in ctx.bonds)
            && (x in put.bonds ==> put.bonds[x] == if x == id then bond else ctx.bonds[x])
    ensures var gone := Apply(ctx, ExtinguishBond(id));
            && gone.asteroids == ctx.asteroids && gone.goneAsteroids == ctx.goneAsteroids
            && (x in gone.bonds <==> x != id && x in ctx.bonds) && (x in gone.bonds ==> gone.bonds[x] == ctx.bonds[x])
            && (x in gone.goneBonds <==> x == id || x in ctx.goneBonds)
  {
  }

  // ---------- What the handlers guarantee ----------

  predicate Part(s: Snapshot, ctx: Context) {
    && (forall a :: a in ctx.asteroids ==> a in s.asteroids && s.asteroids[a] == ctx.asteroids[a])
    && (forall b :: b in ctx.bonds ==> b in s.bonds && s.bonds[b] == ctx.bonds[b])
    && ctx.goneAsteroids == {} && ctx.goneBonds == {}
  }

  predicate WellFormed(s: Snapshot) {
    forall b :: b in s.bonds ==> s.bonds[b].source in s.asteroids && s.bonds[b].target in s.asteroids
  }

  /** A bond is only put while the context holds both of its endpoints. */
  predicate EndpointsHeld(ctx: Context, op: Op) {
    op.PutBond? ==> op.bond.source in ctx.asteroids && op.bond.target in ctx.asteroids
  }

  predicate Handled(ctx: Context, ops: seq<Op>) {
    forall i :: 0 <= i < |ops| ==> EndpointsHeld(Run(ctx, ops[..i]), ops[i])
  }

  // ---------- Lazy against eager ----------

  /** A lazily held asteroid is eagerly held; any other eager one is the snapshot's; the rest are gone. */
  predicate AsteroidOk(s: Snapshot, lazy: Context, eager: Context, a: Id) {
    && (a in lazy.asteroids ==> a in eager.asteroids && eager.asteroids[a] == lazy.asteroids[a])
    && (a in eager.asteroids && a !in lazy.asteroids ==> a in s.asteroids && s.asteroids[a] == eager.asteroids[a])
    && (a in s.asteroids && a !in eager.asteroids ==> a in lazy.goneAsteroids)
  }

  predicate HasEndpoints(bond: Bond, asteroids: map<Id, Asteroid>) {
    bond.source in asteroids && bond.target in asteroids
  }

  predicate EndpointGone(bond: Bond, gone: set<Id>) {
    bond.source in gone || bond.target in gone
  }

  predicate FromSnapshot(s: Snapshot, b: Id, bond: Bond) {
    b in s.bonds && s.bonds[b] == bond
  }

  /** The same for bonds; a held bond that is not the snapshot's has its endpoints held. */
  predicate BondOk(s: Snapshot, lazy: Context, eager: Context, b: Id) {
    && (b in eager.bonds ==> HasEndpoints(eager.bonds[b], eager.asteroids))
    && (b in lazy.bonds ==> b in eager.bonds && eager.bonds[b] == lazy.bonds[b])
    && (b in lazy.bonds ==> HasEndpoints(lazy.bonds[b], lazy.asteroids) || FromSnapshot(s, b, lazy.bonds[b]))
    && (b in eager.bonds && b !in lazy.bonds ==> FromSnapshot(s, b, eager.bonds[b]))
    && (b in s.bonds && b !in eager.bonds ==> b in lazy.goneBonds || EndpointGone(s.bonds[b], lazy.goneAsteroids))
  }

  /** What the eager context holds although the lazy one has recorded it gone came back by a put, so both hold it. */
  predicate ReturnOk(lazy: Context, eager: Context, x: Id) {
    && (x in eager.asteroids && x in lazy.goneAsteroids ==> x in lazy.asteroids)
    && (x in eager.bonds && x in lazy.goneBonds ==> x in lazy.bonds)
    && (x in lazy.bonds && x in lazy.goneBonds ==> HasEndpoints(lazy.bonds[x], lazy.asteroids))
  }

  ghost predicate Related(s: Snapshot, lazy: Context, eager: Context) {
    && lazy.goneAsteroids == eager.goneAsteroids
    && (forall a :: AsteroidOk(s, lazy, eager, a))
    && (forall b :: BondOk(s, lazy, eager, b))
    && (forall x :: ReturnOk(lazy, eager, x))
  }

  lemma StartRelated(s: Snapshot, lazy: Context)
    requires WellFormed(s) && Part(s, lazy)
    ensures Related(s, lazy, Fresh(s))
  {
  }

  /** Operations act on each id by itself. */
  lemma PutAsteroidAt(s: Snapshot, lazy: Context, eager: Context, op: Op, x: Id)
    requires op.PutAsteroid?
    ensures AsteroidOk(s, lazy, eager, x) ==> AsteroidOk(s, Apply(lazy, op), Apply(eager, op), x)
    ensures BondOk(s, lazy, eager, x) ==> BondOk(s, Apply(lazy, op), Apply(eager, op), x)
    ensures BondOk(s, lazy, eager, x) && ReturnOk(lazy, eager, x) ==> ReturnOk(Apply(lazy, op), Apply(eager, op), x)
  {
  }

  lemma PutBondAt(s: Snapshot, lazy: Context, eager: Context, op: Op, x: Id)
    requires op.PutBond? && HasEndpoints(op.bond, lazy.asteroids) && HasEndpoints(op.bond, eager.asteroids)
    ensures AsteroidOk(s, lazy, eager, x) ==> AsteroidOk(s, Apply(lazy, op), Apply(eager, op), x)
    ensures BondOk(s, lazy, eager, x) ==> BondOk(s, Apply(lazy, op), Apply(eager, op), x)
    ensures BondOk(s, lazy, eager, x) && ReturnOk(lazy, eager, x) ==> ReturnOk(Apply(lazy, op), Apply(eager, op), x)
  {
  }

  lemma ExtinguishBondAt(s: Snapshot, lazy: Context, eager: Context, id: Id, x: Id)
    ensures AsteroidOk(s, lazy, eager, x) ==> AsteroidOk(s, Apply(lazy, ExtinguishBond(id)), Apply(eager, ExtinguishBond(id)), x)
    ensures BondOk(s, lazy, eager, x) ==> BondOk(s, Apply(lazy, ExtinguishBond(id)), Apply(eager, ExtinguishBond(id)), x)
    ensures BondOk(s, lazy, eager, x) && ReturnOk(lazy, eager, x) ==> ReturnOk(Apply(lazy, ExtinguishBond(id)), Apply(eager, ExtinguishBond(id)), x)
  {
  }

  lemma ExtinguishOneAt(s: Snapshot, lazy: Context, eager: Context, id: Id, x: Id)
    ensures AsteroidOk(s, lazy, eager, x) ==> AsteroidOk(s, ExtinguishOne(lazy, id), ExtinguishOne(eager, id), x)
    ensures BondOk(s, lazy, eager, x) ==> BondOk(s, ExtinguishOne(lazy, id), ExtinguishOne(eager, id), x)
    ensures BondOk(s, lazy, eager, x) && ReturnOk(lazy, eager, x) ==> ReturnOk(ExtinguishOne(lazy, id), ExtinguishOne(eager, id), x)
  {
  }

  /** The lazy context may drop bonds whose endpoints are merely not loaded; the snapshot still has them. */
  lemma FilterAt(s: Snapshot, lazy: Context, eager: Context, x: Id)
    ensures AsteroidOk(s, lazy, eager, x) ==>
              AsteroidOk(s, lazy.(bonds := Closed(lazy.bonds, lazy.asteroids)), eager.(bonds := Closed(eager.bonds, eager.asteroids)), x)
    ensures BondOk(s, lazy, eager, x) ==>
              BondOk(s, lazy.(bonds := Closed(lazy.bonds, lazy.asteroids)), eager.(bonds := Closed(eager.bonds, eager.asteroids)), x)
    ensures BondOk(s, lazy, eager, x) && ReturnOk(lazy, eager, x) ==>
              ReturnOk(lazy.(bonds := Closed(lazy.bonds, lazy.asteroids)), eager.(bonds := Closed(eager.bonds, eager.asteroids)), x)
  {
  }

  lemma PutBondKeeps(s: Snapshot, lazy: Context, eager: Context, op: Op)
    requires Related(s, lazy, eager) && op.PutBond? && EndpointsHeld(lazy, op)
    ensures Related(s, Apply(lazy, op), Apply(eager, op))
  {
    hide BondOk;
    assert AsteroidOk(s, lazy, eager, op.bond.source) && AsteroidOk(s, lazy, eager, op.bond.target);
    hide AsteroidOk, ReturnOk;
    forall x { PutBondAt(s, lazy, eager, op, x); }
  }

  lemma ExtinguishOneKeeps(s: Snapshot, lazy: Context, eager: Context, id: Id)
    requires Related(s, lazy, eager)
    ensures Related(s, ExtinguishOne(lazy, id), ExtinguishOne(eager, id))
  {
    hide AsteroidOk, BondOk, ReturnOk;
    forall x { ExtinguishOneAt(s, lazy, eager, id, x); }
  }

  lemma {:induction false} ExtinguishEachKeeps(s: Snapshot, lazy: Context, eager: Context, ids: seq<Id>)
    requires Related(s, lazy, eager)
    ensures Related(s, ExtinguishEach(lazy, ids), ExtinguishEach(eager, ids))
    decreases |ids|
  {
    hide Related, ExtinguishOne;
    if ids != [] {
      ExtinguishEachKeeps(s, lazy, eager, ids[..|ids| - 1]);
      ExtinguishOneKeeps(s, ExtinguishEach(lazy, ids[..|ids| - 1]), ExtinguishEach(eager, ids[..|ids| - 1]), ids[|ids| - 1]);
    }
  }

  lemma FilterKeeps(s: Snapshot, lazy: Context, eager: Context)
    requires Related(s, lazy, eager)
    ensures Related(s, lazy.(bonds := Closed(lazy.bonds, lazy.asteroids)), eager.(bonds := Closed(eager.bonds, eager.asteroids)))
  {
    hide AsteroidOk, BondOk, ReturnOk, Closed;
    forall x { FilterAt(s, lazy, eager, x); }
  }

  lemma {:induction false} OpKeeps(s: Snapshot, lazy: Context, eager: Context, op: Op)
    requires Related(s, lazy, eager) && EndpointsHeld(lazy, op)
    ensures Related(s, Apply(lazy, op), Apply(eager, op))
  {
    hide AsteroidOk, BondOk, ReturnOk;
    match op {
      case PutAsteroid(_, _) => forall x { PutAsteroidAt(s, lazy, eager, op, x); }
      case PutBond(_, _) => PutBondKeeps(s, lazy, eager, op);
      case ExtinguishBond(id) => forall x { ExtinguishBondAt(s, lazy, eager, id, x); }
      case ExtinguishAsteroids(ids) =>
        ExtinguishEachKeeps(s, lazy, eager, ids);
        FilterKeeps(s, ExtinguishEach(lazy, ids), ExtinguishEach(eager, ids));
    }
  }

  lemma {:induction false} RunsStayRelated(s: Snapshot, lazy: Context, eager: Context, ops: seq<Op>)
    requires Related(s, lazy, eager) && Handled(lazy, ops)
    ensures Related(s, Run(lazy, ops), Run(eager, ops))
    decreases |ops|
  {
    hide Related, Apply, EndpointsHeld;
    if ops != [] {
      var last := |ops| - 1;
      forall i | 0 <= i < last ensures EndpointsHeld(Run(lazy, ops[..last][..i]), ops[..last][i]) {
        assert ops[..last][..i] == ops[..i];
      }
      RunsStayRelated(s, lazy, eager, ops[..last]);
      OpKeeps(s, Run(lazy, ops[..last]), Run(eager, ops[..last]), ops[last]);
    }
  }

  // ---------- Main results ----------

  predicate SameMaps(a: Context, b: Context) {
    a.asteroids == b.asteroids && a.bonds == b.bonds
  }

  /** Nothing the context has recorded as extinguished is held. */
  predicate Apart(ctx: Context) {
    ctx.asteroids.Keys !! ctx.goneAsteroids && ctx.bonds.Keys !! ctx.goneBonds
  }

  /** The eager context then holds nothing the lazy one has recorded either. */
  lemma ApartInBoth(s: Snapshot, lazy: Context, eager: Context)
    requires Related(s, lazy, eager) && Apart(lazy)
    ensures eager.asteroids.Keys !! lazy.goneAsteroids && eager.bonds.Keys !! lazy.goneBonds
  {
    hide AsteroidOk, BondOk;
    forall x | x in lazy.goneAsteroids ensures x !in eager.asteroids { assert ReturnOk(lazy, eager, x); }
    forall x | x in lazy.goneBonds ensures x !in eager.bonds { assert ReturnOk(lazy, eager, x); }
  }

  lemma HydratedAsteroids(s: Snapshot, lazy: Context, eager: Context)
    requires Related(s, lazy, eager) && eager.asteroids.Keys !! lazy.goneAsteroids
    ensures Hydrate(s, lazy).asteroids == eager.asteroids
  {
    hide BondOk, ReturnOk, Closed;
    var h := Hydrate(s, lazy);
    forall a ensures (a in h.asteroids <==> a in eager.asteroids) && (a in h.asteroids ==> h.asteroids[a] == eager.asteroids[a]) {
      assert AsteroidOk(s, lazy, eager, a);
    }
  }

  lemma HydratedBonds(s: Snapshot, lazy: Context, eager: Context)
    requires Related(s, lazy, eager) && eager.asteroids.Keys !! lazy.goneAsteroids && eager.bonds.Keys !! lazy.goneBonds
    ensures Hydrate(s, lazy).bonds == eager.bonds
  {
    hide AsteroidOk, ReturnOk;
    HydratedAsteroids(s, lazy, eager);
    var h := Hydrate(s, lazy);
    forall b ensures (b in h.bonds <==> b in eager.bonds) && (b in h.bonds ==> h.bonds[b] == eager.bonds[b]) {
      assert BondOk(s, lazy, eager, b);
    }
  }

  lemma SameMapsMeanApart(s: Snapshot, lazy: Context, eager: Context)
    requires Related(s, lazy, eager) && SameMaps(Hydrate(s, lazy), eager)
    ensures Apart(lazy)
  {
    hide ReturnOk, Closed;
    forall x | x in lazy.goneAsteroids ensures x !in lazy.asteroids { assert AsteroidOk(s, lazy, eager, x); }
    forall x | x in lazy.goneBonds ensures x !in lazy.bonds {
      assert BondOk(s, lazy, eager, x);
      assert x !in Hydrate(s, lazy).bonds by { GoneStaysOut(s, lazy, x); }
    }
  }

  lemma GoneStaysOut(s: Snapshot, ctx: Context, b: Id)
    requires b in ctx.goneBonds
    ensures b !in Hydrate(s, ctx).bonds
  {
  }

  /**
   Hydrating the partial context gives the maps of the context that started from the whole snapshot
   iff the partial one holds nothing it has recorded as extinguished.
   */
  lemma {:induction false} LazyEqualsEagerIff(s: Snapshot, lazy: Context, ops: seq<Op>)
    requires WellFormed(s) && Part(s, lazy) && Handled(lazy, ops)
    ensures SameMaps(Hydrate(s, Run(lazy, ops)), Run(Fresh(s), ops)) <==> Apart(Run(lazy, ops))
  {
    hide Run, Related, Handled, SameMaps, Hydrate, Apart;
    StartRelated(s, lazy);
    RunsStayRelated(s, lazy, Fresh(s), ops);
    var l, e := Run(lazy, ops), Run(Fresh(s), ops);
    if SameMaps(Hydrate(s, l), e) {
      SameMapsMeanApart(s, l, e);
    }
    if Apart(l) {
      ApartInBoth(s, l, e);
      HydratedAsteroids(s, l, e);
      HydratedBonds(s, l, e);
      MapsAreSame(Hydrate(s, l), e);
    }
  }

  lemma MapsAreSame(a: Context, b: Context)
    requires a.asteroids == b.asteroids && a.bonds == b.bonds
    ensures SameMaps(a, b)
  {
  }

  /** Nothing is put under an id that the context has recorded as extinguished, as with newly drawn ids. */
  predicate IdsNotReused(ctx: Context, ops: seq<Op>) {
    forall i :: 0 <= i < |ops| ==>
      var now := Run(ctx, ops[..i]);
      (ops[i].PutAsteroid? ==> ops[i].id !in now.goneAsteroids) && (ops[i].PutBond? ==> ops[i].id !in now.goneBonds)
  }

  lemma {:induction false} EachStaysApart(ctx: Context, ids: seq<Id>)
    requires Apart(ctx)
    ensures Apart(ExtinguishEach(ctx, ids))
    decreases |ids|
  {
    if ids != [] {
      EachStaysApart(ctx, ids[..|ids| - 1]);
    }
  }

  lemma {:induction false} RunStaysApart(ctx: Context, ops: seq<Op>)
    requires Apart(ctx) && IdsNotReused(ctx, ops)
    ensures Apart(Run(ctx, ops))
    decreases |ops|
  {
    if ops != [] {
      var last := |ops| - 1;
      forall i | 0 <= i < last ensures ops[..last][..i] == ops[..i] {}
      RunStaysApart(ctx, ops[..last]);
      if ops[last].ExtinguishAsteroids? { EachStaysApart(Run(ctx, ops[..last]), ops[last].ids); }
    }
  }

  lemma {:induction false} GoneEach(s: Snapshot, lazy: Context, eager: Context, ids: seq<Id>)
    requires Related(s, lazy, eager) && lazy.goneBonds <= eager.goneBonds
    ensures ExtinguishEach(lazy, ids).goneBonds <= ExtinguishEach(eager, ids).goneBonds
    decreases |ids|
  {
    hide Related;
    if ids != [] {
      var init := ids[..|ids| - 1];
      GoneEach(s, lazy, eager, init);
      ExtinguishEachKeeps(s, lazy, eager, init);
      TouchingWithin(s, ExtinguishEach(lazy, init), ExtinguishEach(eager, init), ids[|ids| - 1]);
    }
  }

  lemma TouchingWithin(s: Snapshot, lazy: Context, eager: Context, id: Id)
    requires Related(s, lazy, eager)
    ensures Touching(lazy.bonds, id) <= Touching(eager.bonds, id)
  {
    hide AsteroidOk;
    forall b | b in Touching(lazy.bonds, id) ensures b in Touching(eager.bonds, id) { assert BondOk(s, lazy, eager, b); }
  }

  lemma {:induction false} GoneRun(s: Snapshot, lazy: Context, eager: Context, ops: seq<Op>)
    requires Related(s, lazy, eager) && lazy.goneBonds <= eager.goneBonds && Handled(lazy, ops)
    ensures Run(lazy, ops).goneBonds <= Run(eager, ops).goneBonds
    decreases |ops|
  {
    hide Related, EndpointsHeld, ExtinguishEach;
    if ops != [] {
      var last := |ops| - 1;
      forall i | 0 <= i < last ensures EndpointsHeld(Run(lazy, ops[..last][..i]), ops[..last][i]) {
        assert ops[..last][..i] == ops[..i];
      }
      GoneRun(s, lazy, eager, ops[..last]);
      RunsStayRelated(s, lazy, eager, ops[..last]);
      if ops[last].ExtinguishAsteroids? { GoneEach(s, Run(lazy, ops[..last]), Run(eager, ops[..last]), ops[last].ids); }
    }
  }

  /** With ids never reused, lazy and eager agree at every point, and from there to the end of the run. */
  lemma {:induction false} LazyEqualsEager(s: Snapshot, lazy: Context, ops: seq<Op>, rest: seq<Op>)
    requires WellFormed(s) && Part(s, lazy) && Handled(lazy, ops) && IdsNotReused(lazy, ops)
    ensures SameMaps(Run(Hydrate(s, Run(lazy, ops)), rest), Run(Fresh(s), ops + rest))
  {
    hide Run, Related, Handled, IdsNotReused, Hydrate;
    RunStaysApart(lazy, ops);
    LazyEqualsEagerIff(s, lazy, ops);
    MapsRunAlike(Hydrate(s, Run(lazy, ops)), Run(Fresh(s), ops), rest);
    RunInTwo(Fresh(s), ops, rest);
  }

  lemma {:induction false} MapsRunAlike(a: Context, b: Context, ops: seq<Op>)
    requires SameMaps(a, b)
    ensures SameMaps(Run(a, ops), Run(b, ops))
    decreases |ops|
  {
    hide ExtinguishEach;
    if ops != [] {
      var last := |ops| - 1;
      MapsRunAlike(a, b, ops[..last]);
      if ops[last].ExtinguishAsteroids? { MapsLeaveAlike(Run(a, ops[..last]), Run(b, ops[..last]), ops[last].ids); }
    }
  }

  lemma {:induction false} MapsLeaveAlike(a: Context, b: Context, ids: seq<Id>)
    requires SameMaps(a, b)
    ensures SameMaps(ExtinguishEach(a, ids), ExtinguishEach(b, ids))
    decreases |ids|
  {
    if ids != [] { MapsLeaveAlike(a, b, ids[..|ids| - 1]); }
  }

  lemma {:induction false} RunInTwo(ctx: Context, first: seq<Op>, second: seq<Op>)
    ensures Run(ctx, first + second) == Run(Run(ctx, first), second)
    decreases |second|
  {
    hide Apply;
    if second == [] {
      assert first + second == first;
    } else {
      var last := |second| - 1;
      RunInTwo(ctx, first, second[..last]);
      var all := first + second;
      assert all[..|all| - 1] == first + second[..last] && all[|all| - 1] == second[last];
    }
  }

  // ---------- Where hydration loses a row ----------

  /** Three active asteroids and one bond. */
  const GALAXY: Snapshot := Snapshot(
    map[1 := Asteroid(JNull, map[]), 2 := Asteroid(JNull, map[]), 3 := Asteroid(JNull, map[])],
    map[10 := Bond(2, 3, "FLOW")])

  /** What a task on bond 10 loads: the bond and its endpoints, not asteroid 1. */
  const BOND_LOADED: Context := Context(GALAXY.asteroids - {1}, GALAXY.bonds, {}, {})

  /**
   Extinguishing a bond and linking the same edge again puts the row back that the read model still
   holds; any later hydration loses it, while the context that started full keeps it.
   */
  lemma RelinkedBondIsLost(s: Snapshot, ctx: Context, b: Id)
    requires WellFormed(s) && Part(s, ctx) && b in ctx.bonds && HasEndpoints(ctx.bonds[b], ctx.asteroids)
    ensures var ops := [ExtinguishBond(b), PutBond(b, s.bonds[b])];
            && Handled(ctx, ops)
            && b in Run(Fresh(s), ops).bonds && b !in Hydrate(s, Run(ctx, ops)).bonds
  {
    hide Closed;
    var ops := [ExtinguishBond(b), PutBond(b, s.bonds[b])];
    TwoSteps(ctx, ops[0], ops[1]);
    TwoSteps(Fresh(s), ops[0], ops[1]);
    GoneStaysOut(s, Run(ctx, ops), b);
  }

  lemma TwoSteps(ctx: Context, first: Op, second: Op)
    ensures Run(ctx, [first, second][..0]) == ctx && Run(ctx, [first, second][..1]) == Apply(ctx, first)
    ensures Run(ctx, [first, second]) == Apply(Apply(ctx, first), second)
  {
    hide Apply;
    var ops := [first, second];
    assert ops[..1] == [first] && ops[..1][..0] == [] && ops[..0] == [];
  }

  lemma GalaxyLosesRelinkedBond()
    ensures var ops := [ExtinguishBond(10), PutBond(10, GALAXY.bonds[10])];
            && Part(GALAXY, BOND_LOADED) && Handled(BOND_LOADED, ops)
            && !SameMaps(Hydrate(GALAXY, Run(BOND_LOADED, ops)), Run(Fresh(GALAXY), ops))
  {
    hide Run, Hydrate, Handled;
    RelinkedBondIsLost(GALAXY, BOND_LOADED, 10);
  }

  /** Likewise a partial context that puts back an asteroid it has extinguished, as ingesting by value does. */
  lemma ReusedIdIsLost(s: Snapshot, ctx: Context, a: Id)
    requires a in s.asteroids
    ensures var ops := [ExtinguishAsteroids([a]), PutAsteroid(a, s.asteroids[a])];
            a in Run(ctx, ops).asteroids && a !in Hydrate(s, Run(ctx, ops)).asteroids
  {
    hide Closed;
    TwoSteps(ctx, ExtinguishAsteroids([a]), PutAsteroid(a, s.asteroids[a]));
    assert [a][..0] == [] && ExtinguishEach(ctx, []) == ctx;
    assert ExtinguishEach(ctx, [a]) == ExtinguishOne(ctx, a);
    assert a in Apply(ctx, ExtinguishAsteroids([a])).goneAsteroids;
  }
}
