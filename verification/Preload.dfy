/** What the executor loads before running tasks, and why the tasks find in it the rows they name as in the whole galaxy. */
module Preload {
  import opened Values
  import opened Hydration

  /** The tasks as preload planning sees them: the parsed ids, absent when missing or malformed. */
  datatype Task =
    | Ingest
    | Link(source: Option<Id>, target: Option<Id>)
    | UpdateAsteroid(asteroid: Option<Id>)
    | UpdateBond(bond: Option<Id>)
    | ExtinguishBondTask(bond: Option<Id>)
      /** Setting a formula or adding a guardian. */
    | OnTarget(asteroid: Option<Id>)
      /** Deleting by condition or by a planet or asteroid name is fuzzy. */
    | Extinguish(fuzzy: bool, named: Option<Id>, aimed: Option<Id>)
    | OtherTask

  datatype Plan = Full | Partial(asteroids: set<Id>, bonds: set<Id>, connected: bool)

  function Chosen(task: Task): Option<Id>
    requires task.Extinguish?
  {
    if task.named.Some? then task.named else task.aimed
  }

  predicate Plannable(task: Task) {
    match task
    case Ingest => true
    case Link(source, target) => source.Some? && target.Some?
    case UpdateAsteroid(a) => a.Some?
    case UpdateBond(b) => b.Some?
    case ExtinguishBondTask(b) => b.Some?
    case OnTarget(a) => a.Some?
    case Extinguish(fuzzy, _, _) => !fuzzy && Chosen(task).Some?
    case OtherTask => false
  }

  function AsteroidsOf(task: Task): set<Id>
    requires Plannable(task)
  {
    match task
    case Link(source, target) => {source.value, target.value}
    case UpdateAsteroid(a) => {a.value}
    case OnTarget(a) => {a.value}
    case Extinguish(_, _, _) => {Chosen(task).value}
    case _ => {}
  }

  function BondsOf(task: Task): set<Id>
    requires Plannable(task)
  {
    match task
    case UpdateBond(b) => {b.value}
    case ExtinguishBondTask(b) => {b.value}
    case _ => {}
  }

  /** Partial exactly on the main timeline with plannable tasks only; then just what the tasks name. */
  ghost predicate PlanFits(tasks: seq<Task>, plan: Plan) {
    match plan
    case Full => exists i :: 0 <= i < |tasks| && !Plannable(tasks[i])
    case Partial(asteroids, bonds, connected) =>
      && (forall i :: 0 <= i < |tasks| ==> Plannable(tasks[i]))
      && (forall a :: a in asteroids <==> exists i :: 0 <= i < |tasks| && Plannable(tasks[i]) && a in AsteroidsOf(tasks[i]))
      && (forall b :: b in bonds <==> exists i :: 0 <= i < |tasks| && Plannable(tasks[i]) && b in BondsOf(tasks[i]))
      && (connected <==> exists i :: 0 <= i < |tasks| && tasks[i].Extinguish?)
  }

  /** What a partial plan must cover for a task; an INGEST names no row, and tasks of any other kind need the whole galaxy. */
  predicate NamesItsRows(task: Task, plan: Plan)
    requires plan.Partial?
  {
    match task
    case Ingest => true
    case Link(source, target) => source.Some? && target.Some? && source.value in plan.asteroids && target.value in plan.asteroids
    case UpdateAsteroid(a) => a.Some? && a.value in plan.asteroids
    case OnTarget(a) => a.Some? && a.value in plan.asteroids
    case UpdateBond(b) => b.Some? && b.value in plan.bonds
    case ExtinguishBondTask(b) => b.Some? && b.value in plan.bonds
    case Extinguish(fuzzy, named, aimed) =>
      && !fuzzy && plan.connected
      && (named.Some? ==> named.value in plan.asteroids)
      && (named.None? ==> aimed.Some? && aimed.value in plan.asteroids)
    case OtherTask => false
  }

  method BuildPreloadPlan(tasks: seq<Task>, branch: Option<Id>) returns (plan: Plan)
    ensures branch.Some? ==> plan.Full?
    ensures branch.None? ==> PlanFits(tasks, plan)
    ensures plan.Partial? ==> forall i :: 0 <= i < |tasks| ==> NamesItsRows(tasks[i], plan)
  {
    if branch.Some? {
      return Full;
    }
    var asteroids: set<Id>, bonds: set<Id>, connected := {}, {}, false;
    for i := 0 to |tasks|
      invariant forall j :: 0 <= j < i ==> Plannable(tasks[j])
      invariant forall a :: a in asteroids <==> exists j :: 0 <= j < i && Plannable(tasks[j]) && a in AsteroidsOf(tasks[j])
      invariant forall b :: b in bonds <==> exists j :: 0 <= j < i && Plannable(tasks[j]) && b in BondsOf(tasks[j])
      invariant connected <==> exists j :: 0 <= j < i && tasks[j].Extinguish?
    {
      match tasks[i] {
        case Ingest =>
        case Link(source, target) =>
          if source.None? || target.None? { return Full; }
          asteroids := asteroids + {source.value} + {target.value};
        case UpdateAsteroid(a) =>
          if a.None? { return Full; }
          asteroids := asteroids + {a.value};
        case UpdateBond(b) =>
          if b.None? { return Full; }
          bonds := bonds + {b.value};
        case ExtinguishBondTask(b) =>
          if b.None? { return Full; }
          bonds := bonds + {b.value};
        case OnTarget(a) =>
          if a.None? { return Full; }
          asteroids := asteroids + {a.value};
        case Extinguish(fuzzy, named, aimed) =>
          if fuzzy { return Full; }
          var chosen := named;
          if chosen.None? { chosen := aimed; }
          if chosen.None? { return Full; }
          asteroids := asteroids + {chosen.value};
          connected := true;
        case OtherTask => return Full;
      }
    }
    plan := Partial(asteroids, bonds, connected);
    PlansNameTheirRows(tasks, plan);
  }

  lemma PlansNameTheirRows(tasks: seq<Task>, plan: Plan)
    requires plan.Partial? && PlanFits(tasks, plan)
    ensures forall i :: 0 <= i < |tasks| ==> NamesItsRows(tasks[i], plan)
  {
    forall i | 0 <= i < |tasks| ensures NamesItsRows(tasks[i], plan) {
      assert Plannable(tasks[i]);
      assert AsteroidsOf(tasks[i]) <= plan.asteroids && BondsOf(tasks[i]) <= plan.bonds;
    }
  }

  // ---------- The partial load ----------

  predicate SamePair(a: Bond, b: Bond) {
    (a.source == b.source && a.target == b.target) || (a.source == b.target && a.target == b.source)
  }

  /** Two bonds are on one pair when they have the same set of ends. */
  lemma SamePairMeans(a: Bond, b: Bond)
    ensures SamePair(a, b) <==> {a.source, a.target} == {b.source, b.target}
  {
    if {a.source, a.target} == {b.source, b.target} {
      assert a.source in {b.source, b.target} && a.target in {b.source, b.target};
      assert b.source in {a.source, a.target} && b.target in {a.source, a.target};
    }
  }

  function Siblings(s: Snapshot, primary: set<Id>): set<Id> {
    set x, b | b in primary && b in s.bonds && x in s.bonds && SamePair(s.bonds[x], s.bonds[b]) :: x
  }

  function Endpoints(s: Snapshot, bonds: set<Id>): set<Id> {
    (set b | b in bonds && b in s.bonds :: s.bonds[b].source) + (set b | b in bonds && b in s.bonds :: s.bonds[b].target)
  }

  function PickAsteroids(s: Snapshot, ids: set<Id>): map<Id, Asteroid> {
    map a | a in s.asteroids && a in ids :: s.asteroids[a]
  }

  function PickBonds(s: Snapshot, ids: set<Id>): map<Id, Bond> {
    map b | b in s.bonds && b in ids :: s.bonds[b]
  }

  function TouchingAny(s: Snapshot, asteroids: map<Id, Asteroid>): set<Id> {
    set b | b in s.bonds && (s.bonds[b].source in asteroids || s.bonds[b].target in asteroids)
  }

  method LoadPartialMainState(s: Snapshot, plan: Plan) returns (ctx: Context)
    requires plan.Partial?
    ensures Part(s, ctx)
    ensures forall a :: a in plan.asteroids && a in s.asteroids ==> a in ctx.asteroids
    ensures forall b :: b in plan.bonds && b in s.bonds ==> Surrounded(s, ctx, b)
    ensures plan.connected ==> forall a :: a in ctx.asteroids ==> Touching(ctx.bonds, a) == Touching(s.bonds, a)
  {
    hide Endpoints, TouchingAny, PickAsteroids, PickBonds, Touching, Surrounded;
    var asteroids := PickAsteroids(s, plan.asteroids);
    PickedAsteroids(s, plan.asteroids);
    var bonds: map<Id, Bond> := map[];
    if plan.bonds != {} {
      bonds := LoadWithSiblings(s, plan.bonds);
      var missing := Endpoints(s, bonds.Keys) - asteroids.Keys;
      PickedAsteroids(s, missing);
      asteroids := asteroids + PickAsteroids(s, missing);
    }
    forall b | b in plan.bonds && b in s.bonds ensures Surrounded(s, Context(asteroids, bonds, {}, {}), b) {
      SurroundedByLoad(s, asteroids, bonds, b);
    }
    ghost var before := bonds;
    if plan.connected && asteroids != map[] {
      bonds := bonds + PickBonds(s, TouchingAny(s, asteroids));
      PickedBonds(s, TouchingAny(s, asteroids));
    }
    ctx := Context(asteroids, bonds, {}, {});
    forall b | b in plan.bonds && b in s.bonds ensures Surrounded(s, ctx, b) {
      StillSurrounded(s, asteroids, before, bonds, b);
    }
    if plan.connected {
      forall a | a in asteroids ensures Touching(bonds, a) == Touching(s.bonds, a) {
        TouchingLoaded(s, asteroids, bonds, a);
      }
    }
  }

  /** The planned bonds and every other bond between the same endpoints. */
  method LoadWithSiblings(s: Snapshot, ids: set<Id>) returns (bonds: map<Id, Bond>)
    ensures forall b :: b in bonds ==> b in s.bonds && bonds[b] == s.bonds[b]
    ensures forall b :: b in ids && b in s.bonds ==> b in bonds
    ensures forall b, x :: b in ids && b in s.bonds && x in s.bonds && SamePair(s.bonds[x], s.bonds[b]) ==> x in bonds
  {
    hide SamePair;
    var primary := PickBonds(s, ids);
    bonds := primary + PickBonds(s, Siblings(s, primary.Keys));
    forall b, x | b in ids && b in s.bonds && x in s.bonds && SamePair(s.bonds[x], s.bonds[b]) ensures x in bonds {
      assert b in primary.Keys;
      assert x in Siblings(s, primary.Keys);
    }
  }

  lemma PickedAsteroids(s: Snapshot, ids: set<Id>)
    ensures forall a :: a in PickAsteroids(s, ids) <==> a in s.asteroids && a in ids
    ensures forall a :: a in PickAsteroids(s, ids) ==> PickAsteroids(s, ids)[a] == s.asteroids[a]
  {
  }

  lemma PickedBonds(s: Snapshot, ids: set<Id>)
    ensures forall b :: b in PickBonds(s, ids) <==> b in s.bonds && b in ids
    ensures forall b :: b in PickBonds(s, ids) ==> PickBonds(s, ids)[b] == s.bonds[b]
  {
  }

  lemma SurroundedByLoad(s: Snapshot, asteroids: map<Id, Asteroid>, bonds: map<Id, Bond>, b: Id)
    requires b in s.bonds && b in bonds
    requires forall x :: x in s.bonds && SamePair(s.bonds[x], s.bonds[b]) ==> x in bonds
    requires forall e :: e in Endpoints(s, bonds.Keys) && e in s.asteroids ==> e in asteroids
    ensures Surrounded(s, Context(asteroids, bonds, {}, {}), b)
  {
    hide SamePair;
    assert s.bonds[b].source in Endpoints(s, bonds.Keys) && s.bonds[b].target in Endpoints(s, bonds.Keys);
  }

  lemma StillSurrounded(s: Snapshot, asteroids: map<Id, Asteroid>, before: map<Id, Bond>, bonds: map<Id, Bond>, b: Id)
    requires b in s.bonds && Surrounded(s, Context(asteroids, before, {}, {}), b) && before.Keys <= bonds.Keys
    ensures Surrounded(s, Context(asteroids, bonds, {}, {}), b)
  {
    hide SamePair;
  }

  lemma TouchingLoaded(s: Snapshot, asteroids: map<Id, Asteroid>, bonds: map<Id, Bond>, a: Id)
    requires a in asteroids && forall b :: b in bonds ==> b in s.bonds && s.bonds[b] == bonds[b]
    requires forall b :: b in TouchingAny(s, asteroids) && b in s.bonds ==> b in bonds
    ensures Touching(bonds, a) == Touching(s.bonds, a)
  {
    forall b | b in Touching(s.bonds, a) ensures b in Touching(bonds, a) {
      assert b in TouchingAny(s, asteroids);
    }
  }

  /** The bond is loaded with every bond on its pair of endpoints, and with the endpoints that are active. */
  predicate Surrounded(s: Snapshot, ctx: Context, b: Id)
    requires b in s.bonds
  {
    && b in ctx.bonds
    && (forall x :: x in s.bonds && SamePair(s.bonds[x], s.bonds[b]) ==> x in ctx.bonds)
    && (s.bonds[b].source in s.asteroids ==> s.bonds[b].source in ctx.asteroids)
    && (s.bonds[b].target in s.asteroids ==> s.bonds[b].target in ctx.asteroids)
  }

  // ---------- Main results ----------

  predicate SameAsteroid(s: Snapshot, ctx: Context, a: Id) {
    (a in ctx.asteroids <==> a in s.asteroids) && (a in s.asteroids ==> ctx.asteroids[a] == s.asteroids[a])
  }

  predicate SameBond(s: Snapshot, ctx: Context, b: Id) {
    (b in ctx.bonds <==> b in s.bonds) && (b in s.bonds ==> ctx.bonds[b] == s.bonds[b])
  }

  /** The bond reads the same, and if it is there its endpoints are loaded. */
  predicate LoadedWithEndpoints(s: Snapshot, ctx: Context, b: Id) {
    SameBond(s, ctx, b) && (b in s.bonds ==> HasEndpoints(s.bonds[b], ctx.asteroids))
  }

  /**
   The rows a task names, with siblings and connected bonds, read the same in the context as loaded as
   in the whole snapshot.  What becomes of this while earlier tasks run is the subject of
   `PartialRuns`, and lookups that do not go by an id are that of `Lookups`.
   */
  predicate SeesTheSame(s: Snapshot, ctx: Context, task: Task) {
    Plannable(task) ==>
      match task
      case Link(source, target) => SameAsteroid(s, ctx, source.value) && SameAsteroid(s, ctx, target.value)
      case UpdateAsteroid(a) => SameAsteroid(s, ctx, a.value)
      case OnTarget(a) => SameAsteroid(s, ctx, a.value)
      case UpdateBond(b) =>
        && LoadedWithEndpoints(s, ctx, b.value)
        && (b.value in s.bonds ==> forall x :: x in s.bonds && SamePair(s.bonds[x], s.bonds[b.value]) ==> SameBond(s, ctx, x))
      case ExtinguishBondTask(b) => LoadedWithEndpoints(s, ctx, b.value)
      case Extinguish(_, _, _) =>
        SameAsteroid(s, ctx, Chosen(task).value) &&
        (Chosen(task).value in s.asteroids ==> Touching(ctx.bonds, Chosen(task).value) == Touching(s.bonds, Chosen(task).value))
      case _ => true
  }

  /** All bonds of every loaded asteroid are loaded, as they are whenever some task deletes. */
  predicate LoadedConnected(s: Snapshot, ctx: Context) {
    forall b :: b in s.bonds && (s.bonds[b].source in ctx.asteroids || s.bonds[b].target in ctx.asteroids) ==> b in ctx.bonds
  }

  /** As loaded, the partial context is enough for every task it was planned for. */
  method LoadInitialContext(s: Snapshot, tasks: seq<Task>, branch: Option<Id>) returns (ctx: Context, partialScope: bool)
    requires WellFormed(s)
    ensures !partialScope ==> ctx == Fresh(s)
    ensures partialScope ==> branch.None? && Part(s, ctx)
    ensures partialScope ==> forall i :: 0 <= i < |tasks| ==> SeesTheSame(s, ctx, tasks[i])
    ensures partialScope && (exists i :: 0 <= i < |tasks| && tasks[i].Extinguish?) ==> LoadedConnected(s, ctx)
  {
    hide Touching, SamePair, LoadedConnected;
    var plan := BuildPreloadPlan(tasks, branch);
    if plan.Full? {
      return Fresh(s), false;
    }
    ctx := LoadPartialMainState(s, plan);
    partialScope := true;
    forall i | 0 <= i < |tasks| ensures SeesTheSame(s, ctx, tasks[i]) {
      PlannedTaskSees(s, ctx, plan, tasks, i);
    }
    if plan.connected { ConnectedIsLoaded(s, ctx); }
  }

  lemma ConnectedIsLoaded(s: Snapshot, ctx: Context)
    requires forall a :: a in ctx.asteroids ==> Touching(ctx.bonds, a) == Touching(s.bonds, a)
    ensures LoadedConnected(s, ctx)
  {
    forall b | b in s.bonds && (s.bonds[b].source in ctx.asteroids || s.bonds[b].target in ctx.asteroids) ensures b in ctx.bonds {
      assert b in Touching(s.bonds, s.bonds[b].source) && b in Touching(s.bonds, s.bonds[b].target);
    }
  }

  lemma PlannedTaskSees(s: Snapshot, ctx: Context, plan: Plan, tasks: seq<Task>, i: nat)
    requires WellFormed(s) && plan.Partial? && PlanFits(tasks, plan) && i < |tasks| && Part(s, ctx)
    requires forall a :: a in plan.asteroids && a in s.asteroids ==> a in ctx.asteroids
    requires forall b :: b in plan.bonds && b in s.bonds ==> Surrounded(s, ctx, b)
    requires plan.connected ==> forall a :: a in ctx.asteroids ==> Touching(ctx.bonds, a) == Touching(s.bonds, a)
    ensures SeesTheSame(s, ctx, tasks[i])
  {
    hide Touching, SamePair;
    var task := tasks[i];
    assert Plannable(task);
    assert AsteroidsOf(task) <= plan.asteroids && BondsOf(task) <= plan.bonds;
  }

  // ---------- Retyped bonds keep their endpoints at hand ----------

  /** While a bond with loaded endpoints is held, its endpoints are held. */
  predicate HeldWithEndpoints(ctx: Context, b: Id) {
    b in ctx.bonds ==> HasEndpoints(ctx.bonds[b], ctx.asteroids)
  }

  lemma {:induction false} EachKeepsEndpoints(ctx: Context, ids: seq<Id>, b: Id)
    requires HeldWithEndpoints(ctx, b)
    ensures HeldWithEndpoints(ExtinguishEach(ctx, ids), b)
    decreases |ids|
  {
    if ids != [] {
      EachKeepsEndpoints(ctx, ids[..|ids| - 1], b);
    }
  }

  /** So whatever a run does first, replacing a held bond by a retyped one puts a bond whose endpoints are held. */
  lemma {:induction false} RunKeepsEndpoints(ctx: Context, ops: seq<Op>, b: Id)
    requires HeldWithEndpoints(ctx, b) && Handled(ctx, ops)
    ensures HeldWithEndpoints(Run(ctx, ops), b)
    decreases |ops|
  {
    if ops != [] {
      var last := |ops| - 1;
      forall i | 0 <= i < last ensures EndpointsHeld(Run(ctx, ops[..last][..i]), ops[..last][i]) {
        assert ops[..last][..i] == ops[..i];
      }
      RunKeepsEndpoints(ctx, ops[..last], b);
      if ops[last].ExtinguishAsteroids? { EachKeepsEndpoints(Run(ctx, ops[..last]), ops[last].ids, b); }
      assert EndpointsHeld(Run(ctx, ops[..last]), ops[last]);
    }
  }
}
