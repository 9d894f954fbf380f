/**
 What the handlers read while a partially loaded context runs, against the context that started from
 the whole snapshot.  Planned rows and sibling bonds read the same all along.  Connected bonds need
 not: the closing filter of a deletion drops held bonds whose other endpoint was never loaded, and a
 later deletion then misses them.  The exact condition is over the loaded context and the operations.
 */
module PartialRuns {
  import opened Values
  import opened Hydration
  import opened Preload

  predicate TouchesAny(bond: Bond, ids: seq<Id>) {
    bond.source in ids || bond.target in ids
  }

  /** The held bonds that a deletion of the targets extinguishes. */
  function Connected(ctx: Context, ids: seq<Id>): set<Id> {
    set b | b in ctx.bonds && TouchesAny(ctx.bonds[b], ids)
  }

  // ---------- What a deletion does to one row ----------

  lemma {:induction false} EachAt(ctx: Context, ids: seq<Id>, x: Id)
    ensures var next := ExtinguishEach(ctx, ids);
            && (x in next.asteroids <==> x in ctx.asteroids && x !in ids)
            && (x in next.asteroids ==> next.asteroids[x] == ctx.asteroids[x])
            && (x in next.bonds <==> x in ctx.bonds && !TouchesAny(ctx.bonds[x], ids))
            && (x in next.bonds ==> next.bonds[x] == ctx.bonds[x])
            && (x in next.goneBonds <==> x in ctx.goneBonds || x in Connected(ctx, ids))
    decreases |ids|
  {
    if ids != [] {
      var init, last := ids[..|ids| - 1], ids[|ids| - 1];
      EachAt(ctx, init, x);
      assert forall y :: y in ids <==> y in init || y == last by { assert ids == init + [last]; }
    }
  }

  lemma DeletionAt(ctx: Context, ids: seq<Id>, x: Id)
    ensures var next := Apply(ctx, ExtinguishAsteroids(ids));
            && (x in next.asteroids <==> x in ctx.asteroids && x !in ids)
            && (x in next.asteroids ==> next.asteroids[x] == ctx.asteroids[x])
            && (x in next.bonds <==> x in ctx.bonds && !TouchesAny(ctx.bonds[x], ids) && HasEndpoints(ctx.bonds[x], ctx.asteroids))
            && (x in next.bonds ==> next.bonds[x] == ctx.bonds[x])
            && (x in next.goneBonds <==> x in ctx.goneBonds || x in Connected(ctx, ids))
  {
    hide ExtinguishEach, Connected;
    EachAt(ctx, ids, x);
    if x in ctx.bonds {
      EachAt(ctx, ids, ctx.bonds[x].source);
      EachAt(ctx, ids, ctx.bonds[x].target);
    }
  }

  // ---------- Rows that read the same ----------

  predicate SameAsteroidRow(lazy: Context, eager: Context, a: Id) {
    (a in lazy.asteroids <==> a in eager.asteroids) && (a in lazy.asteroids ==> lazy.asteroids[a] == eager.asteroids[a])
  }

  predicate SameBondRow(lazy: Context, eager: Context, b: Id) {
    (b in lazy.bonds <==> b in eager.bonds) && (b in lazy.bonds ==> lazy.bonds[b] == eager.bonds[b])
  }

  /** Such a bond survives every filter in both contexts or in neither. */
  predicate Mirrored(lazy: Context, eager: Context, b: Id) {
    SameBondRow(lazy, eager, b) && (b in lazy.bonds ==> HasEndpoints(lazy.bonds[b], lazy.asteroids))
  }

  lemma SameAsteroidStays(lazy: Context, eager: Context, op: Op, a: Id)
    requires SameAsteroidRow(lazy, eager, a)
    ensures SameAsteroidRow(Apply(lazy, op), Apply(eager, op), a)
  {
    if op.ExtinguishAsteroids? {
      hide Apply;
      DeletionAt(lazy, op.ids, a);
      DeletionAt(eager, op.ids, a);
    }
  }

  lemma MirroredStays(s: Snapshot, lazy: Context, eager: Context, op: Op, b: Id)
    requires BondOk(s, lazy, eager, b) && EndpointsHeld(lazy, op) && Mirrored(lazy, eager, b)
    ensures Mirrored(Apply(lazy, op), Apply(eager, op), b)
  {
    if op.ExtinguishAsteroids? {
      hide Apply, Connected;
      DeletionAt(lazy, op.ids, b);
      DeletionAt(eager, op.ids, b);
      if b in lazy.bonds {
        DeletionAt(lazy, op.ids, lazy.bonds[b].source);
        DeletionAt(lazy, op.ids, lazy.bonds[b].target);
      }
    }
  }

  lemma {:induction false} SameAsteroidAllAlong(lazy: Context, eager: Context, ops: seq<Op>, a: Id)
    requires SameAsteroidRow(lazy, eager, a)
    ensures SameAsteroidRow(Run(lazy, ops), Run(eager, ops), a)
    decreases |ops|
  {
    hide Apply, SameAsteroidRow;
    if ops != [] {
      SameAsteroidAllAlong(lazy, eager, ops[..|ops| - 1], a);
      SameAsteroidStays(Run(lazy, ops[..|ops| - 1]), Run(eager, ops[..|ops| - 1]), ops[|ops| - 1], a);
    }
  }

  lemma HandledInit(ctx: Context, ops: seq<Op>)
    requires ops != [] && Handled(ctx, ops)
    ensures Handled(ctx, ops[..|ops| - 1]) && EndpointsHeld(Run(ctx, ops[..|ops| - 1]), ops[|ops| - 1])
  {
    hide Run, EndpointsHeld;
    var last := |ops| - 1;
    forall i | 0 <= i < last ensures EndpointsHeld(Run(ctx, ops[..last][..i]), ops[..last][i]) {
      assert ops[..last][..i] == ops[..i];
    }
  }

  /** The relation of the two runs, at one bond. */
  lemma RunBondOk(s: Snapshot, ctx: Context, ops: seq<Op>, b: Id)
    requires WellFormed(s) && Part(s, ctx) && Handled(ctx, ops)
    ensures BondOk(s, Run(ctx, ops), Run(Fresh(s), ops), b)
  {
    hide Run, BondOk, AsteroidOk, ReturnOk, Handled;
    StartRelated(s, ctx);
    RunsStayRelated(s, ctx, Fresh(s), ops);
  }

  lemma {:induction false} MirroredAllAlong(s: Snapshot, ctx: Context, ops: seq<Op>, b: Id)
    requires WellFormed(s) && Part(s, ctx) && Handled(ctx, ops) && Mirrored(ctx, Fresh(s), b)
    ensures Mirrored(Run(ctx, ops), Run(Fresh(s), ops), b)
    decreases |ops|
  {
    hide Apply, Mirrored, Handled, BondOk;
    if ops != [] {
      var init := ops[..|ops| - 1];
      HandledInit(ctx, ops);
      MirroredAllAlong(s, ctx, init, b);
      RunBondOk(s, ctx, init, b);
      MirroredStays(s, Run(ctx, init), Run(Fresh(s), init), ops[|ops| - 1], b);
    }
  }

  // ---------- Planned rows read the same all along ----------

  /**
   The rows that a planned task names by id read the same, and so do the siblings of a named bond.  This
   leaves out what a handler finds in other ways: connected bonds are treated below, and INGEST's lookup by
   value, LINK's by edge and EXTINGUISH's by text in `Lookups`.
   */
  predicate ReadsAgree(s: Snapshot, lazy: Context, eager: Context, task: Task) {
    Plannable(task) ==>
      match task
      case Link(source, target) => SameAsteroidRow(lazy, eager, source.value) && SameAsteroidRow(lazy, eager, target.value)
      case UpdateAsteroid(a) => SameAsteroidRow(lazy, eager, a.value)
      case OnTarget(a) => SameAsteroidRow(lazy, eager, a.value)
      case UpdateBond(b) =>
        && SameBondRow(lazy, eager, b.value)
        && (b.value in s.bonds ==> SameOnPair(lazy, eager, s.bonds[b.value]))
      case ExtinguishBondTask(b) => SameBondRow(lazy, eager, b.value)
      case Extinguish(_, _, _) => SameAsteroidRow(lazy, eager, Chosen(task).value)
      case Ingest => true
      case OtherTask => true
  }

  /** Both contexts hold the same bonds between the endpoints of `bond`. */
  predicate SameOnPair(lazy: Context, eager: Context, bond: Bond) {
    && (forall x :: x in eager.bonds && SamePair(eager.bonds[x], bond) ==> x in lazy.bonds && lazy.bonds[x] == eager.bonds[x])
    && (forall x :: x in lazy.bonds && SamePair(lazy.bonds[x], bond) ==> x in eager.bonds && lazy.bonds[x] == eager.bonds[x])
  }

  lemma {:induction false} PairAllAlong(s: Snapshot, ctx: Context, ops: seq<Op>, bond: Bond)
    requires WellFormed(s) && Part(s, ctx) && Handled(ctx, ops) && HasEndpoints(bond, ctx.asteroids)
    requires forall x :: x in s.bonds && SamePair(s.bonds[x], bond) ==> x in ctx.bonds
    ensures SameOnPair(Run(ctx, ops), Run(Fresh(s), ops), bond)
  {
    hide Run, Handled;
    var lazy, eager := Run(ctx, ops), Run(Fresh(s), ops);
    forall x | x in eager.bonds && SamePair(eager.bonds[x], bond) ensures x in lazy.bonds && lazy.bonds[x] == eager.bonds[x] {
      RunBondOk(s, ctx, ops, x);
      if x !in lazy.bonds {
        assert s.bonds[x] == eager.bonds[x];
        MirroredAllAlong(s, ctx, ops, x);
      }
    }
    forall x | x in lazy.bonds && SamePair(lazy.bonds[x], bond) ensures x in eager.bonds && lazy.bonds[x] == eager.bonds[x] {
      RunBondOk(s, ctx, ops, x);
    }
  }

  /** Whatever earlier tasks did, a planned task reads the asteroids and the bond it names, and the bond's siblings, as in the full context. */
  lemma {:induction false} PlannedTasksReadTheSame(s: Snapshot, ctx: Context, ops: seq<Op>, task: Task)
    requires WellFormed(s) && Part(s, ctx) && Handled(ctx, ops) && SeesTheSame(s, ctx, task)
    ensures ReadsAgree(s, Run(ctx, ops), Run(Fresh(s), ops), task)
  {
    hide Run, Handled, SamePair, SameOnPair, Touching;
    if Plannable(task) {
      match task {
        case Link(source, target) =>
          SameAsteroidAllAlong(ctx, Fresh(s), ops, source.value);
          SameAsteroidAllAlong(ctx, Fresh(s), ops, target.value);
        case UpdateAsteroid(a) => SameAsteroidAllAlong(ctx, Fresh(s), ops, a.value);
        case OnTarget(a) => SameAsteroidAllAlong(ctx, Fresh(s), ops, a.value);
        case UpdateBond(b) =>
          MirroredAllAlong(s, ctx, ops, b.value);
          if b.value in s.bonds {
            assert forall x :: x in s.bonds && SamePair(s.bonds[x], s.bonds[b.value]) ==> SameBond(s, ctx, x);
            PairAllAlong(s, ctx, ops, s.bonds[b.value]);
          }
        case ExtinguishBondTask(b) => MirroredAllAlong(s, ctx, ops, b.value);
        case Extinguish(_, _, _) => SameAsteroidAllAlong(ctx, Fresh(s), ops, Chosen(task).value);
        case _ =>
      }
    }
  }

  // ---------- Bonds that only the full context still holds ----------

  /** The operation puts or extinguishes the bond, or deletes an endpoint. */
  predicate Concerns(op: Op, b: Id, bond: Bond) {
    match op
    case PutAsteroid(_, _) => false
    case PutBond(id, _) => id == b
    case ExtinguishBond(id) => id == b
    case ExtinguishAsteroids(ids) => TouchesAny(bond, ids)
  }

  predicate Unconcerned(ops: seq<Op>, b: Id, bond: Bond) {
    forall i :: 0 <= i < |ops| ==> !Concerns(ops[i], b, bond)
  }

  /** Loaded, or put since. */
  predicate Arrived(ctx: Context, ops: seq<Op>, a: Id) {
    a in ctx.asteroids || exists i :: 0 <= i < |ops| && ops[i].PutAsteroid? && ops[i].id == a
  }

  /** A deletion came while an endpoint had not arrived. */
  predicate Filtered(ctx: Context, ops: seq<Op>, bond: Bond) {
    exists i :: 0 <= i < |ops| && ops[i].ExtinguishAsteroids?
                && !(Arrived(ctx, ops[..i], bond.source) && Arrived(ctx, ops[..i], bond.target))
  }

  /** A bond of the snapshot that no operation concerned yet but that the partial context does not hold. */
  predicate Adrift(s: Snapshot, ctx: Context, ops: seq<Op>, b: Id) {
    && b in s.bonds && Unconcerned(ops, b, s.bonds[b])
    && (b !in ctx.bonds || Filtered(ctx, ops, s.bonds[b]))
  }

  lemma ConcernedNext(ops: seq<Op>, op: Op, b: Id, bond: Bond)
    ensures Unconcerned(ops + [op], b, bond) <==> Unconcerned(ops, b, bond) && !Concerns(op, b, bond)
  {
    hide Concerns;
    var all := ops + [op];
    assert all[|ops|] == op && forall i :: 0 <= i < |ops| ==> all[i] == ops[i];
  }

  lemma ArrivedNext(ctx: Context, ops: seq<Op>, op: Op, a: Id)
    ensures Arrived(ctx, ops + [op], a) <==> Arrived(ctx, ops, a) || (op.PutAsteroid? && op.id == a)
  {
    var all := ops + [op];
    assert all[|ops|] == op && forall i :: 0 <= i < |ops| ==> all[i] == ops[i];
  }

  lemma FilteredNext(ctx: Context, ops: seq<Op>, op: Op, bond: Bond)
    ensures Filtered(ctx, ops + [op], bond) <==>
            || Filtered(ctx, ops, bond)
            || (op.ExtinguishAsteroids? && !(Arrived(ctx, ops, bond.source) && Arrived(ctx, ops, bond.target)))
  {
    hide Arrived;
    var all := ops + [op];
    assert all[|ops|] == op && all[..|ops|] == ops;
    assert forall i :: 0 <= i < |ops| ==> all[i] == ops[i] && all[..i] == ops[..i];
  }

  /** Where a bond that no operation concerned stands in the two runs. */
  predicate Untouched(s: Snapshot, ctx: Context, ops: seq<Op>, lazy: Context, eager: Context, b: Id)
    requires b in s.bonds
  {
    var bond := s.bonds[b];
    && b in eager.bonds && eager.bonds[b] == bond
    && (b in lazy.bonds <==> b in ctx.bonds && !Filtered(ctx, ops, bond))
    && (b in lazy.bonds ==> lazy.bonds[b] == bond)
    && (bond.source in lazy.asteroids <==> Arrived(ctx, ops, bond.source))
    && (bond.target in lazy.asteroids <==> Arrived(ctx, ops, bond.target))
  }

  lemma UntouchedNext(s: Snapshot, ctx: Context, ops: seq<Op>, lazy: Context, eager: Context, op: Op, b: Id)
    requires b in s.bonds && Untouched(s, ctx, ops, lazy, eager, b) && !Concerns(op, b, s.bonds[b])
    requires BondOk(s, lazy, eager, b)
    ensures Untouched(s, ctx, ops + [op], Apply(lazy, op), Apply(eager, op), b)
  {
    var bond := s.bonds[b];
    ArrivedNext(ctx, ops, op, bond.source);
    ArrivedNext(ctx, ops, op, bond.target);
    FilteredNext(ctx, ops, op, bond);
    hide Arrived, Filtered;
    if op.ExtinguishAsteroids? {
      hide Apply, Connected;
      DeletionAt(lazy, op.ids, b);
      DeletionAt(eager, op.ids, b);
      DeletionAt(lazy, op.ids, bond.source);
      DeletionAt(lazy, op.ids, bond.target);
    }
  }

  /** Once an operation concerns it, the bond reads the same for good. */
  lemma ConcernedIsMirrored(s: Snapshot, ctx: Context, ops: seq<Op>, lazy: Context, eager: Context, op: Op, b: Id)
    requires b in s.bonds && Untouched(s, ctx, ops, lazy, eager, b) && Concerns(op, b, s.bonds[b]) && EndpointsHeld(lazy, op)
    ensures Mirrored(Apply(lazy, op), Apply(eager, op), b)
  {
    hide Arrived, Filtered;
    if op.ExtinguishAsteroids? {
      hide Apply, Connected;
      DeletionAt(lazy, op.ids, b);
      DeletionAt(eager, op.ids, b);
    }
  }

  lemma {:induction false} Fate(s: Snapshot, ctx: Context, ops: seq<Op>, b: Id)
    requires WellFormed(s) && Part(s, ctx) && Handled(ctx, ops)
    ensures var lazy, eager := Run(ctx, ops), Run(Fresh(s), ops);
            if b in s.bonds && Unconcerned(ops, b, s.bonds[b]) then Untouched(s, ctx, ops, lazy, eager, b)
            else Mirrored(lazy, eager, b)
    decreases |ops|
  {
    hide Apply, Mirrored, Untouched, Unconcerned, Handled, BondOk, Concerns;
    if ops == [] {
      AtTheStart(s, ctx, b);
    } else {
      var init, op := ops[..|ops| - 1], ops[|ops| - 1];
      assert ops == init + [op];
      HandledInit(ctx, ops);
      Fate(s, ctx, init, b);
      RunBondOk(s, ctx, init, b);
      var lazy, eager := Run(ctx, init), Run(Fresh(s), init);
      if b in s.bonds {
        ConcernedNext(init, op, b, s.bonds[b]);
      }
      if b in s.bonds && Unconcerned(init, b, s.bonds[b]) {
        if Concerns(op, b, s.bonds[b]) {
          ConcernedIsMirrored(s, ctx, init, lazy, eager, op, b);
        } else {
          UntouchedNext(s, ctx, init, lazy, eager, op, b);
        }
      } else {
        MirroredStays(s, lazy, eager, op, b);
      }
    }
  }

  lemma AtTheStart(s: Snapshot, ctx: Context, b: Id)
    requires Part(s, ctx)
    ensures if b in s.bonds then Untouched(s, ctx, [], ctx, Fresh(s), b) && Unconcerned([], b, s.bonds[b])
            else Mirrored(ctx, Fresh(s), b)
  {
  }

  /** The bonds adrift are exactly those that the full context holds and the partial one does not. */
  lemma {:induction false} AdriftIff(s: Snapshot, ctx: Context, ops: seq<Op>, b: Id)
    requires WellFormed(s) && Part(s, ctx) && Handled(ctx, ops)
    ensures Adrift(s, ctx, ops, b) <==> b in Run(Fresh(s), ops).bonds && b !in Run(ctx, ops).bonds
    ensures Adrift(s, ctx, ops, b) ==> Run(Fresh(s), ops).bonds[b] == s.bonds[b]
  {
    hide Run, Unconcerned, Filtered, Handled, Arrived;
    Fate(s, ctx, ops, b);
  }

  // ---------- Main results ----------

  /** A deletion finds the same connected bonds as in the full context iff no bond adrift touches a target. */
  lemma {:induction false} ConnectedBondsAgreeIff(s: Snapshot, ctx: Context, ops: seq<Op>, ids: seq<Id>)
    requires WellFormed(s) && Part(s, ctx) && Handled(ctx, ops)
    ensures Connected(Run(ctx, ops), ids) == Connected(Run(Fresh(s), ops), ids) <==>
            !exists b :: Adrift(s, ctx, ops, b) && TouchesAny(s.bonds[b], ids)
  {
    hide Run, Unconcerned, Filtered, TouchesAny, Handled, BondOk;
    var lazy, eager := Run(ctx, ops), Run(Fresh(s), ops);
    if b :| Adrift(s, ctx, ops, b) && TouchesAny(s.bonds[b], ids) {
      AdriftIff(s, ctx, ops, b);
      assert b in Connected(eager, ids) && b !in Connected(lazy, ids);
    } else {
      forall b ensures b in Connected(lazy, ids) <==> b in Connected(eager, ids) {
        AdriftIff(s, ctx, ops, b);
        SameWhereHeld(s, ctx, ops, b);
      }
    }
  }

  lemma SameWhereHeld(s: Snapshot, ctx: Context, ops: seq<Op>, b: Id)
    requires WellFormed(s) && Part(s, ctx) && Handled(ctx, ops)
    ensures b in Run(ctx, ops).bonds ==> b in Run(Fresh(s), ops).bonds && Run(Fresh(s), ops).bonds[b] == Run(ctx, ops).bonds[b]
  {
    hide Run, Handled;
    RunBondOk(s, ctx, ops, b);
  }

  /** The `j`-th operation is a deletion that should extinguish the bond but cannot see it. */
  predicate Missed(s: Snapshot, ctx: Context, ops: seq<Op>, j: nat, b: Id) {
    j < |ops| && ops[j].ExtinguishAsteroids? && Adrift(s, ctx, ops[..j], b) && TouchesAny(s.bonds[b], ops[j].ids)
  }

  lemma GoneStays(ctx: Context, op: Op, b: Id)
    requires b in ctx.goneBonds
    ensures b in Apply(ctx, op).goneBonds
  {
    if op.ExtinguishAsteroids? {
      hide Apply;
      DeletionAt(ctx, op.ids, b);
    }
  }

  /** What only the full context records was missed by some deletion. */
  lemma {:induction false} UnrecordedWasMissed(s: Snapshot, ctx: Context, ops: seq<Op>, b: Id)
    requires WellFormed(s) && Part(s, ctx) && Handled(ctx, ops)
    requires b in Run(Fresh(s), ops).goneBonds && b !in Run(ctx, ops).goneBonds
    ensures exists j: nat :: Missed(s, ctx, ops, j, b)
    decreases |ops|
  {
    hide Apply, Handled, Adrift, TouchesAny;
    var last := |ops| - 1;
    var init, op := ops[..last], ops[last];
    HandledInit(ctx, ops);
    var lazy, eager := Run(ctx, init), Run(Fresh(s), init);
    if b in eager.goneBonds {
      if b in lazy.goneBonds { GoneStays(lazy, op, b); }
      UnrecordedWasMissed(s, ctx, init, b);
      var j: nat :| Missed(s, ctx, init, j, b);
      assert init[..j] == ops[..j] && init[j] == ops[j];
      assert Missed(s, ctx, ops, j, b);
    } else {
      SameWhereHeld(s, ctx, init, b);
      assert Run(ctx, ops) == Apply(lazy, op) && Run(Fresh(s), ops) == Apply(eager, op);
      NewlyGone(lazy, eager, op, b);
      AdriftIff(s, ctx, init, b);
      assert Missed(s, ctx, ops, last, b);
    }
  }

  lemma NewlyGone(lazy: Context, eager: Context, op: Op, b: Id)
    requires b !in eager.goneBonds && b in Apply(eager, op).goneBonds && b !in Apply(lazy, op).goneBonds
    requires b in lazy.bonds ==> b in eager.bonds && lazy.bonds[b] == eager.bonds[b]
    ensures op.ExtinguishAsteroids? && b in eager.bonds && b !in lazy.bonds && TouchesAny(eager.bonds[b], op.ids)
  {
    if op.ExtinguishAsteroids? {
      hide Apply;
      DeletionAt(lazy, op.ids, b);
      DeletionAt(eager, op.ids, b);
    }
  }

  lemma {:induction false} MissedIsGone(s: Snapshot, ctx: Context, ops: seq<Op>, j: nat, b: Id)
    requires WellFormed(s) && Part(s, ctx) && Handled(ctx, ops) && Missed(s, ctx, ops, j, b)
    ensures b in Run(Fresh(s), ops).goneBonds
    decreases |ops|
  {
    hide Apply, Handled, Adrift;
    var last := |ops| - 1;
    var init, op := ops[..last], ops[last];
    HandledInit(ctx, ops);
    if j < last {
      assert init[..j] == ops[..j] && init[j] == ops[j];
      MissedIsGone(s, ctx, init, j, b);
      GoneStays(Run(Fresh(s), init), op, b);
    } else {
      AdriftIff(s, ctx, init, b);
      DeletionAt(Run(Fresh(s), init), op.ids, b);
    }
  }

  lemma {:induction false} SameRecordsIff(s: Snapshot, ctx: Context, ops: seq<Op>)
    requires WellFormed(s) && Part(s, ctx) && Handled(ctx, ops)
    ensures Run(ctx, ops).goneBonds == Run(Fresh(s), ops).goneBonds <==>
            forall j: nat, b :: Missed(s, ctx, ops, j, b) ==> b in Run(ctx, ops).goneBonds
  {
    hide Run, Handled, Missed, Related;
    var lazy, eager := Run(ctx, ops), Run(Fresh(s), ops);
    StartRelated(s, ctx);
    GoneRun(s, ctx, Fresh(s), ops);
    if lazy.goneBonds == eager.goneBonds {
      forall j: nat, b | Missed(s, ctx, ops, j, b) ensures b in lazy.goneBonds { MissedIsGone(s, ctx, ops, j, b); }
    }
    if forall j: nat, b :: Missed(s, ctx, ops, j, b) ==> b in lazy.goneBonds {
      forall b | b in eager.goneBonds ensures b in lazy.goneBonds {
        if b !in lazy.goneBonds { UnrecordedWasMissed(s, ctx, ops, b); }
      }
    }
  }

  // ---------- Bonds recorded after a deletion missed them ----------

  /** What the operations last put under the id. */
  function LastPut(ops: seq<Op>, b: Id): Option<Bond> {
    if ops == [] then None else
      var op := ops[|ops| - 1];
      if op.PutBond? && op.id == b then Some(op.bond) else LastPut(ops[..|ops| - 1], b)
  }

  /** The bond is extinguished by name, or an endpoint is deleted of the bond last put under its id. */
  predicate RecordedAt(ops: seq<Op>, k: nat, b: Id)
    requires k < |ops|
  {
    match ops[k]
    case ExtinguishBond(id) => id == b
    case ExtinguishAsteroids(ids) => LastPut(ops[..k], b).Some? && TouchesAny(LastPut(ops[..k], b).value, ids)
    case _ => false
  }

  predicate Recorded(ops: seq<Op>, b: Id) {
    exists k :: 0 <= k < |ops| && RecordedAt(ops, k, b)
  }

  lemma RecordedNext(ops: seq<Op>, op: Op, b: Id)
    ensures Recorded(ops + [op], b) <==> Recorded(ops, b) || RecordedAt(ops + [op], |ops|, b)
  {
    hide TouchesAny, LastPut;
    var all := ops + [op];
    assert forall k :: 0 <= k < |ops| ==> all[..k] == ops[..k] && all[k] == ops[k];
    assert forall k :: 0 <= k < |ops| ==> (RecordedAt(all, k, b) <==> RecordedAt(ops, k, b));
  }

  lemma LastPutNext(ops: seq<Op>, op: Op, b: Id)
    ensures LastPut(ops + [op], b) == if op.PutBond? && op.id == b then Some(op.bond) else LastPut(ops, b)
  {
    assert (ops + [op])[..|ops|] == ops;
  }

  /** Where a bond stands that the run starts without: held as last put, or recorded. */
  predicate Tracked(ctx: Context, ops: seq<Op>, b: Id) {
    && HeldWithEndpoints(ctx, b)
    && (b in ctx.bonds ==> LastPut(ops, b) == Some(ctx.bonds[b]))
    && (LastPut(ops, b).Some? ==> b in ctx.bonds || b in ctx.goneBonds)
    && (b in ctx.goneBonds <==> Recorded(ops, b))
  }

  lemma TrackedNext(ctx: Context, ops: seq<Op>, op: Op, b: Id)
    requires Tracked(ctx, ops, b) && EndpointsHeld(ctx, op)
    ensures Tracked(Apply(ctx, op), ops + [op], b)
  {
    hide Recorded, LastPut;
    LastPutNext(ops, op, b);
    RecordedNext(ops, op, b);
    assert (ops + [op])[..|ops|] == ops && (ops + [op])[|ops|] == op;
    if op.ExtinguishAsteroids? {
      hide Apply;
      DeletionAt(ctx, op.ids, b);
      if b in ctx.bonds {
        DeletionAt(ctx, op.ids, ctx.bonds[b].source);
        DeletionAt(ctx, op.ids, ctx.bonds[b].target);
      }
    }
  }

  /** A bond that is neither held nor recorded at the start gets recorded iff the operations say so. */
  lemma {:induction false} RecordedIff(ctx: Context, ops: seq<Op>, b: Id)
    requires Handled(ctx, ops) && b !in ctx.bonds && b !in ctx.goneBonds
    ensures Tracked(Run(ctx, ops), ops, b)
    decreases |ops|
  {
    hide Apply, Handled, EndpointsHeld;
    if ops != [] {
      hide Tracked;
      var init, op := ops[..|ops| - 1], ops[|ops| - 1];
      assert ops == init + [op];
      HandledInit(ctx, ops);
      RecordedIff(ctx, init, b);
      TrackedNext(Run(ctx, init), init, op, b);
    }
  }

  /** The deletion that missed the bond leaves it neither held nor recorded. */
  lemma LeftBehind(lazy: Context, eager: Context, ids: seq<Id>, b: Id)
    requires b in eager.bonds && b !in lazy.bonds && ReturnOk(lazy, eager, b)
    ensures var next := Apply(lazy, ExtinguishAsteroids(ids)); b !in next.bonds && b !in next.goneBonds
  {
    hide Apply;
    DeletionAt(lazy, ids, b);
  }

  lemma RunReturnOk(s: Snapshot, ctx: Context, ops: seq<Op>, b: Id)
    requires WellFormed(s) && Part(s, ctx) && Handled(ctx, ops)
    ensures ReturnOk(Run(ctx, ops), Run(Fresh(s), ops), b)
  {
    hide Run, BondOk, AsteroidOk, ReturnOk, Handled;
    StartRelated(s, ctx);
    RunsStayRelated(s, ctx, Fresh(s), ops);
  }

  lemma HandledPrefix(ctx: Context, ops: seq<Op>, n: nat)
    requires n <= |ops| && Handled(ctx, ops)
    ensures Handled(ctx, ops[..n])
  {
    hide Run, EndpointsHeld;
    forall i | 0 <= i < n ensures EndpointsHeld(Run(ctx, ops[..n][..i]), ops[..n][i]) {
      assert ops[..n][..i] == ops[..i];
    }
  }

  lemma HandledSuffix(ctx: Context, ops: seq<Op>, n: nat)
    requires n <= |ops| && Handled(ctx, ops)
    ensures Handled(Run(ctx, ops[..n]), ops[n..])
  {
    hide Run, EndpointsHeld;
    forall i | 0 <= i < |ops| - n ensures EndpointsHeld(Run(Run(ctx, ops[..n]), ops[n..][..i]), ops[n..][i]) {
      assert ops[..n] + ops[n..][..i] == ops[..n + i];
      RunInTwo(ctx, ops[..n], ops[n..][..i]);
      assert EndpointsHeld(Run(ctx, ops[..n + i]), ops[n + i]);
    }
  }

  /** After a deletion missed a bond, the partial run records it iff the later operations say so. */
  lemma {:induction false} RecordedAfterMiss(s: Snapshot, ctx: Context, ops: seq<Op>, j: nat, b: Id)
    requires WellFormed(s) && Part(s, ctx) && Handled(ctx, ops) && Missed(s, ctx, ops, j, b)
    ensures b in Run(ctx, ops).goneBonds <==> Recorded(ops[j + 1..], b)
  {
    hide Apply, Handled, Adrift, ReturnOk, Recorded, TouchesAny, LastPut, HeldWithEndpoints;
    var before, through := ops[..j], ops[..j + 1];
    HandledPrefix(ctx, ops, j);
    AdriftIff(s, ctx, before, b);
    RunReturnOk(s, ctx, before, b);
    LeftBehind(Run(ctx, before), Run(Fresh(s), before), ops[j].ids, b);
    assert through[..|through| - 1] == before;
    HandledSuffix(ctx, ops, j + 1);
    RecordedIff(Run(ctx, through), ops[j + 1..], b);
    assert through + ops[j + 1..] == ops;
    RunInTwo(ctx, through, ops[j + 1..]);
  }

  /**
   The partial run reports the same extinguished bonds as the full one iff every bond that a deletion
   missed is, by a later operation, extinguished by name or put again and then deleted with an endpoint.
   */
  lemma {:induction false} SameBondsRecordedIff(s: Snapshot, ctx: Context, ops: seq<Op>)
    requires WellFormed(s) && Part(s, ctx) && Handled(ctx, ops)
    ensures Run(ctx, ops).goneBonds == Run(Fresh(s), ops).goneBonds <==>
            forall j: nat, b :: Missed(s, ctx, ops, j, b) ==> Recorded(ops[j + 1..], b)
  {
    hide Run, Handled, Adrift, TouchesAny, Recorded;
    SameRecordsIff(s, ctx, ops);
    forall j: nat, b | Missed(s, ctx, ops, j, b) ensures b in Run(ctx, ops).goneBonds <==> Recorded(ops[j + 1..], b) {
      RecordedAfterMiss(s, ctx, ops, j, b);
    }
  }

  // ---------- Batches of deletions ----------

  predicate DeletesLoaded(ctx: Context, batch: seq<seq<Id>>) {
    forall j :: 0 <= j < |batch| ==> forall a :: a in batch[j] ==> a in ctx.asteroids
  }

  function Deletions(batch: seq<seq<Id>>): (ops: seq<Op>)
    ensures |ops| == |batch| && forall j :: 0 <= j < |batch| ==> ops[j] == ExtinguishAsteroids(batch[j])
  {
    seq(|batch|, j requires 0 <= j < |batch| => ExtinguishAsteroids(batch[j]))
  }

  /** A half-loaded bond that a later deletion touches and no earlier one does. */
  predicate SlipsAt(ctx: Context, batch: seq<seq<Id>>, j: nat, b: Id) {
    && 0 < j < |batch| && b in ctx.bonds && !HasEndpoints(ctx.bonds[b], ctx.asteroids)
    && TouchesAny(ctx.bonds[b], batch[j]) && forall i :: 0 <= i < j ==> !TouchesAny(ctx.bonds[b], batch[i])
  }

  lemma DeletionsAreHandled(ctx: Context, batch: seq<seq<Id>>)
    ensures Handled(ctx, Deletions(batch))
  {
    hide Run;
  }

  lemma NothingArrives(ctx: Context, batch: seq<seq<Id>>, i: nat, a: Id)
    requires i <= |batch|
    ensures Arrived(ctx, Deletions(batch)[..i], a) <==> a in ctx.asteroids
  {
  }

  lemma {:induction false} SlipsAreMissed(s: Snapshot, ctx: Context, batch: seq<seq<Id>>, j: nat, b: Id)
    requires Part(s, ctx) && LoadedConnected(s, ctx) && DeletesLoaded(ctx, batch)
    ensures Missed(s, ctx, Deletions(batch), j, b) <==> SlipsAt(ctx, batch, j, b)
  {
    hide Arrived;
    var ops := Deletions(batch);
    if j < |batch| && b in s.bonds {
      var bond := s.bonds[b];
      forall i | 0 <= i <= j ensures forall a :: Arrived(ctx, ops[..i], a) <==> a in ctx.asteroids {
        forall a ensures Arrived(ctx, ops[..i], a) <==> a in ctx.asteroids { NothingArrives(ctx, batch, i, a); }
      }
      assert forall i :: 0 <= i < j ==> ops[..j][..i] == ops[..i] && ops[..j][i] == ops[i];
      if 0 < j && !HasEndpoints(bond, ctx.asteroids) {
        assert ops[..j][0].ExtinguishAsteroids?;
        assert Filtered(ctx, ops[..j], bond);
      }
      assert Filtered(ctx, ops[..j], bond) ==> 0 < j && !HasEndpoints(bond, ctx.asteroids);
      assert Unconcerned(ops[..j], b, bond) <==> forall i :: 0 <= i < j ==> !TouchesAny(bond, batch[i]);
      if TouchesAny(bond, batch[j]) { assert b in ctx.bonds; }
    }
  }

  /** A missed bond stays unrecorded when nothing is ever put. */
  lemma {:induction false} DeletionsNeverRecord(ctx: Context, batch: seq<seq<Id>>, b: Id)
    requires b !in ctx.bonds && b !in ctx.goneBonds
    ensures b !in Run(ctx, Deletions(batch)).bonds && b !in Run(ctx, Deletions(batch)).goneBonds
    decreases |batch|
  {
    hide Apply;
    if batch != [] {
      var last := |batch| - 1;
      DeletionsNeverRecord(ctx, batch[..last], b);
      assert Deletions(batch)[..last] == Deletions(batch[..last]);
      DeletionAt(Run(ctx, Deletions(batch[..last])), batch[last], b);
    }
  }

  lemma {:induction false} SlippedIsUnrecorded(ctx: Context, batch: seq<seq<Id>>, j: nat, b: Id)
    requires SlipsAt(ctx, batch, j, b) && ctx.goneBonds == {}
    ensures b !in Run(ctx, Deletions(batch)).bonds && b !in Run(ctx, Deletions(batch)).goneBonds
    decreases |batch|
  {
    hide Apply;
    var first := Apply(ctx, ExtinguishAsteroids(batch[0]));
    DeletionAt(ctx, batch[0], b);
    assert Deletions(batch) == [ExtinguishAsteroids(batch[0])] + Deletions(batch[1..]);
    RunInTwo(ctx, [ExtinguishAsteroids(batch[0])], Deletions(batch[1..]));
    assert [ExtinguishAsteroids(batch[0])][..0] == [];
    assert Run(ctx, [ExtinguishAsteroids(batch[0])]) == first;
    DeletionsNeverRecord(first, batch[1..], b);
  }

  /**
   For a batch of deletions of loaded asteroids: the extinguished bonds are reported as from the full
   context iff every loaded bond with an endpoint that is not loaded is touched by the first deletion
   or by none.
   */
  lemma {:induction false} DeleteBatchReportsTheSameIff(s: Snapshot, ctx: Context, batch: seq<seq<Id>>)
    requires WellFormed(s) && Part(s, ctx) && LoadedConnected(s, ctx) && DeletesLoaded(ctx, batch)
    ensures Run(ctx, Deletions(batch)).goneBonds == Run(Fresh(s), Deletions(batch)).goneBonds <==>
            !exists j: nat, b :: SlipsAt(ctx, batch, j, b)
  {
    hide Run, Missed, SlipsAt, Handled, LoadedConnected, DeletesLoaded, WellFormed;
    var ops := Deletions(batch);
    DeletionsAreHandled(ctx, batch);
    SameRecordsIff(s, ctx, ops);
    if j: nat, b :| SlipsAt(ctx, batch, j, b) {
      SlipsAreMissed(s, ctx, batch, j, b);
      SlippedIsUnrecorded(ctx, batch, j, b);
    } else {
      forall j: nat, b | Missed(s, ctx, ops, j, b) ensures b in Run(ctx, ops).goneBonds {
        SlipsAreMissed(s, ctx, batch, j, b);
      }
    }
  }

  /** What a batch that deletes asteroids 1 and 2 of the galaxy loads: both, and bond 10, but not the bond's other end. */
  const DELETE_LOADED: Context := Context(GALAXY.asteroids - {3}, GALAXY.bonds, {}, {})

  /** Deleting 1 and then 2: the load is right for both tasks, yet the second one misses the bond. */
  lemma SecondDeletionMissesBond()
    ensures Part(GALAXY, DELETE_LOADED) && LoadedConnected(GALAXY, DELETE_LOADED)
    ensures SeesTheSame(GALAXY, DELETE_LOADED, Extinguish(false, Some(1), None))
    ensures SeesTheSame(GALAXY, DELETE_LOADED, Extinguish(false, Some(2), None))
    ensures var ops := Deletions([[1], [2]]);
            && Connected(Run(DELETE_LOADED, ops[..1]), [2]) == {} && Connected(Run(Fresh(GALAXY), ops[..1]), [2]) == {10}
            && Run(DELETE_LOADED, ops).goneBonds == {} && Run(Fresh(GALAXY), ops).goneBonds == {10}
  {
    hide Run, Apply, SeesTheSame, Connected;
    var ops := Deletions([[1], [2]]);
    assert ops == [ExtinguishAsteroids([1]), ExtinguishAsteroids([2])];
    TwoSteps(DELETE_LOADED, ops[0], ops[1]);
    TwoSteps(Fresh(GALAXY), ops[0], ops[1]);
    LazyDeletions();
    EagerDeletions();
    LoadSeesTheSame();
  }

  lemma LoadSeesTheSame()
    ensures SeesTheSame(GALAXY, DELETE_LOADED, Extinguish(false, Some(1), None))
    ensures SeesTheSame(GALAXY, DELETE_LOADED, Extinguish(false, Some(2), None))
  {
  }

  lemma SingleDeletion(ctx: Context, a: Id)
    ensures var next := ExtinguishOne(ctx, a);
            Apply(ctx, ExtinguishAsteroids([a])) == next.(bonds := Closed(next.bonds, next.asteroids))
  {
    hide ExtinguishOne, Closed;
    assert [a][..0] == [] && ExtinguishEach(ctx, []) == ctx;
    assert ExtinguishEach(ctx, [a]) == ExtinguishOne(ctx, a);
  }

  lemma LazyDeletions()
    ensures var first := Apply(DELETE_LOADED, ExtinguishAsteroids([1]));
            && Connected(first, [2]) == {}
            && Apply(first, ExtinguishAsteroids([2])).goneBonds == {}
  {
    hide Apply;
    var first := Context(GALAXY.asteroids - {3} - {1}, map[], {1}, {});
    SingleDeletion(DELETE_LOADED, 1);
    assert Touching(GALAXY.bonds, 1) == {};
    assert Apply(DELETE_LOADED, ExtinguishAsteroids([1])) == first;
    SingleDeletion(first, 2);
    assert Touching(first.bonds, 2) == {};
  }

  lemma EagerDeletions()
    ensures var first := Apply(Fresh(GALAXY), ExtinguishAsteroids([1]));
            && Connected(first, [2]) == {10}
            && Apply(first, ExtinguishAsteroids([2])).goneBonds == {10}
  {
    hide Apply;
    var first := Context(GALAXY.asteroids - {1}, GALAXY.bonds, {1}, {});
    SingleDeletion(Fresh(GALAXY), 1);
    assert Touching(GALAXY.bonds, 1) == {};
    assert Apply(Fresh(GALAXY), ExtinguishAsteroids([1])) == first;
    SingleDeletion(first, 2);
    assert Touching(first.bonds, 2) == {10};
  }
}
