/**
 The handlers' lookups that do not go by a planned id: INGEST's by value, LINK's by edge and
 EXTINGUISH's by text.  INGEST and LINK fall back on the persisted rows, which no task of the batch
 has changed yet, since projection only follows the last task.  Each is compared between the
 partial context and the one that started from the whole snapshot, after any operations.
 */
module Lookups {
  import opened Values
  import opened Hydration
  import opened Preload
  import opened PartialRuns

  // ---------- Rows that only the full context holds ----------

  predicate Names(op: Op, a: Id) {
    match op
    case PutAsteroid(id, _) => id == a
    case ExtinguishAsteroids(ids) => a in ids
    case _ => false
  }

  /** Loaded, put or deleted: the partial run knows more of the row than the persisted state says. */
  predicate Known(ctx: Context, ops: seq<Op>, a: Id) {
    a in ctx.asteroids || exists i :: 0 <= i < |ops| && Names(ops[i], a)
  }

  lemma KnownNext(ctx: Context, ops: seq<Op>, op: Op, a: Id)
    ensures Known(ctx, ops + [op], a) <==> Known(ctx, ops, a) || Names(op, a)
  {
    hide Names;
    var all := ops + [op];
    assert all[|ops|] == op && forall i :: 0 <= i < |ops| ==> all[i] == ops[i];
  }

  lemma {:induction false} EachRecords(ctx: Context, ids: seq<Id>, a: Id)
    ensures a in ExtinguishEach(ctx, ids).goneAsteroids <==> a in ctx.goneAsteroids || a in ids
    decreases |ids|
  {
    if ids != [] {
      var init, last := ids[..|ids| - 1], ids[|ids| - 1];
      EachRecords(ctx, init, a);
      assert a in ids <==> a in init || a == last by { assert ids == init + [last]; }
    }
  }

  lemma {:induction false} KnownIff(ctx: Context, ops: seq<Op>, a: Id)
    requires ctx.goneAsteroids == {}
    ensures a in Run(ctx, ops).asteroids || a in Run(ctx, ops).goneAsteroids <==> Known(ctx, ops, a)
    decreases |ops|
  {
    hide ExtinguishEach, Closed;
    if ops != [] {
      hide Known;
      var init, op := ops[..|ops| - 1], ops[|ops| - 1];
      assert ops == init + [op];
      KnownIff(ctx, init, a);
      KnownNext(ctx, init, op, a);
      if op.ExtinguishAsteroids? {
        EachRecords(Run(ctx, init), op.ids, a);
        EachAt(Run(ctx, init), op.ids, a);
      }
    }
  }

  lemma RunAsteroidOk(s: Snapshot, ctx: Context, ops: seq<Op>, a: Id)
    requires WellFormed(s) && Part(s, ctx) && Handled(ctx, ops)
    ensures AsteroidOk(s, Run(ctx, ops), Run(Fresh(s), ops), a)
  {
    hide Run, BondOk, AsteroidOk, ReturnOk, Handled;
    StartRelated(s, ctx);
    RunsStayRelated(s, ctx, Fresh(s), ops);
  }

  /** The partial context lacks exactly the snapshot's rows that it never came to know, and these are unchanged. */
  lemma {:induction false} StrayIff(s: Snapshot, ctx: Context, ops: seq<Op>, a: Id)
    requires WellFormed(s) && Part(s, ctx) && Handled(ctx, ops)
    ensures var lazy, eager := Run(ctx, ops), Run(Fresh(s), ops);
            && (a in lazy.asteroids ==> a in eager.asteroids && eager.asteroids[a] == lazy.asteroids[a])
            && (a in eager.asteroids && a !in lazy.asteroids <==> a in s.asteroids && !Known(ctx, ops, a))
            && (a in eager.asteroids && a !in lazy.asteroids ==> eager.asteroids[a] == s.asteroids[a])
  {
    hide Run, Handled, Known;
    RunAsteroidOk(s, ctx, ops, a);
    RunReturnOk(s, ctx, ops, a);
    KnownIff(ctx, ops, a);
  }

  // ---------- INGEST: by value and table ----------

  /** The value asked for, and the table it belongs to by its metadata. */
  datatype Wanted = Wanted(value: Json, table: string, tableOf: Asteroid -> string)

  predicate Fits(row: Asteroid, w: Wanted) {
    row.value == w.value && w.tableOf(row) == w.table
  }

  function Fitting(rows: map<Id, Asteroid>, w: Wanted): set<Id> {
    set a | a in rows && Fits(rows[a], w)
  }

  /** Some persisted row with the value, whichever the database returns first. */
  predicate IsCandidate(s: Snapshot, value: Json, candidate: Option<Id>) {
    match candidate
    case Some(a) => a in s.asteroids && s.asteroids[a].value == value
    case None => forall a :: a in s.asteroids ==> s.asteroids[a].value != value
  }

  /** The rows of which INGEST reuses one; it creates a row when there is none. */
  function IngestFinds(s: Snapshot, ctx: Context, partialScope: bool, w: Wanted, candidate: Option<Id>): set<Id>
    requires IsCandidate(s, w.value, candidate)
  {
    if Fitting(ctx.asteroids, w) != {} || !partialScope || candidate.None? then Fitting(ctx.asteroids, w)
    else if Fits(s.asteroids[candidate.value], w) then {candidate.value}
    else Fitting(Hydrate(s, ctx).asteroids, w)
  }

  /** The context after the lookup: a reused candidate is put as persisted, one of another table means hydration. */
  function IngestLeaves(s: Snapshot, ctx: Context, partialScope: bool, w: Wanted, candidate: Option<Id>): Context
    requires IsCandidate(s, w.value, candidate)
  {
    if Fitting(ctx.asteroids, w) != {} || !partialScope || candidate.None? then ctx
    else if Fits(s.asteroids[candidate.value], w) then Apply(ctx, PutAsteroid(candidate.value, s.asteroids[candidate.value]))
    else Hydrate(s, ctx)
  }

  /** The lookup changes a context only when it falls back: a full one never, a partial one by the candidate's row or to its hydration. */
  lemma IngestLeavesMeans(s: Snapshot, ctx: Context, partialScope: bool, w: Wanted, candidate: Option<Id>)
    requires IsCandidate(s, w.value, candidate)
    ensures var t := IngestLeaves(s, ctx, partialScope, w, candidate);
            var falls := partialScope && candidate.Some? && forall a :: a in ctx.asteroids ==> !Fits(ctx.asteroids[a], w);
            && (!falls ==> t == ctx)
            && (falls && Fits(s.asteroids[candidate.value], w) ==> t == ctx.(asteroids := ctx.asteroids[candidate.value := s.asteroids[candidate.value]]))
            && (falls && !Fits(s.asteroids[candidate.value], w) ==> t == Hydrate(s, ctx))
  {
    hide Hydrate, Fits;
    if Fitting(ctx.asteroids, w) != {} {
      var a :| a in Fitting(ctx.asteroids, w);
      assert Fits(ctx.asteroids[a], w);
    } else {
      forall a | a in ctx.asteroids ensures !Fits(ctx.asteroids[a], w) { assert a !in Fitting(ctx.asteroids, w); }
    }
  }

  /** The partial context has nothing that fits, and the candidate does. */
  predicate FallsBack(s: Snapshot, ctx: Context, ops: seq<Op>, w: Wanted, candidate: Option<Id>)
    requires IsCandidate(s, w.value, candidate)
  {
    Fitting(Run(ctx, ops).asteroids, w) == {} && candidate.Some? && Fits(s.asteroids[candidate.value], w)
  }

  /** What fits in the full context fits in the partial one or is a persisted row the partial run does not know. */
  lemma {:induction false} FittingSplit(s: Snapshot, ctx: Context, ops: seq<Op>, w: Wanted, a: Id)
    requires WellFormed(s) && Part(s, ctx) && Handled(ctx, ops)
    ensures a in Fitting(Run(Fresh(s), ops).asteroids, w) <==>
            || a in Fitting(Run(ctx, ops).asteroids, w)
            || (a in s.asteroids && Fits(s.asteroids[a], w) && !Known(ctx, ops, a))
  {
    hide Run, Handled, Known, Fits;
    StrayIff(s, ctx, ops, a);
  }

  /** Where the partial context has nothing that fits, hydrating finds what the full context has. */
  lemma {:induction false} HydratedFitting(s: Snapshot, ctx: Context, ops: seq<Op>, w: Wanted)
    requires WellFormed(s) && Part(s, ctx) && Handled(ctx, ops) && Fitting(Run(ctx, ops).asteroids, w) == {}
    ensures Fitting(Hydrate(s, Run(ctx, ops)).asteroids, w) == Fitting(Run(Fresh(s), ops).asteroids, w)
  {
    hide Run, Handled, Known, Fits, Hydrate;
    var lazy, eager := Run(ctx, ops), Run(Fresh(s), ops);
    forall a ensures a in Fitting(Hydrate(s, lazy).asteroids, w) <==> a in Fitting(eager.asteroids, w) {
      FittingSplit(s, ctx, ops, w, a);
      KnownIff(ctx, ops, a);
      HydrateMeans(s, lazy, a);
      if a in lazy.asteroids { assert a !in Fitting(lazy.asteroids, w); }
    }
  }

  /**
   INGEST creates a row in both contexts or in neither, except when it falls back on a persisted row
   while every persisted row that fits has been loaded, put or deleted: it then revives an outdated
   row where the full context creates a new one.
   */
  lemma {:induction false} IngestCreatesAlikeIff(s: Snapshot, ctx: Context, ops: seq<Op>, w: Wanted, candidate: Option<Id>)
    requires WellFormed(s) && Part(s, ctx) && Handled(ctx, ops) && IsCandidate(s, w.value, candidate)
    ensures (IngestFinds(s, Run(ctx, ops), true, w, candidate) == {} <==> IngestFinds(s, Run(Fresh(s), ops), false, w, candidate) == {})
            <==> !(FallsBack(s, ctx, ops, w, candidate)
                   && forall a :: a in s.asteroids && Fits(s.asteroids[a], w) ==> Known(ctx, ops, a))
  {
    hide Run, Handled, Known, Fits, Fitting, Hydrate;
    var lazy, eager := Run(ctx, ops), Run(Fresh(s), ops);
    forall a ensures a in Fitting(eager.asteroids, w) <==>
                     a in Fitting(lazy.asteroids, w) || (a in s.asteroids && Fits(s.asteroids[a], w) && !Known(ctx, ops, a)) {
      FittingSplit(s, ctx, ops, w, a);
    }
    if Fitting(lazy.asteroids, w) == {} {
      HydratedFitting(s, ctx, ops, w);
      if candidate.None? { NothingFits(s, w); }
    } else {
      var a :| a in Fitting(lazy.asteroids, w);
      assert a in Fitting(eager.asteroids, w);
    }
  }

  lemma NothingFits(s: Snapshot, w: Wanted)
    requires IsCandidate(s, w.value, None)
    ensures forall a :: a in s.asteroids ==> !Fits(s.asteroids[a], w)
  {
  }

  /** Whatever INGEST reuses, the full context could reuse as well, unless the row it falls back on is known to be outdated. */
  lemma {:induction false} IngestReusesAlikeIff(s: Snapshot, ctx: Context, ops: seq<Op>, w: Wanted, candidate: Option<Id>)
    requires WellFormed(s) && Part(s, ctx) && Handled(ctx, ops) && IsCandidate(s, w.value, candidate)
    ensures IngestFinds(s, Run(ctx, ops), true, w, candidate) <= IngestFinds(s, Run(Fresh(s), ops), false, w, candidate)
            <==> !(FallsBack(s, ctx, ops, w, candidate) && Known(ctx, ops, candidate.value))
  {
    hide Run, Handled, Known, Fits, Fitting, Hydrate;
    var lazy, eager := Run(ctx, ops), Run(Fresh(s), ops);
    forall a ensures a in Fitting(eager.asteroids, w) <==>
                     a in Fitting(lazy.asteroids, w) || (a in s.asteroids && Fits(s.asteroids[a], w) && !Known(ctx, ops, a)) {
      FittingSplit(s, ctx, ops, w, a);
    }
    if Fitting(lazy.asteroids, w) == {} {
      HydratedFitting(s, ctx, ops, w);
    }
    if FallsBack(s, ctx, ops, w, candidate) {
      assert candidate.value in IngestFinds(s, lazy, true, w, candidate);
    }
  }

  /** Bringing in a row or bond that only the full context holds leaves that context as it is. */
  lemma {:induction false} OnDemandPutsNothingNew(s: Snapshot, ctx: Context, ops: seq<Op>, x: Id)
    requires WellFormed(s) && Part(s, ctx) && Handled(ctx, ops)
    ensures x in s.asteroids && !Known(ctx, ops, x) ==> Apply(Run(Fresh(s), ops), PutAsteroid(x, s.asteroids[x])) == Run(Fresh(s), ops)
    ensures Adrift(s, ctx, ops, x) ==> Apply(Run(Fresh(s), ops), PutBond(x, s.bonds[x])) == Run(Fresh(s), ops)
  {
    hide Run, Handled, Known, Unconcerned, Filtered;
    StrayIff(s, ctx, ops, x);
    AdriftIff(s, ctx, ops, x);
  }

  // ---------- LINK: by edge ----------

  /** The bond has the wanted kind and joins the endpoints, either way round for a relation. */
  predicate OnEdge(bond: Bond, edge: Bond) {
    && Upper(bond.kind) == edge.kind
    && ((bond.source == edge.source && bond.target == edge.target)
        || (edge.kind == "RELATION" && bond.source == edge.target && bond.target == edge.source))
  }

  /** The kinds agree in upper case; a relation goes by its set of ends, any other kind by source and target. */
  lemma OnEdgeMeans(bond: Bond, edge: Bond)
    ensures OnEdge(bond, edge) ==> Upper(bond.kind) == edge.kind
    ensures edge.kind == "RELATION" && Upper(bond.kind) == "RELATION" ==>
              (OnEdge(bond, edge) <==> {bond.source, bond.target} == {edge.source, edge.target})
    ensures edge.kind != "RELATION" && Upper(bond.kind) == edge.kind ==>
              (OnEdge(bond, edge) <==> bond.source == edge.source && bond.target == edge.target)
  {
    SamePairMeans(bond, edge);
  }

  function BondsOn(bonds: map<Id, Bond>, edge: Bond): set<Id> {
    set b | b in bonds && OnEdge(bonds[b], edge)
  }

  predicate SeveralOn(s: Snapshot, edge: Bond) {
    exists a, b :: a in BondsOn(s.bonds, edge) && b in BondsOn(s.bonds, edge) && a != b
  }

  /** The bonds of which LINK reuses one, a held one first; it creates a bond when there is none. */
  function LinkFinds(s: Snapshot, ctx: Context, edge: Bond): set<Id> {
    if BondsOn(ctx.bonds, edge) != {} then BondsOn(ctx.bonds, edge) else BondsOn(s.bonds, edge)
  }

  /** The persisted lookup fails on more than one row. */
  predicate LinkFails(s: Snapshot, ctx: Context, edge: Bond) {
    BondsOn(ctx.bonds, edge) == {} && SeveralOn(s, edge)
  }

  lemma {:induction false} OnEdgeSplit(s: Snapshot, ctx: Context, ops: seq<Op>, edge: Bond, b: Id)
    requires WellFormed(s) && Part(s, ctx) && Handled(ctx, ops)
    ensures b in BondsOn(Run(Fresh(s), ops).bonds, edge) <==>
            b in BondsOn(Run(ctx, ops).bonds, edge) || (Adrift(s, ctx, ops, b) && OnEdge(s.bonds[b], edge))
    ensures Adrift(s, ctx, ops, b) && OnEdge(s.bonds[b], edge) ==> b in BondsOn(s.bonds, edge)
  {
    hide Run, Handled, Unconcerned, Filtered, OnEdge;
    AdriftIff(s, ctx, ops, b);
    SameWhereHeld(s, ctx, ops, b);
  }

  /**
   LINK creates a bond in both contexts or in neither; with at most one persisted bond on the edge,
   what the partial context reuses the full one could reuse too.
   */
  lemma {:induction false} LinkFindsAlike(s: Snapshot, ctx: Context, ops: seq<Op>, edge: Bond)
    requires WellFormed(s) && Part(s, ctx) && Handled(ctx, ops)
    ensures LinkFinds(s, Run(ctx, ops), edge) == {} <==> LinkFinds(s, Run(Fresh(s), ops), edge) == {}
    ensures !SeveralOn(s, edge) ==> LinkFinds(s, Run(ctx, ops), edge) <= LinkFinds(s, Run(Fresh(s), ops), edge)
  {
    hide Run, Handled, Adrift, OnEdge, BondsOn;
    var lazy, eager := Run(ctx, ops), Run(Fresh(s), ops);
    forall b ensures b in BondsOn(lazy.bonds, edge) ==> b in BondsOn(eager.bonds, edge)
             ensures b in BondsOn(eager.bonds, edge) ==> b in BondsOn(lazy.bonds, edge) || b in BondsOn(s.bonds, edge) {
      OnEdgeSplit(s, ctx, ops, edge, b);
    }
  }

  /** LINK fails on a doubled edge in both contexts or in neither, unless only the full context still holds a bond of it. */
  lemma {:induction false} LinkFailsAlikeIff(s: Snapshot, ctx: Context, ops: seq<Op>, edge: Bond)
    requires WellFormed(s) && Part(s, ctx) && Handled(ctx, ops)
    ensures (LinkFails(s, Run(ctx, ops), edge) <==> LinkFails(s, Run(Fresh(s), ops), edge)) <==>
            !(LinkFails(s, Run(ctx, ops), edge) && exists b :: Adrift(s, ctx, ops, b) && OnEdge(s.bonds[b], edge))
  {
    hide Run, Handled, Unconcerned, Filtered, OnEdge, BondsOn, SeveralOn;
    var lazy, eager := Run(ctx, ops), Run(Fresh(s), ops);
    forall b ensures b in BondsOn(eager.bonds, edge) <==>
                     b in BondsOn(lazy.bonds, edge) || (Adrift(s, ctx, ops, b) && OnEdge(s.bonds[b], edge)) {
      OnEdgeSplit(s, ctx, ops, edge, b);
    }
    if b :| b in BondsOn(lazy.bonds, edge) { assert b in BondsOn(eager.bonds, edge); }
  }

  // ---------- EXTINGUISH: by id, else by text ----------

  /** The target's text, stripped and in lower case, and the id it reads as, if any. */
  datatype Target = Target(id: Option<Id>, needle: string, textOf: Asteroid -> string)

  predicate Occurs(needle: string, text: string) {
    needle <= text || (text != "" && Occurs(needle, text[1..]))
  }

  function Equal(rows: map<Id, Asteroid>, t: Target): set<Id> {
    set a | a in rows && Lower(Strip(t.textOf(rows[a]))) == t.needle
  }

  function Containing(rows: map<Id, Asteroid>, t: Target): set<Id> {
    set a | a in rows && Occurs(t.needle, Lower(t.textOf(rows[a])))
  }

  /** The rows of which the first is deleted: the one with the id, else those of that text, else those containing it. */
  function TargetFinds(rows: map<Id, Asteroid>, t: Target): set<Id> {
    if t.needle == "" then {}
    else if t.id.Some? && t.id.value in rows then {t.id.value}
    else if Equal(rows, t) != {} then Equal(rows, t)
    else Containing(rows, t)
  }

  lemma {:induction false} EqualSplit(s: Snapshot, ctx: Context, ops: seq<Op>, t: Target, a: Id)
    requires WellFormed(s) && Part(s, ctx) && Handled(ctx, ops)
    ensures a in Equal(Run(Fresh(s), ops).asteroids, t) <==>
            a in Equal(Run(ctx, ops).asteroids, t) || (a in Equal(s.asteroids, t) && !Known(ctx, ops, a))
    ensures a in Containing(Run(Fresh(s), ops).asteroids, t) <==>
            a in Containing(Run(ctx, ops).asteroids, t) || (a in Containing(s.asteroids, t) && !Known(ctx, ops, a))
    ensures a in s.asteroids && !Known(ctx, ops, a) ==> a !in Equal(Run(ctx, ops).asteroids, t) && a !in Containing(Run(ctx, ops).asteroids, t)
  {
    hide Run, Handled, Known, Occurs, Strip, Lower;
    StrayIff(s, ctx, ops, a);
  }

  /**
   A planned deletion by text finds the same rows in both contexts iff the id is held, or no row the
   partial run does not know has the text, nor, when no held row has it, contains it.
   */
  lemma {:induction false} TargetFindsAlikeIff(s: Snapshot, ctx: Context, ops: seq<Op>, t: Target)
    requires WellFormed(s) && Part(s, ctx) && Handled(ctx, ops)
    requires t.id.Some? && t.needle != "" && SeesTheSame(s, ctx, Extinguish(false, None, t.id))
    ensures var lazy := Run(ctx, ops);
            TargetFinds(lazy.asteroids, t) == TargetFinds(Run(Fresh(s), ops).asteroids, t) <==>
            || t.id.value in lazy.asteroids
            || ((forall a :: a in Equal(s.asteroids, t) ==> Known(ctx, ops, a))
                && (Equal(lazy.asteroids, t) != {} || forall a :: a in Containing(s.asteroids, t) ==> Known(ctx, ops, a)))
  {
    hide Run, Handled, Known, Equal, Containing, Touching;
    var lazy, eager := Run(ctx, ops), Run(Fresh(s), ops);
    PlannedTasksReadTheSame(s, ctx, ops, Extinguish(false, None, t.id));
    if t.id.value !in lazy.asteroids {
      TextFindsAlikeIff(s, ctx, ops, t);
    }
  }

  function ByText(rows: map<Id, Asteroid>, t: Target): set<Id> {
    if Equal(rows, t) != {} then Equal(rows, t) else Containing(rows, t)
  }

  lemma {:induction false} TextFindsAlikeIff(s: Snapshot, ctx: Context, ops: seq<Op>, t: Target)
    requires WellFormed(s) && Part(s, ctx) && Handled(ctx, ops)
    ensures var lazy := Run(ctx, ops);
            ByText(lazy.asteroids, t) == ByText(Run(Fresh(s), ops).asteroids, t) <==>
            && (forall a :: a in Equal(s.asteroids, t) ==> Known(ctx, ops, a))
            && (Equal(lazy.asteroids, t) != {} || forall a :: a in Containing(s.asteroids, t) ==> Known(ctx, ops, a))
  {
    hide Run, Handled, Known, Equal, Containing;
    var lazy, eager := Run(ctx, ops), Run(Fresh(s), ops);
    forall a ensures a in Equal(eager.asteroids, t) <==>
                     a in Equal(lazy.asteroids, t) || (a in Equal(s.asteroids, t) && !Known(ctx, ops, a))
             ensures a in Containing(eager.asteroids, t) <==>
                     a in Containing(lazy.asteroids, t) || (a in Containing(s.asteroids, t) && !Known(ctx, ops, a))
             ensures a in Equal(s.asteroids, t) + Containing(s.asteroids, t) && !Known(ctx, ops, a) ==>
                     a !in Equal(lazy.asteroids, t) && a !in Containing(lazy.asteroids, t) {
      EqualSplit(s, ctx, ops, t, a);
      TextsAreHeld(s.asteroids, t, a);
    }
    if a :| a in Equal(s.asteroids, t) && !Known(ctx, ops, a) {
      assert a in ByText(eager.asteroids, t) && a !in ByText(lazy.asteroids, t);
    } else {
      assert Equal(lazy.asteroids, t) == Equal(eager.asteroids, t);
      if Equal(lazy.asteroids, t) == {} {
        if a :| a in Containing(s.asteroids, t) && !Known(ctx, ops, a) {
          assert a in ByText(eager.asteroids, t) && a !in ByText(lazy.asteroids, t);
        } else {
          assert Containing(lazy.asteroids, t) == Containing(eager.asteroids, t);
        }
      }
    }
  }

  lemma TextsAreHeld(rows: map<Id, Asteroid>, t: Target, a: Id)
    ensures a in Equal(rows, t) + Containing(rows, t) ==> a in rows
  {
  }

  // ---------- Inputs on which the contexts differ ----------

  /** A galaxy of one asteroid, and the same with nothing loaded. */
  const LONE: Snapshot := Snapshot(map[1 := Asteroid(JText("x7"), map[])], map[])
  const NOTHING_LOADED: Context := Context(map[], map[], {}, {})
  const ASKED: Wanted := Wanted(JText("x7"), "t", _ => "t")

  /**
   Once its value was changed, or the row deleted, INGEST of the old value revives the row in the
   partial context, where the full one creates a new row; yet every planned row reads the same.
   */
  lemma OutdatedRowIsRevived(op: Op)
    requires op == PutAsteroid(1, Asteroid(JText("y"), map[])) || op == ExtinguishAsteroids([1])
    ensures Part(LONE, Fresh(LONE)) && Handled(Fresh(LONE), [op]) && IsCandidate(LONE, ASKED.value, Some(1))
    ensures SeesTheSame(LONE, Fresh(LONE), UpdateAsteroid(Some(1))) && SeesTheSame(LONE, Fresh(LONE), Extinguish(false, Some(1), None))
    ensures IngestFinds(LONE, Run(Fresh(LONE), [op]), true, ASKED, Some(1)) == {1}
    ensures IngestFinds(LONE, Run(Fresh(LONE), [op]), false, ASKED, Some(1)) == {}
  {
    hide Apply, Hydrate;
    var ctx := Fresh(LONE);
    assert [op][..0] == [];
    assert Run(ctx, [op]) == Apply(ctx, op);
    assert Fitting(Apply(ctx, op).asteroids, ASKED) == {} by { NothingLeft(op); }
    assert Fits(LONE.asteroids[1], ASKED);
  }

  lemma NothingLeft(op: Op)
    requires op == PutAsteroid(1, Asteroid(JText("y"), map[])) || op == ExtinguishAsteroids([1])
    ensures forall a :: a in Apply(Fresh(LONE), op).asteroids ==> Apply(Fresh(LONE), op).asteroids[a].value == JText("y")
  {
    if op.ExtinguishAsteroids? {
      hide Apply;
      forall a ensures a !in Apply(Fresh(LONE), op).asteroids { DeletionAt(Fresh(LONE), [1], a); }
    }
  }

  const SEVEN: Target := Target(Some(7), "7", (row: Asteroid) => if row.value.JText? then row.value.s else "")

  /** A target that no row has as its id: the partial context finds nothing, the full one a row whose text contains it. */
  lemma TextTargetIsNotLoaded()
    ensures Part(LONE, NOTHING_LOADED) && SeesTheSame(LONE, NOTHING_LOADED, Extinguish(false, None, SEVEN.id))
    ensures TargetFinds(NOTHING_LOADED.asteroids, SEVEN) == {} && TargetFinds(LONE.asteroids, SEVEN) == {1}
  {
    hide Strip;
    var text := SEVEN.textOf(LONE.asteroids[1]);
    assert text == "x7";
    assert Lower(text) == "x7";
    StripFixes(text);
    assert Occurs("7", "x7") by { assert "x7"[1..] == "7"; }
    assert 1 !in Equal(LONE.asteroids, SEVEN);
    assert 1 in Containing(LONE.asteroids, SEVEN);
  }

  /** A relation that is stored in both directions, which the unique index allows, and what a LINK of its ends loads. */
  const DOUBLED: Snapshot := Snapshot(
    map[1 := Asteroid(JNull, map[]), 2 := Asteroid(JNull, map[])],
    map[10 := Bond(1, 2, "RELATION"), 11 := Bond(2, 1, "RELATION")])
  const LINK_LOADED: Context := Context(DOUBLED.asteroids, map[], {}, {})

  /** On such an edge LINK fails in the partial context and reuses a bond in the full one. */
  lemma DoubledEdgeFails()
    ensures WellFormed(DOUBLED) && Part(DOUBLED, LINK_LOADED) && SeesTheSame(DOUBLED, LINK_LOADED, Link(Some(1), Some(2)))
    ensures var edge := Bond(1, 2, "RELATION");
            LinkFails(DOUBLED, LINK_LOADED, edge) && !LinkFails(DOUBLED, Fresh(DOUBLED), edge) && LinkFinds(DOUBLED, Fresh(DOUBLED), edge) == {10, 11}
  {
    var edge := Bond(1, 2, "RELATION");
    assert Upper("RELATION") == "RELATION";
    assert BondsOn(DOUBLED.bonds, edge) == {10, 11};
  }
}
