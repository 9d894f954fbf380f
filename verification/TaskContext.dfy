/** The executor's mutable context and the handlers' updates of it, against the pure account of them. */
module TaskContext {
  import opened Values
  import opened Hydration
  import opened Lookups

  function Ids(list: seq<Id>): set<Id> {
    set x | x in list
  }

  class Working {
    var asteroidsById: map<Id, Asteroid>
    var bondsById: map<Id, Bond>
    var extinguishedAsteroidIds: seq<Id>
    var extinguishedBondIds: seq<Id>
    var partialScope: bool

    constructor (ctx: Context, partialScope: bool)
      requires ctx.goneAsteroids == {} && ctx.goneBonds == {}
      ensures View() == ctx && this.partialScope == partialScope
    {
      asteroidsById, bondsById := ctx.asteroids, ctx.bonds;
      extinguishedAsteroidIds, extinguishedBondIds := [], [];
      this.partialScope := partialScope;
    }

    ghost function View(): Context
      reads this
    {
      Context(asteroidsById, bondsById, Ids(extinguishedAsteroidIds), Ids(extinguishedBondIds))
    }

    /** Completes a partial context; a full one is left alone. */
    method HydrateToFullScope(s: Snapshot)
      modifies this
      ensures View() == if old(partialScope) then Hydrate(s, old(View())) else old(View())
      ensures !partialScope
    {
      if !partialScope {
        return;
      }
      var asteroids := s.asteroids + asteroidsById;
      for i := 0 to |extinguishedAsteroidIds|
        invariant asteroids == s.asteroids + asteroidsById - Ids(extinguishedAsteroidIds[..i])
      {
        asteroids := asteroids - {extinguishedAsteroidIds[i]};
      }
      assert extinguishedAsteroidIds[..|extinguishedAsteroidIds|] == extinguishedAsteroidIds;
      var bonds := s.bonds + bondsById;
      for i := 0 to |extinguishedBondIds|
        invariant bonds == s.bonds + bondsById - Ids(extinguishedBondIds[..i])
      {
        bonds := bonds - {extinguishedBondIds[i]};
      }
      assert extinguishedBondIds[..|extinguishedBondIds|] == extinguishedBondIds;
      bonds := Closed(bonds, asteroids);
      asteroidsById, bondsById, partialScope := asteroids, bonds, false;
    }

    method PutAsteroid(id: Id, asteroid: Asteroid)
      modifies this
      ensures View() == Apply(old(View()), Op.PutAsteroid(id, asteroid)) && partialScope == old(partialScope)
    {
      asteroidsById := asteroidsById[id := asteroid];
    }

    method PutBond(id: Id, bond: Bond)
      modifies this
      ensures View() == Apply(old(View()), Op.PutBond(id, bond)) && partialScope == old(partialScope)
    {
      bondsById := bondsById[id := bond];
    }

    method RecordBond(id: Id)
      modifies `extinguishedBondIds
      ensures Ids(extinguishedBondIds) == old(Ids(extinguishedBondIds)) + {id}
    {
      if id !in extinguishedBondIds {
        extinguishedBondIds := extinguishedBondIds + [id];
      }
    }

    /** A bond that the context does not hold is not found. */
    method ExtinguishBond(id: Id) returns (found: bool)
      modifies this
      ensures found <==> id in old(bondsById)
      ensures View() == (if found then Apply(old(View()), Op.ExtinguishBond(id)) else old(View())) && partialScope == old(partialScope)
    {
      if id !in bondsById {
        return false;
      }
      bondsById := bondsById - {id};
      RecordBond(id);
      return true;
    }

    /** One target: its connected bonds go first, one by one, then the asteroid. */
    method ExtinguishTarget(id: Id)
      modifies `asteroidsById, `bondsById, `extinguishedAsteroidIds, `extinguishedBondIds
      ensures View() == ExtinguishOne(old(View()), id)
    {
      if id !in extinguishedAsteroidIds {
        extinguishedAsteroidIds := extinguishedAsteroidIds + [id];
      }
      hide Touching;
      ghost var recorded := Ids(extinguishedBondIds);
      var connected := Touching(bondsById, id);
      var todo := connected;
      while todo != {}
        invariant todo <= connected
        invariant bondsById == old(bondsById) - (connected - todo)
        invariant Ids(extinguishedBondIds) == recorded + (connected - todo)
        invariant asteroidsById == old(asteroidsById)
        invariant Ids(extinguishedAsteroidIds) == old(Ids(extinguishedAsteroidIds)) + {id}
        decreases todo
      {
        var b :| b in todo;
        assert connected - (todo - {b}) == (connected - todo) + {b};
        ghost var before := Ids(extinguishedBondIds);
        RecordBond(b);
        assert Ids(extinguishedBondIds) == before + {b};
        bondsById := bondsById - {b};
        todo := todo - {b};
      }
      assert connected - todo == connected;
      asteroidsById := asteroidsById - {id};
    }

    method ExtinguishAsteroids(targets: seq<Id>)
      modifies this
      ensures View() == Apply(old(View()), Op.ExtinguishAsteroids(targets)) && partialScope == old(partialScope)
    {
      hide ExtinguishOne;
      for i := 0 to |targets|
        invariant View() == ExtinguishEach(old(View()), targets[..i]) && partialScope == old(partialScope)
      {
        assert targets[..i + 1][..i] == targets[..i];
        ExtinguishTarget(targets[i]);
      }
      assert targets[..|targets|] == targets;
      bondsById := Closed(bondsById, asteroidsById);
    }

    // ---------- Lookups ----------

    /** A held row that fits, else in a partial context the candidate, or a row of its hydration when the candidate is of another table. */
    method FindForIngest(s: Snapshot, w: Wanted, candidate: Option<Id>) returns (found: Option<Id>)
      requires IsCandidate(s, w.value, candidate)
      modifies this
      ensures found.None? <==> IngestFinds(s, old(View()), old(partialScope), w, candidate) == {}
      ensures found.Some? ==> found.value in IngestFinds(s, old(View()), old(partialScope), w, candidate)
      ensures found.Some? ==> found.value in asteroidsById && Fits(asteroidsById[found.value], w)
      ensures View() == IngestLeaves(s, old(View()), old(partialScope), w, candidate)
    {
      hide Hydrate, Apply;
      found := FirstFitting(w);
      if found.None? && partialScope && candidate.Some? {
        if Fits(s.asteroids[candidate.value], w) {
          found := candidate;
          PutAsteroid(candidate.value, s.asteroids[candidate.value]);
          PutAsteroidHolds(old(View()), candidate.value, s.asteroids[candidate.value]);
        } else {
          HydrateToFullScope(s);
          found := FirstFitting(w);
        }
      }
    }

    method FirstFitting(w: Wanted) returns (found: Option<Id>)
      ensures found.None? <==> Fitting(asteroidsById, w) == {}
      ensures found.Some? ==> found.value in Fitting(asteroidsById, w)
    {
      var todo := asteroidsById.Keys;
      while todo != {}
        invariant todo <= asteroidsById.Keys
        invariant forall a :: a in Fitting(asteroidsById, w) ==> a in todo
        decreases todo
      {
        var a :| a in todo;
        if Fits(asteroidsById[a], w) {
          assert a in Fitting(asteroidsById, w);
          return Some(a);
        }
        todo := todo - {a};
      }
      assert Fitting(asteroidsById, w) == {};
      return None;
    }

    /** A held bond of the edge, else a persisted one, which is then held; more than one persisted bond is an error. */
    method FindForLink(s: Snapshot, edge: Bond) returns (found: Option<Id>, failed: bool)
      modifies this
      ensures failed <==> LinkFails(s, old(View()), edge)
      ensures !failed ==> (found.None? <==> LinkFinds(s, old(View()), edge) == {})
      ensures found.Some? ==> !failed && found.value in LinkFinds(s, old(View()), edge) && found.value in BondsOn(bondsById, edge)
      ensures View() == if found.Some? && BondsOn(old(bondsById), edge) == {}
                        then Apply(old(View()), Op.PutBond(found.value, s.bonds[found.value])) else old(View())
    {
      hide OnEdge;
      found, failed := None, false;
      var held := BondsOn(bondsById, edge);
      if held != {} {
        var b :| b in held;
        return Some(b), false;
      }
      var persisted := BondsOn(s.bonds, edge);
      if persisted != {} {
        var b :| b in persisted;
        if persisted != {b} {
          assert persisted - {b} != {};
          ghost var other :| other in persisted - {b};
          assert SeveralOn(s, edge);
          return None, true;
        }
        PutBond(b, s.bonds[b]);
        found := Some(b);
      }
    }

    /** The first row by id, else by equal text, else by contained text. */
    method FindAsteroidByTarget(t: Target) returns (found: Option<Id>)
      ensures found.None? <==> TargetFinds(asteroidsById, t) == {}
      ensures found.Some? ==> found.value in TargetFinds(asteroidsById, t)
    {
      hide Occurs, Strip, Lower;
      if t.needle == "" {
        return None;
      }
      if t.id.Some? && t.id.value in asteroidsById {
        return t.id;
      }
      var matching := Equal(asteroidsById, t);
      if matching == {} {
        matching := Containing(asteroidsById, t);
      }
      if matching == {} {
        return None;
      }
      var a :| a in matching;
      return Some(a);
    }
  }

  lemma PutAsteroidHolds(ctx: Context, a: Id, row: Asteroid)
    ensures Apply(ctx, Op.PutAsteroid(a, row)).asteroids == ctx.asteroids[a := row]
  {
  }
}
