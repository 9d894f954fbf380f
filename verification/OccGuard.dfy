/** The guard and the event store as a transaction calls them, among arbitrary other clients. */
module OccGuard {
  import opened Values
  import opened Occ

  ghost predicate Reaches(lock: Timeline -> int, s: State, t: State) {
    exists trace :: Run(lock, s, trace) == t
  }

  lemma {:induction false} ReachesNext(lock: Timeline -> int, s: State, t: State, a: Action)
    requires Reaches(lock, s, t)
    ensures Reaches(lock, s, Next(lock, t, a))
  {
    hide Next, Run;
    var trace :| Run(lock, s, trace) == t;
    RunSnoc(lock, s, trace, a);
  }

  lemma ReachesItself(lock: Timeline -> int, s: State)
    ensures Reaches(lock, s, s)
  {
    RunNothing(lock, s);
  }

  predicate ByOthers(me: Client, steps: seq<Action>) {
    forall i :: 0 <= i < |steps| ==> steps[i].client != me
  }

  lemma OthersKeepMine(lock: Timeline -> int, s: State, a: Action, me: Client)
    requires a.client != me
    ensures me in Next(lock, s, a).txns <==> me in s.txns
    ensures me in s.txns ==> Next(lock, s, a).txns[me] == s.txns[me]
  {
    hide LockFree, CheckClaim, AppendEvent;
  }

  lemma CurrentSeqOfNothing(timeline: Timeline, entity: Id)
    ensures CurrentSeq([], timeline, entity) == 0
  {
  }

  lemma CurrentSeqSnoc(log: seq<Event>, e: Event, timeline: Timeline, entity: Id)
    ensures CurrentSeq(log + [e], timeline, entity) ==
            if Matches(e, timeline, entity) && e.seqNo > CurrentSeq(log, timeline, entity) then e.seqNo
            else CurrentSeq(log, timeline, entity)
  {
    assert (log + [e])[..|log|] == log;
  }

  datatype Guarded =
    | Passed
    | OccConflict(current: nat)
      /** The lock was not granted within the client's patience. */
    | GaveUp

  class Database {
    const lock: Timeline -> int
    var state: State

    constructor (lock: Timeline -> int)
      ensures this.lock == lock && state == INITIAL
    {
      this.lock := lock;
      state := INITIAL;
    }

    method Perform(a: Action)
      requires Inv(lock, state)
      modifies this
      ensures state == Next(lock, old(state), a) && Inv(lock, state)
      ensures forall s :: Reaches(lock, s, old(state)) ==> Reaches(lock, s, state)
    {
      hide Inv, Next, Reaches;
      StepKeeps(lock, state, a);
      forall s | Reaches(lock, s, state) ensures Reaches(lock, s, Next(lock, state, a)) {
        ReachesNext(lock, s, state, a);
      }
      state := Next(lock, state, a);
    }

    method Interleave(me: Client, steps: seq<Action>)
      requires Inv(lock, state) && ByOthers(me, steps)
      modifies this
      ensures Inv(lock, state)
      ensures me in state.txns <==> me in old(state).txns
      ensures me in state.txns ==> state.txns[me] == old(state).txns[me]
      ensures forall s :: Reaches(lock, s, old(state)) ==> Reaches(lock, s, state)
    {
      hide Inv, Next, Reaches;
      for i := 0 to |steps|
        invariant Inv(lock, state)
        invariant me in state.txns <==> me in old(state).txns
        invariant me in state.txns ==> state.txns[me] == old(state).txns[me]
        invariant forall s :: Reaches(lock, s, old(state)) ==> Reaches(lock, s, state)
      {
        OthersKeepMine(lock, state, steps[i], me);
        Perform(steps[i]);
      }
    }

    /** The latest sequence number of the entity, as a query of this transaction sees it. */
    method CurrentEntityEventSeq(me: Client, timeline: Timeline, entity: Id) returns (current: nat)
      requires me in state.txns
      ensures current == CurrentSeq(state.log + state.txns[me].written, timeline, entity)
      ensures forall e :: e in state.log + state.txns[me].written && e.timeline == timeline && e.entity == entity ==> e.seqNo <= current
      ensures current == 0 || exists e :: e in state.log + state.txns[me].written && e.timeline == timeline && e.entity == entity && e.seqNo == current
    {
      hide CurrentSeq;
      var visible := state.log + state.txns[me].written;
      current := 0;
      CurrentSeqOfNothing(timeline, entity);
      for i := 0 to |visible|
        invariant current == CurrentSeq(visible[..i], timeline, entity)
      {
        assert visible[..i + 1] == visible[..i] + [visible[i]];
        CurrentSeqSnoc(visible[..i], visible[i], timeline, entity);
        if Matches(visible[i], timeline, entity) && visible[i].seqNo > current {
          current := visible[i].seqNo;
        }
      }
      assert visible[..|visible|] == visible;
    }

    /**
     Without an expectation nothing happens.  Otherwise the guard passes exactly when the entity's
     number, read after the lock was granted, is the expected one; a transaction that fails it is over.
     */
    method EnforceExpectedEntityEventSeq(me: Client, timeline: Timeline, entity: Id, expected: Option<nat>,
                                         others: nat -> seq<Action>, patience: nat)
      returns (r: Guarded)
      requires Inv(lock, state) && IsLive(state, me)
      requires forall k: nat :: ByOthers(me, others(k))
      modifies this
      ensures Inv(lock, state) && Reaches(lock, old(state), state) && me in state.txns
      ensures state.txns[me].written == old(state).txns[me].written
      ensures expected.None? ==> r.Passed? && state == old(state)
      ensures expected.Some? && r.Passed? ==>
                && state.txns[me].status.Live? && timeline in state.txns[me].locks
                && state.txns[me].claims == old(state).txns[me].claims + {Claim(timeline, entity, expected.value)}
                && CurrentSeq(state.log + state.txns[me].written, timeline, entity) == expected.value
      ensures r.OccConflict? ==>
                && expected.Some? && state.txns[me].status.Aborted? && r.current != expected.value
                && CurrentSeq(state.log + state.txns[me].written, timeline, entity) == r.current
      ensures r.GaveUp? ==> expected.Some? && state.txns[me].status.Aborted?
    {
      hide Inv, Reaches, CurrentSeq, LockFree;
      ReachesItself(lock, state);
      if expected.None? {
        return Passed;
      }
      var waited := 0;
      while !LockFree(lock, state, me, timeline) && waited < patience
        invariant Inv(lock, state) && Reaches(lock, old(state), state)
        invariant me in state.txns && state.txns[me] == old(state).txns[me]
      {
        Interleave(me, others(waited));
        waited := waited + 1;
      }
      if !LockFree(lock, state, me, timeline) {
        Perform(Abort(me));
        return GaveUp;
      }
      Perform(Lock(me, timeline));
      Interleave(me, others(waited));
      var current := CurrentEntityEventSeq(me, timeline, entity);
      Perform(Check(me, Claim(timeline, entity, expected.value)));
      if current != expected.value {
        return OccConflict(current);
      }
      return Passed;
    }

    /** The new event gets a number above every number handed out before, and marks the claims on its entity as used. */
    method AppendEvent(me: Client, timeline: Timeline, entity: Id) returns (e: Event)
      requires Inv(lock, state) && IsLive(state, me)
      modifies this
      ensures Inv(lock, state) && Reaches(lock, old(state), state) && IsLive(state, me)
      ensures Matches(e, timeline, entity) && state.txns[me].written == old(state).txns[me].written + [e]
      ensures state.log == old(state).log && Below(old(state).log, e.seqNo)
      ensures forall c :: c in old(state).txns ==> Below(old(state).txns[c].written, e.seqNo)
      ensures state.txns[me].used == old(state).txns[me].used + Used(old(state).txns[me].claims, timeline, entity)
    {
      hide Reaches, Exclusive, CommittedOk, ClaimsApart;
      ReachesItself(lock, state);
      e := Event(state.nextSeq, timeline, entity);
      Perform(Append(me, timeline, entity));
    }
  }
}
