/** Promoting a branch the way the service does it, event by event, among arbitrary other clients. */
module BranchPromotion {
  import opened Values
  import opened Branches

  ghost predicate Reaches(s: State, t: State) {
    exists trace :: Run(s, trace) == t
  }

  lemma ReachesItself(s: State)
    ensures Reaches(s, s)
  {
    assert Run(s, []) == s;
  }

  lemma {:induction false} ReachesNext(s: State, t: State, a: Action)
    requires Reaches(s, t)
    ensures Reaches(s, Next(t, a))
  {
    hide Next;
    var trace :| Run(s, trace) == t;
    assert (trace + [a])[..|trace|] == trace;
    assert Run(s, trace + [a]) == Next(t, a);
  }

  /** Who performs an action; adding a branch is nobody's transaction. */
  predicate IsBy(a: Action, me: Client) {
    !a.AddBranch? && a.client == me
  }

  predicate ByOthers(me: Client, steps: seq<Action>) {
    forall i :: 0 <= i < |steps| ==> !IsBy(steps[i], me)
  }

  lemma OthersKeepMine(s: State, a: Action, me: Client)
    requires !IsBy(a, me)
    ensures me in Next(s, a).txns <==> me in s.txns
    ensures me in s.txns ==> Next(s, a).txns[me] == s.txns[me]
  {
    hide RowFree, BranchEvents, DeleteBranch, CopyTxn, LockResult, MarkTxn;
  }

  datatype Outcome =
    | Promoted(count: nat)
    | NotFound
    | Forbidden
      /** The row lock was not granted within the client's patience. */
    | GaveUp

  /** The promotion's own row check, on the committed branches. */
  function RowCheck(branches: map<Id, Branch>, galaxy: Id, branch: Id): Outcome {
    if branch !in branches || branches[branch].deleted then NotFound
    else if branches[branch].galaxy != galaxy then Forbidden
    else Promoted(0)
  }

  class Database {
    var state: State

    constructor ()
      ensures state == INITIAL
    {
      state := INITIAL;
    }

    method Perform(a: Action)
      requires Inv(state)
      modifies this
      ensures state == Next(old(state), a) && Inv(state)
      ensures forall s :: Reaches(s, old(state)) ==> Reaches(s, state)
    {
      hide SeqInv, PromotionInv, Next, Reaches;
      StepKeepsSeqs(state, a);
      StepKeepsPromotions(state, a);
      forall s | Reaches(s, state) ensures Reaches(s, Next(state, a)) {
        ReachesNext(s, state, a);
      }
      state := Next(state, a);
    }

    method Interleave(me: Client, steps: seq<Action>)
      requires Inv(state) && ByOthers(me, steps)
      modifies this
      ensures Inv(state)
      ensures me in state.txns <==> me in old(state).txns
      ensures me in state.txns ==> state.txns[me] == old(state).txns[me]
      ensures forall s :: Reaches(s, old(state)) ==> Reaches(s, state)
    {
      hide Inv, Next, Reaches;
      for i := 0 to |steps|
        invariant Inv(state)
        invariant me in state.txns <==> me in old(state).txns
        invariant me in state.txns ==> state.txns[me] == old(state).txns[me]
        invariant forall s :: Reaches(s, old(state)) ==> Reaches(s, state)
      {
        OthersKeepMine(state, steps[i], me);
        Perform(steps[i]);
      }
    }

    /**
     `others(k)` is what other clients do between this request's steps, and `patience` how long it
     waits for the row lock.  A successful promotion ends in a commit that adds to the log exactly
     the copies of the events it read, as many as it reports.
     */
    method PromoteBranch(me: Client, user: Id, galaxy: Id, branch: Id, others: nat -> seq<Action>, patience: nat)
      returns (outcome: Outcome, ghost before: State)
      requires Inv(state) && me !in state.txns
      requires forall k: nat :: ByOthers(me, others(k))
      modifies this
      ensures Inv(state) && Reaches(old(state), state) && Reaches(old(state), before)
      ensures me in state.txns && state.txns[me].job.Promoting?
      ensures outcome.Promoted? ==>
                && state == Next(before, Commit(me)) && IsCommittedPromotion(state.txns[me], branch)
                && state.txns[me].job.phase.Marked? && state.txns[me].job.user == user && state.txns[me].job.galaxy == galaxy
                && state.txns[me].job.phase.reported == outcome.count
                && GrowsByCopies(before, state, state.txns[me].job)
      ensures outcome.NotFound? ==> state.txns[me].status.Aborted? && (branch !in before.branches || before.branches[branch].deleted)
      ensures outcome.Forbidden? ==>
                && state.txns[me].status.Aborted? && branch in before.branches && !before.branches[branch].deleted
                && before.branches[branch].galaxy != galaxy
      ensures outcome.GaveUp? ==> state.txns[me].status.Aborted? && !RowFree(before, me, branch)
    {
      hide Inv, Next, Reaches, RowFree, GrowsByCopies, IsLive, Enabled, RowCheck;
      ReachesItself(state);
      Interleave(me, others(0));
      Ask(me, user, galaxy, branch);
      var waited := 1;
      Interleave(me, others(waited));
      while !RowFree(state, me, branch) && waited < patience
        invariant Inv(state) && Reaches(old(state), state)
        invariant me in state.txns && state.txns[me] == Txn(Live, Promoting(user, galaxy, branch, Asked), [])
      {
        waited := waited + 1;
        Interleave(me, others(waited));
      }
      before := state;
      if !RowFree(state, me, branch) {
        GiveUp(me);
        return GaveUp, before;
      }
      outcome := LockRow(me, user, galaxy, branch);
      if !outcome.Promoted? {
        return;
      }
      Interleave(me, others(waited + 1));
      Read(me, user, galaxy, branch);
      var events := state.txns[me].job.phase.read;
      for n := 0 to |events|
        invariant Inv(state) && Reaches(old(state), state)
        invariant me in state.txns && state.txns[me].status.Live?
        invariant state.txns[me].job == Promoting(user, galaxy, branch, Copying(events, n))
      {
        Interleave(me, others(waited + 2 + n));
        CopyNext(me, Promoting(user, galaxy, branch, Copying(events, n)));
      }
      Interleave(me, others(waited + 2 + |events|));
      var count := Mark(me, Promoting(user, galaxy, branch, Copying(events, |events|)));
      Interleave(me, others(waited + 3 + |events|));
      before := state;
      Finish(me, Promoting(user, galaxy, branch, Marked(events, count)));
      outcome := Promoted(count);
    }

    // ---------- The promotion's own steps ----------

    method Ask(me: Client, user: Id, galaxy: Id, branch: Id)
      requires Inv(state) && me !in state.txns
      modifies this
      ensures Inv(state) && forall s :: Reaches(s, old(state)) ==> Reaches(s, state)
      ensures me in state.txns && state.txns[me] == Txn(Live, Promoting(user, galaxy, branch, Asked), [])
    {
      hide Inv, Reaches;
      Perform(BeginPromotion(me, user, galaxy, branch));
    }

    method GiveUp(me: Client)
      requires Inv(state) && me in state.txns && state.txns[me].status.Live?
      modifies this
      ensures Inv(state) && forall s :: Reaches(s, old(state)) ==> Reaches(s, state)
      ensures me in state.txns && state.txns[me] == old(state).txns[me].(status := Aborted)
    {
      hide Inv, Reaches;
      Perform(Abort(me));
    }

    method LockRow(me: Client, user: Id, galaxy: Id, branch: Id) returns (outcome: Outcome)
      requires Inv(state) && RowFree(state, me, branch)
      requires me in state.txns && state.txns[me] == Txn(Live, Promoting(user, galaxy, branch, Asked), [])
      modifies this
      ensures Inv(state) && forall s :: Reaches(s, old(state)) ==> Reaches(s, state)
      ensures outcome == RowCheck(old(state).branches, galaxy, branch)
      ensures outcome.Promoted? || outcome.NotFound? || outcome.Forbidden?
      ensures outcome.NotFound? ==> branch !in old(state).branches || old(state).branches[branch].deleted
      ensures outcome.Forbidden? ==>
                branch in old(state).branches && !old(state).branches[branch].deleted && old(state).branches[branch].galaxy != galaxy
      ensures me in state.txns && state.txns[me] ==
                if outcome.Promoted? then Txn(Live, Promoting(user, galaxy, branch, RowLocked), [])
                else Txn(Aborted, Promoting(user, galaxy, branch, Asked), [])
    {
      hide Inv, Reaches, RowFree;
      outcome := RowCheck(state.branches, galaxy, branch);
      Perform(Action.LockRow(me));
    }

    method Read(me: Client, user: Id, galaxy: Id, branch: Id)
      requires Inv(state) && me in state.txns && state.txns[me] == Txn(Live, Promoting(user, galaxy, branch, RowLocked), [])
      modifies this
      ensures Inv(state) && forall s :: Reaches(s, old(state)) ==> Reaches(s, state)
      ensures me in state.txns && state.txns[me].status.Live?
      ensures state.txns[me].job == Promoting(user, galaxy, branch, Copying(BranchEvents(old(state).log, user, galaxy, branch), 0))
    {
      hide Inv, Reaches, BranchEvents;
      Perform(ReadEvents(me));
    }

    method CopyNext(me: Client, job: Job)
      requires Inv(state) && me in state.txns && state.txns[me].status.Live? && state.txns[me].job == job
      requires job.Promoting? && job.phase.Copying? && job.phase.copied < |job.phase.read|
      modifies this
      ensures Inv(state) && forall s :: Reaches(s, old(state)) ==> Reaches(s, state)
      ensures me in state.txns && state.txns[me].status.Live?
      ensures state.txns[me].job == job.(phase := Copying(job.phase.read, job.phase.copied + 1))
    {
      hide Inv, Reaches;
      Perform(Action.CopyNext(me));
    }

    method Mark(me: Client, job: Job) returns (count: nat)
      requires Inv(state) && me in state.txns && state.txns[me].status.Live? && state.txns[me].job == job
      requires job.Promoting? && job.phase.Copying? && job.phase.copied == |job.phase.read|
      modifies this
      ensures Inv(state) && forall s :: Reaches(s, old(state)) ==> Reaches(s, state)
      ensures me in state.txns && state.txns[me].status.Live?
      ensures state.txns[me].job == job.(phase := Marked(job.phase.read, count))
    {
      hide Inv, Reaches;
      Perform(MarkDeleted(me));
      count := state.txns[me].job.phase.reported;
    }

    method Finish(me: Client, job: Job)
      requires Inv(state) && me in state.txns && state.txns[me].status.Live? && state.txns[me].job == job
      requires job.Promoting? && job.phase.Marked?
      modifies this
      ensures Inv(state) && forall s :: Reaches(s, old(state)) ==> Reaches(s, state)
      ensures state == Next(old(state), Commit(me))
      ensures me in state.txns && IsCommittedPromotion(state.txns[me], job.branch) && state.txns[me].job == job
      ensures GrowsByCopies(old(state), state, job)
    {
      hide SeqInv, PromotionInv, Reaches, GrowsByCopies;
      CommitGrowsByCopies(state, me);
      Perform(Commit(me));
    }
  }
}
