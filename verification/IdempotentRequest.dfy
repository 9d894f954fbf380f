/** One request's way through the protocol, written as the service runs it, among arbitrary other clients. */
module IdempotentRequest {
  import opened Values
  import opened Idempotency

  ghost predicate Reaches(cfg: Config, s: State, t: State) {
    exists trace :: Run(cfg, s, trace) == t
  }

  lemma ReachesItself(cfg: Config, s: State)
    ensures Reaches(cfg, s, s)
  {
    assert Run(cfg, s, []) == s;
  }

  lemma {:induction false} RunInTwo(cfg: Config, s: State, first: seq<Action>, second: seq<Action>)
    ensures Run(cfg, s, first + second) == Run(cfg, Run(cfg, s, first), second)
    decreases |second|
  {
    hide Next;
    if second == [] {
      assert first + second == first;
    } else {
      var last := |second| - 1;
      RunInTwo(cfg, s, first, second[..last]);
      var all := first + second;
      assert all[..|all| - 1] == first + second[..last] && all[|all| - 1] == second[last];
    }
  }

  lemma {:induction false} ReachesFurther(cfg: Config, s: State, t: State, trace: seq<Action>)
    requires Reaches(cfg, s, t)
    ensures Reaches(cfg, s, Run(cfg, t, trace))
  {
    hide Run;
    var first :| Run(cfg, s, first) == t;
    RunInTwo(cfg, s, first, trace);
  }

  lemma OneStep(cfg: Config, s: State, a: Action)
    ensures Run(cfg, s, [a]) == Next(cfg, s, a)
  {
    hide Next;
    assert [a][..0] == [];
    assert Run(cfg, s, []) == s;
  }

  lemma RowsAreUnique(cfg: Config, s: State)
    requires Inv(cfg, s)
    ensures OneRowPerSlot(s.rows)
  {
  }

  predicate ByOthers(me: Client, steps: seq<Action>) {
    forall i :: 0 <= i < |steps| ==> steps[i].client != me
  }

  /** Nobody moves another client's transaction. */
  lemma OthersKeepMine(cfg: Config, s: State, a: Action, me: Client)
    requires a.client != me
    ensures me in Next(cfg, s, a).txns <==> me in s.txns
    ensures me in s.txns ==> Next(cfg, s, a).txns[me] == s.txns[me]
  {
    hide LockFree, ReadResult, PayloadOf;
  }

  ghost predicate Answered(cfg: Config, rows: seq<Record>, request: Request, outcome: Outcome) {
    && (outcome.Conflict? ==> request.slot.Some? && exists row :: row in rows && row.slot == request.slot.value && row.hash != request.hash)
    && (outcome.Success? && request.slot.Some? ==>
          exists row :: row in rows && row.slot == request.slot.value && row.hash == request.hash
                        && Carries(cfg, outcome.response, row.payload))
  }

  /** The client is told the result, or that there is none. */
  predicate Tells(outcome: Outcome, result: Option<Json>) {
    (result.Some? ==> outcome == Success(result.value)) && (result.None? ==> outcome == Empty)
  }

  /** The answer was loaded from the slot's record. */
  ghost predicate Replayed(cfg: Config, rows: seq<Record>, request: Request, outcome: Outcome) {
    request.slot.Some? &&
    exists row :: row in rows && row.slot == request.slot.value && row.hash == request.hash && Tells(outcome, cfg.load(row.payload))
  }

  lemma FinishedIsAnswered(cfg: Config, s: State, c: Client)
    requires Inv(cfg, s) && c in s.txns && s.txns[c].phase.Finished? && !s.txns[c].phase.outcome.Conflict?
    ensures Answered(cfg, s.rows, s.txns[c].request, s.txns[c].phase.outcome)
  {
    hide Carries, OneRowPerSlot, OneEffectPerSlot, Recorded, Exclusive;
    assert TxnOk(cfg, s.rows, s.txns[c]);
  }

  lemma HitIsReplayed(cfg: Config, s: State, c: Client)
    requires Inv(cfg, s) && c in s.txns && s.txns[c].phase.Hit?
    ensures Replayed(cfg, s.rows, s.txns[c].request, Answer(cfg.load(s.txns[c].phase.payload)))
  {
    hide Carries, OneRowPerSlot, OneEffectPerSlot, Recorded, Exclusive;
    assert TxnOk(cfg, s.rows, s.txns[c]);
    var request := s.txns[c].request;
    assert Record(request.slot.value, request.hash, s.txns[c].phase.payload) in s.rows;
  }

  lemma MyPhaseIsNotMyLock(cfg: Config, s: State, me: Client, phase: Phase, slot: Slot)
    requires me in s.txns
    ensures LockFree(cfg, SetPhase(s, me, phase), me, slot) <==> LockFree(cfg, s, me, slot)
  {
    var t := SetPhase(s, me, phase);
    assert forall d :: d in t.txns && d != me ==> t.txns[d] == s.txns[d];
    assert forall d :: d in s.txns && d != me ==> t.txns[d] == s.txns[d];
  }

  class Database {
    const cfg: Config
    var state: State

    constructor (cfg: Config)
      ensures this.cfg == cfg && state == INITIAL
    {
      this.cfg := cfg;
      state := INITIAL;
    }

    method Perform(a: Action)
      requires Inv(cfg, state)
      modifies this
      ensures state == Next(cfg, old(state), a) && Inv(cfg, state)
      ensures forall s :: Reaches(cfg, s, old(state)) ==> Reaches(cfg, s, state)
    {
      hide Inv, Next, Reaches;
      StepKeeps(cfg, state, a);
      OneStep(cfg, state, a);
      forall s | Reaches(cfg, s, state) ensures Reaches(cfg, s, Next(cfg, state, a)) {
        ReachesFurther(cfg, s, state, [a]);
      }
      state := Next(cfg, state, a);
    }

    method Interleave(me: Client, steps: seq<Action>)
      requires Inv(cfg, state) && ByOthers(me, steps)
      modifies this
      ensures Inv(cfg, state)
      ensures me in state.txns <==> me in old(state).txns
      ensures me in state.txns ==> state.txns[me] == old(state).txns[me]
      ensures forall s :: Reaches(cfg, s, old(state)) ==> Reaches(cfg, s, state)
    {
      hide Inv, Next, Reaches;
      for i := 0 to |steps|
        invariant Inv(cfg, state)
        invariant me in state.txns <==> me in old(state).txns
        invariant me in state.txns ==> state.txns[me] == old(state).txns[me]
        invariant forall s :: Reaches(cfg, s, old(state)) ==> Reaches(cfg, s, state)
      {
        OthersKeepMine(cfg, state, steps[i], me);
        Perform(steps[i]);
      }
    }

    /**
     `others(k)` is what other clients do between this request's steps, `patience` how long it
     waits for the lock, and `executed` what the operation yields, absent when it raises.
     */
    method RunScopedIdempotent(me: Client, user: Id, galaxy: Id, branch: Option<Id>, endpoint: string, rawKey: Option<string>,
                               hash: string, executed: Option<Option<Json>>, others: nat -> seq<Action>, patience: nat)
      returns (request: Request, outcome: Outcome)
      requires Inv(cfg, state) && me !in state.txns
      requires forall k: nat :: ByOthers(me, others(k))
      modifies this
      ensures Inv(cfg, state) && Reaches(cfg, old(state), state)
      ensures request.hash == hash
      ensures rawKey.Some? && Strip(rawKey.value) != "" ==> request.slot == Some(Slot(user, galaxy, branch, endpoint, Strip(rawKey.value)))
      ensures rawKey.None? || Strip(rawKey.value) == "" ==> request.slot == None
      ensures me in state.txns && state.txns[me] == Txn(request, Finished(outcome))
      ensures Answered(cfg, state.rows, request, outcome)
      ensures outcome.Failed? ==>
                executed.None? || (request.slot.Some? && (cfg.dump(executed.value).None? || !LockFree(cfg, state, me, request.slot.value)))
      ensures outcome.Success? || outcome.Empty? ==>
                || (executed.Some? && Tells(outcome, executed.value) && Effect(me, request, executed.value) in state.effects)
                || Replayed(cfg, state.rows, request, outcome)
    {
      hide Inv, Next, Reaches, LockFree, Answered, Replayed, Strip;
      var key := NormalizeKey(rawKey);
      request := Request(if key.Some? then Some(Slot(user, galaxy, branch, endpoint, key.value)) else None, hash);
      ReachesItself(cfg, state);
      Interleave(me, others(0));
      Begin(me, request);
      Interleave(me, others(1));
      var waited := 2;
      if request.slot.Some? {
        while !LockFree(cfg, state, me, request.slot.value) && waited < patience
          invariant Inv(cfg, state) && Reaches(cfg, old(state), state)
          invariant me in state.txns && state.txns[me] == Txn(request, Started)
        {
          Interleave(me, others(waited));
          waited := waited + 1;
        }
        if !LockFree(cfg, state, me, request.slot.value) {
          outcome := Leave(me, request, Abort(me));
          return;
        }
        Lock(me, request);
        Interleave(me, others(waited));
        var phase := Read(me, request);
        if phase.Finished? {
          outcome := phase.outcome;
          return;
        }
        Interleave(me, others(waited + 1));
        if phase.Hit? {
          outcome := Leave(me, request, Commit(me));
          return;
        }
      }
      if executed.None? {
        outcome := Leave(me, request, Abort(me));
        return;
      }
      Execute(me, request, executed.value);
      Interleave(me, others(waited + 2));
      if request.slot.Some? {
        if cfg.dump(executed.value).None? {
          outcome := Leave(me, request, Abort(me));
          return;
        }
        Store(me, request, executed.value);
        Interleave(me, others(waited + 3));
      }
      outcome := Leave(me, request, Commit(me));
    }

    // ---------- The request's own steps ----------

    method Begin(me: Client, request: Request)
      requires Inv(cfg, state) && me !in state.txns
      modifies this
      ensures Inv(cfg, state) && forall s :: Reaches(cfg, s, old(state)) ==> Reaches(cfg, s, state)
      ensures me in state.txns && state.txns[me] == Txn(request, Started)
    {
      hide Inv, Reaches;
      Perform(Action.Begin(me, request));
    }

    method Lock(me: Client, request: Request)
      requires Inv(cfg, state) && me in state.txns && state.txns[me] == Txn(request, Started)
      requires request.slot.Some? && LockFree(cfg, state, me, request.slot.value)
      modifies this
      ensures Inv(cfg, state) && forall s :: Reaches(cfg, s, old(state)) ==> Reaches(cfg, s, state)
      ensures me in state.txns && state.txns[me] == Txn(request, Locked)
    {
      hide Inv, Reaches, LockFree;
      Perform(Action.Lock(me));
    }

    method Read(me: Client, request: Request) returns (phase: Phase)
      requires Inv(cfg, state) && me in state.txns && state.txns[me] == Txn(request, Locked) && request.slot.Some?
      modifies this
      ensures Inv(cfg, state) && forall s :: Reaches(cfg, s, old(state)) ==> Reaches(cfg, s, state)
      ensures me in state.txns && state.txns[me] == Txn(request, phase)
      ensures phase.Missed? || phase.Hit? || phase == Finished(Conflict)
      ensures phase.Finished? ==> Answered(cfg, state.rows, request, phase.outcome)
    {
      hide Inv, Reaches, Lookup, OneRowPerSlot;
      assert OneRowPerSlot(state.rows) by { RowsAreUnique(cfg, state); }
      LookupIsUnique(state.rows, request.slot.value);
      Perform(Action.Read(me));
      phase := state.txns[me].phase;
      LookupFinds(state.rows, request.slot.value);
      var found := Lookup(state.rows, request.slot.value);
      if found != [] { assert found[0] in found; }
    }

    method Execute(me: Client, request: Request, result: Option<Json>)
      requires Inv(cfg, state) && me in state.txns
      requires state.txns[me] == Txn(request, if request.slot.Some? then Missed else Started)
      modifies this
      ensures Inv(cfg, state) && forall s :: Reaches(cfg, s, old(state)) ==> Reaches(cfg, s, state)
      ensures me in state.txns && state.txns[me] == Txn(request, Executed(result))
    {
      hide Inv, Reaches;
      Perform(Action.Execute(me, result));
    }

    method Store(me: Client, request: Request, result: Option<Json>)
      requires Inv(cfg, state) && me in state.txns && state.txns[me] == Txn(request, Executed(result))
      requires request.slot.Some? && cfg.dump(result).Some?
      modifies this
      ensures Inv(cfg, state) && forall s :: Reaches(cfg, s, old(state)) ==> Reaches(cfg, s, state)
      ensures me in state.txns && state.txns[me] == Txn(request, Stored(result))
    {
      hide Inv, Reaches;
      Perform(Action.Store(me));
    }

    /** Commits or aborts, whichever is asked for, and reports what the client is told. */
    method Leave(me: Client, request: Request, a: Action) returns (outcome: Outcome)
      requires Inv(cfg, state) && me in state.txns && state.txns[me].request == request
      requires a.client == me && (a.Commit? || a.Abort?) && Enabled(cfg, state, a)
      modifies this
      ensures Inv(cfg, state) && forall s :: Reaches(cfg, s, old(state)) ==> Reaches(cfg, s, state)
      ensures me in state.txns && state.txns[me] == Txn(request, Finished(outcome))
      ensures a.Abort? <==> outcome.Failed?
      ensures Answered(cfg, state.rows, request, outcome)
      ensures old(state).txns[me].phase.Hit? && a.Commit? ==> Replayed(cfg, state.rows, request, outcome)
      ensures !old(state).txns[me].phase.Hit? && a.Commit? ==>
                var result := old(state).txns[me].phase.result;
                Tells(outcome, result) && Effect(me, request, result) in state.effects
      ensures request.slot.Some? && a.Abort? ==>
                (LockFree(cfg, state, me, request.slot.value) <==> LockFree(cfg, old(state), me, request.slot.value))
    {
      hide Inv, Reaches, PayloadOf, Answered, Replayed;
      ghost var before := state;
      Perform(a);
      outcome := state.txns[me].phase.outcome;
      FinishedIsAnswered(cfg, state, me);
      if a.Commit? && before.txns[me].phase.Hit? {
        HitIsReplayed(cfg, before, me);
      }
      if a.Abort? && request.slot.Some? {
        MyPhaseIsNotMyLock(cfg, before, me, Finished(Failed), request.slot.value);
      }
    }
  }
}
