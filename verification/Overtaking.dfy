/**
 Exactly when a guarded commit raises the committed number of its entity: when no other transaction
 that appended the entity after the committing one's last append of it has committed.  Such an
 overtaker appended without holding the timeline's lock.
 */
module Overtaking {
  import opened Values
  import opened Occ

  /** The state after the first `n` steps. */
  function At(lock: Timeline -> int, trace: seq<Action>, n: nat): State
    requires n <= |trace|
  {
    Run(lock, INITIAL, trace[..n])
  }

  /** The `k`-th step is an effective append by the client. */
  ghost predicate Appends(lock: Timeline -> int, trace: seq<Action>, k: nat, c: Client, timeline: Timeline, entity: Id) {
    k < |trace| && trace[k] == Append(c, timeline, entity) && IsLive(At(lock, trace, k), c)
  }

  /** The other client appended the entity after every append of it by `c`. */
  ghost predicate Overtakes(lock: Timeline -> int, trace: seq<Action>, k: nat, d: Client, c: Client, timeline: Timeline, entity: Id) {
    d != c && Appends(lock, trace, k, d, timeline, entity) &&
    forall m: nat :: Appends(lock, trace, m, c, timeline, entity) ==> m < k
  }

  lemma AtNext(lock: Timeline -> int, trace: seq<Action>, n: nat)
    requires n < |trace|
    ensures At(lock, trace, n + 1) == Next(lock, At(lock, trace, n), trace[n])
  {
    hide Next;
    assert trace[..n + 1][..n] == trace[..n] && trace[..n + 1][n] == trace[n];
  }

  lemma AtEnd(lock: Timeline -> int, trace: seq<Action>)
    ensures At(lock, trace, |trace|) == Run(lock, INITIAL, trace)
  {
    hide Run;
    assert trace[..|trace|] == trace;
  }

  lemma AtStart(lock: Timeline -> int, trace: seq<Action>)
    ensures At(lock, trace, 0) == INITIAL
  {
  }

  // ---------- One step ----------

  lemma StepRaisesNumbers(lock: Timeline -> int, s: State, a: Action)
    ensures s.nextSeq <= Next(lock, s, a).nextSeq
    ensures a.Append? && IsLive(s, a.client) ==> s.nextSeq < Next(lock, s, a).nextSeq
  {
    hide LockFree, CurrentSeq;
  }

  /** Written events stay, and a step only adds the one event it appends. */
  lemma StepWrites(lock: Timeline -> int, s: State, a: Action, x: Client)
    ensures x in s.txns ==> x in Next(lock, s, a).txns
    ensures x in Next(lock, s, a).txns ==>
              var before := if x in s.txns then s.txns[x].written else [];
              Next(lock, s, a).txns[x].written ==
                if a.Append? && a.client == x && IsLive(s, x) then before + [Event(s.nextSeq, a.timeline, a.entity)] else before
  {
    hide LockFree, CurrentSeq;
  }

  /** Transactions only leave the live state, and locks only grow until then. */
  lemma StepKeepsLocks(lock: Timeline -> int, s: State, a: Action, x: Client)
    requires x in s.txns
    ensures IsLive(Next(lock, s, a), x) ==> IsLive(s, x) && s.txns[x].locks <= Next(lock, s, a).txns[x].locks
    ensures x in Next(lock, s, a).txns
    ensures s.txns[x].status.Committed? ==> Next(lock, s, a).txns[x] == s.txns[x]
    ensures !s.txns[x].status.Committed? && Next(lock, s, a).txns[x].status.Committed? ==> a == Commit(x) && IsLive(s, x)
  {
    hide LockFree, CurrentSeq;
  }

  // ---------- Runs ----------

  lemma {:induction false} NumbersRise(lock: Timeline -> int, trace: seq<Action>, k: nat, m: nat)
    requires k <= m <= |trace|
    ensures At(lock, trace, k).nextSeq <= At(lock, trace, m).nextSeq
    decreases m
  {
    hide At;
    if k < m {
      NumbersRise(lock, trace, k, m - 1);
      AtNext(lock, trace, m - 1);
      StepRaisesNumbers(lock, At(lock, trace, m - 1), trace[m - 1]);
    }
  }

  /** Later appends get greater numbers. */
  lemma {:induction false} LaterAppendsAreGreater(lock: Timeline -> int, trace: seq<Action>, k: nat, m: nat, c: Client, timeline: Timeline, entity: Id)
    requires k < m <= |trace| && Appends(lock, trace, k, c, timeline, entity)
    ensures At(lock, trace, k).nextSeq < At(lock, trace, m).nextSeq
  {
    hide At, Next;
    AtNext(lock, trace, k);
    StepRaisesNumbers(lock, At(lock, trace, k), trace[k]);
    NumbersRise(lock, trace, k + 1, m);
  }

  lemma {:induction false} AppendedIsWritten(lock: Timeline -> int, trace: seq<Action>, n: nat, k: nat, c: Client, timeline: Timeline, entity: Id)
    requires k < n <= |trace| && Appends(lock, trace, k, c, timeline, entity)
    ensures c in At(lock, trace, n).txns
    ensures Event(At(lock, trace, k).nextSeq, timeline, entity) in At(lock, trace, n).txns[c].written
    decreases n
  {
    hide At, Next;
    var s := At(lock, trace, n - 1);
    AtNext(lock, trace, n - 1);
    StepWrites(lock, s, trace[n - 1], c);
    if k < n - 1 {
      AppendedIsWritten(lock, trace, n - 1, k, c, timeline, entity);
    }
  }

  lemma {:induction false} WrittenWasAppended(lock: Timeline -> int, trace: seq<Action>, n: nat, c: Client, e: Event)
    requires n <= |trace| && c in At(lock, trace, n).txns && e in At(lock, trace, n).txns[c].written
    ensures exists k: nat :: k < n && Appends(lock, trace, k, c, e.timeline, e.entity) && At(lock, trace, k).nextSeq == e.seqNo
    decreases n
  {
    hide At, Next;
    if n == 0 {
      AtStart(lock, trace);
    } else {
      var s, a := At(lock, trace, n - 1), trace[n - 1];
      AtNext(lock, trace, n - 1);
      StepWrites(lock, s, a, c);
      if c in s.txns && e in s.txns[c].written {
        WrittenWasAppended(lock, trace, n - 1, c, e);
      } else {
        assert Appends(lock, trace, n - 1, c, e.timeline, e.entity);
      }
    }
  }

  /** The log holds the events of the committed transactions and no others. */
  lemma {:induction false} LogIsCommitted(lock: Timeline -> int, trace: seq<Action>, n: nat, e: Event)
    requires n <= |trace|
    ensures e in At(lock, trace, n).log <==>
            exists x :: x in At(lock, trace, n).txns && At(lock, trace, n).txns[x].status.Committed? && e in At(lock, trace, n).txns[x].written
    decreases n
  {
    hide At, Next;
    if n == 0 {
      AtStart(lock, trace);
    } else {
      LogIsCommitted(lock, trace, n - 1, e);
      AtNext(lock, trace, n - 1);
      StepKeepsLog(lock, At(lock, trace, n - 1), trace[n - 1], e);
    }
  }

  ghost predicate IsCommitted(s: State, e: Event) {
    exists x :: x in s.txns && s.txns[x].status.Committed? && e in s.txns[x].written
  }

  lemma StepKeepsLog(lock: Timeline -> int, s: State, a: Action, e: Event)
    requires e in s.log <==> IsCommitted(s, e)
    ensures e in Next(lock, s, a).log <==> IsCommitted(Next(lock, s, a), e)
  {
    var t := Next(lock, s, a);
    StepLog(lock, s, a);
    forall x | x in s.txns ensures x in t.txns && (s.txns[x].status.Committed? ==> t.txns[x] == s.txns[x]) { StepKeepsLocks(lock, s, a, x); }
    hide Next, IsLive;
    if a.Commit? && IsLive(s, a.client) {
      CommitShows(lock, s, a.client);
      if e in s.txns[a.client].written { assert e in t.txns[a.client].written; }
    }
    if IsCommitted(t, e) {
      var x :| x in t.txns && t.txns[x].status.Committed? && e in t.txns[x].written;
      CommittedBefore(lock, s, a, x);
    }
  }

  lemma StepLog(lock: Timeline -> int, s: State, a: Action)
    ensures Next(lock, s, a).log == if a.Commit? && IsLive(s, a.client) then s.log + s.txns[a.client].written else s.log
  {
    hide LockFree, CurrentSeq;
  }

  lemma CommitShows(lock: Timeline -> int, s: State, c: Client)
    requires IsLive(s, c)
    ensures var t := Next(lock, s, Commit(c));
            c in t.txns && t.txns[c].status.Committed? && t.txns[c].written == s.txns[c].written
  {
  }

  lemma CommittedBefore(lock: Timeline -> int, s: State, a: Action, x: Client)
    requires x in Next(lock, s, a).txns && Next(lock, s, a).txns[x].status.Committed?
    ensures x in s.txns
    ensures s.txns[x].status.Committed? || (a == Commit(x) && IsLive(s, x))
    ensures Next(lock, s, a).txns[x].written == s.txns[x].written
  {
    hide LockFree, CurrentSeq;
  }

  lemma {:induction false} LocksPersist(lock: Timeline -> int, trace: seq<Action>, m: nat, n: nat, c: Client)
    requires m <= n <= |trace| && c in At(lock, trace, m).txns
    ensures c in At(lock, trace, n).txns
    ensures IsLive(At(lock, trace, n), c) ==> IsLive(At(lock, trace, m), c) && At(lock, trace, m).txns[c].locks <= At(lock, trace, n).txns[c].locks
    decreases n
  {
    hide At, Next;
    if m < n {
      LocksPersist(lock, trace, m, n - 1, c);
      AtNext(lock, trace, n - 1);
      StepKeepsLocks(lock, At(lock, trace, n - 1), trace[n - 1], c);
    }
  }

  lemma StepUses(lock: Timeline -> int, s: State, a: Action, c: Client, g: Claim)
    requires c in Next(lock, s, a).txns && g in Next(lock, s, a).txns[c].used
    ensures c in s.txns
    ensures g in s.txns[c].used || (a == Append(c, g.timeline, g.entity) && IsLive(s, c) && g in s.txns[c].claims)
  {
    hide LockFree, CurrentSeq;
  }

  /** A used claim was held when its entity was appended. */
  lemma {:induction false} UsedWasAppended(lock: Timeline -> int, trace: seq<Action>, n: nat, c: Client, g: Claim)
    requires n <= |trace| && c in At(lock, trace, n).txns && g in At(lock, trace, n).txns[c].used
    ensures exists k: nat :: k < n && Appends(lock, trace, k, c, g.timeline, g.entity) && g in At(lock, trace, k).txns[c].claims
    decreases n
  {
    hide At, Next;
    if n == 0 {
      AtStart(lock, trace);
    } else {
      AtNext(lock, trace, n - 1);
      StepUses(lock, At(lock, trace, n - 1), trace[n - 1], c, g);
      if g in At(lock, trace, n - 1).txns[c].used {
        UsedWasAppended(lock, trace, n - 1, c, g);
      } else {
        assert Appends(lock, trace, n - 1, c, g.timeline, g.entity);
      }
    }
  }

  lemma AtKeeps(lock: Timeline -> int, trace: seq<Action>, n: nat)
    requires n <= |trace|
    ensures Inv(lock, At(lock, trace, n))
  {
    hide Inv, Run;
    InitialIsFine(lock);
    RunKeeps(lock, INITIAL, trace[..n]);
  }

  // ---------- Main results ----------

  /** Who appends the entity after a guarded writer's last append of it, while that writer runs, does so without the timeline's lock. */
  lemma {:induction false} OvertakerHoldsNoLock(lock: Timeline -> int, trace: seq<Action>, c: Client, g: Claim, d: Client, k: nat)
    requires var s := Run(lock, INITIAL, trace); IsLive(s, c) && g in s.txns[c].used
    requires Overtakes(lock, trace, k, d, c, g.timeline, g.entity)
    ensures g.timeline !in At(lock, trace, k).txns[d].locks
  {
    hide At, Run, Beyond, Below, CommittedOk, ClaimsApart;
    AtEnd(lock, trace);
    UsedWasAppended(lock, trace, |trace|, c, g);
    var m: nat :| m < |trace| && Appends(lock, trace, m, c, g.timeline, g.entity) && g in At(lock, trace, m).txns[c].claims;
    AtKeeps(lock, trace, m);
    assert TxnOk(At(lock, trace, m).nextSeq, At(lock, trace, m).txns[c]);
    LocksPersist(lock, trace, m, k, c);
    LocksPersist(lock, trace, k, |trace|, c);
    AtKeeps(lock, trace, k);
    LocksApart(lock, At(lock, trace, k), c, d, g.timeline);
  }

  /** A committed overtaker has put a greater number on the log than any that the guarded writer brings. */
  lemma {:induction false} OvertakerIsAhead(lock: Timeline -> int, trace: seq<Action>, c: Client, d: Client, k: nat, e: Event)
    requires var s := Run(lock, INITIAL, trace); c in s.txns && d in s.txns && s.txns[d].status.Committed? && e in s.txns[c].written
    requires Overtakes(lock, trace, k, d, c, e.timeline, e.entity)
    ensures e.seqNo <= CurrentSeq(Run(lock, INITIAL, trace).log, e.timeline, e.entity)
  {
    hide At, Run, Next;
    var n := |trace|;
    AtEnd(lock, trace);
    var s := At(lock, trace, n);
    var ahead := Event(At(lock, trace, k).nextSeq, e.timeline, e.entity);
    AppendedIsWritten(lock, trace, n, k, d, e.timeline, e.entity);
    LogIsCommitted(lock, trace, n, ahead);
    assert ahead in s.log && Matches(ahead, e.timeline, e.entity);
    WrittenWasAppended(lock, trace, n, c, e);
    var m: nat :| m < n && Appends(lock, trace, m, c, e.timeline, e.entity) && At(lock, trace, m).nextSeq == e.seqNo;
    LaterAppendsAreGreater(lock, trace, m, k, c, e.timeline, e.entity);
  }

  /** The last of a client's appends of an entity. */
  lemma {:induction false} LastAppend(lock: Timeline -> int, trace: seq<Action>, c: Client, timeline: Timeline, entity: Id, k: nat) returns (m: nat)
    requires Appends(lock, trace, k, c, timeline, entity)
    ensures Appends(lock, trace, m, c, timeline, entity)
    ensures forall i: nat :: Appends(lock, trace, i, c, timeline, entity) ==> i <= m
    decreases |trace| - k
  {
    hide At;
    if j: nat :| Appends(lock, trace, j, c, timeline, entity) && k < j {
      m := LastAppend(lock, trace, c, timeline, entity, j);
    } else {
      m := k;
    }
  }

  /** Without a committed overtaker the last own event is ahead of everything committed. */
  lemma {:induction false} NotOvertakenIsAhead(lock: Timeline -> int, trace: seq<Action>, c: Client, m: nat, timeline: Timeline, entity: Id)
    requires var s := Run(lock, INITIAL, trace); IsLive(s, c)
    requires Appends(lock, trace, m, c, timeline, entity)
    requires forall i: nat :: Appends(lock, trace, i, c, timeline, entity) ==> i <= m
    requires var s := Run(lock, INITIAL, trace);
             !exists d, k: nat :: d in s.txns && s.txns[d].status.Committed? && Overtakes(lock, trace, k, d, c, timeline, entity)
    ensures At(lock, trace, m).nextSeq > CurrentSeq(Run(lock, INITIAL, trace).log, timeline, entity)
  {
    hide At, Run, Next, Inv;
    var n := |trace|;
    AtEnd(lock, trace);
    AtKeeps(lock, trace, m);
    NumbersArePositive(lock, At(lock, trace, m));
    var s := At(lock, trace, n);
    var current := CurrentSeq(s.log, timeline, entity);
    if current > 0 {
      var e :| e in s.log && Matches(e, timeline, entity) && e.seqNo == current;
      LogIsCommitted(lock, trace, n, e);
      var d :| d in s.txns && s.txns[d].status.Committed? && e in s.txns[d].written;
      WrittenWasAppended(lock, trace, n, d, e);
      var k: nat :| k < n && Appends(lock, trace, k, d, timeline, entity) && At(lock, trace, k).nextSeq == e.seqNo;
      assert !Overtakes(lock, trace, k, d, c, timeline, entity);
      var i: nat :| Appends(lock, trace, i, c, timeline, entity) && k <= i;
      assert k < m;
      LaterAppendsAreGreater(lock, trace, k, m, d, timeline, entity);
    }
  }

  lemma NumbersArePositive(lock: Timeline -> int, s: State)
    requires Inv(lock, s)
    ensures s.nextSeq > 0
  {
  }

  /**
   A guarded commit raises the committed number of its entity iff no other transaction that appended
   the entity after the committing one's last append of it has committed.
   */
  lemma {:induction false} GuardedCommitRaisesIff(lock: Timeline -> int, trace: seq<Action>, c: Client, g: Claim)
    requires var s := Run(lock, INITIAL, trace); IsLive(s, c) && g in s.txns[c].used
    ensures var s := Run(lock, INITIAL, trace);
            CurrentSeq(Next(lock, s, Commit(c)).log, g.timeline, g.entity) > CurrentSeq(s.log, g.timeline, g.entity) <==>
            !exists d, k: nat :: d in s.txns && s.txns[d].status.Committed? && Overtakes(lock, trace, k, d, c, g.timeline, g.entity)
  {
    hide At, Run, Next, Overtakes, Appends, CurrentSeq;
    var s := Run(lock, INITIAL, trace);
    AtEnd(lock, trace);
    CommitRaisesIff(lock, s, c, g.timeline, g.entity);
    if d, k: nat :| d in s.txns && s.txns[d].status.Committed? && Overtakes(lock, trace, k, d, c, g.timeline, g.entity) {
      forall e | e in s.txns[c].written && Matches(e, g.timeline, g.entity) ensures e.seqNo <= CurrentSeq(s.log, g.timeline, g.entity) {
        OvertakerIsAhead(lock, trace, c, d, k, e);
      }
    } else {
      UsedWasAppended(lock, trace, |trace|, c, g);
      var j: nat :| j < |trace| && Appends(lock, trace, j, c, g.timeline, g.entity);
      var m := LastAppend(lock, trace, c, g.timeline, g.entity, j);
      NotOvertakenIsAhead(lock, trace, c, m, g.timeline, g.entity);
      AppendsWithin(lock, trace, m, c, g.timeline, g.entity);
      AppendedIsWritten(lock, trace, |trace|, m, c, g.timeline, g.entity);
      assert Matches(Event(At(lock, trace, m).nextSeq, g.timeline, g.entity), g.timeline, g.entity);
    }
  }

  lemma AppendsWithin(lock: Timeline -> int, trace: seq<Action>, m: nat, c: Client, timeline: Timeline, entity: Id)
    requires Appends(lock, trace, m, c, timeline, entity)
    ensures m < |trace|
  {
  }
}
