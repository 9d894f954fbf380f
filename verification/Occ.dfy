/**
 Optimistic concurrency by event sequence, as interleaved transactions over the append-only log.
 The guard locks a hash of the timeline, held to the end of the transaction, and compares the
 entity's latest visible sequence number with the expected one.  Sequence numbers are handed out
 when an event is appended, not when it is committed.
 */
module Occ {
  import opened Values

  type Id = nat
  type Client = nat

  /** A main or branch timeline of a galaxy. */
  datatype Timeline = Timeline(user: Id, galaxy: Id, branch: Option<Id>)

  datatype Event = Event(seqNo: nat, timeline: Timeline, entity: Id)

  /** A guard that let its transaction pass. */
  datatype Claim = Claim(timeline: Timeline, entity: Id, expected: nat)

  datatype Status = Live | Committed | Aborted

  /** `used` are the claims after which the transaction appended an event for the guarded entity. */
  datatype Txn = Txn(status: Status, locks: set<Timeline>, claims: set<Claim>, used: set<Claim>, written: seq<Event>)

  /** `log` holds the committed events in commit order. */
  datatype State = State(log: seq<Event>, nextSeq: nat, txns: map<Client, Txn>)

  datatype Action =
    | Begin(client: Client)
    | Lock(client: Client, timeline: Timeline)
    | Check(client: Client, claim: Claim)
    | Append(client: Client, timeline: Timeline, entity: Id)
    | Commit(client: Client)
    | Abort(client: Client)

  const INITIAL: State := State([], 1, map[])

  // ---------- Steps ----------

  predicate Matches(e: Event, timeline: Timeline, entity: Id) {
    e.timeline == timeline && e.entity == entity
  }

  /** The latest sequence number of an entity, zero without events. */
  function CurrentSeq(log: seq<Event>, timeline: Timeline, entity: Id): (r: nat)
    ensures forall e :: e in log && Matches(e, timeline, entity) ==> e.seqNo <= r
    ensures r == 0 || exists e :: e in log && Matches(e, timeline, entity) && e.seqNo == r
  {
    if log == [] then 0 else
      var last := log[|log| - 1];
      var rest := CurrentSeq(log[..|log| - 1], timeline, entity);
      assert log == log[..|log| - 1] + [last];
      assert forall e :: e in log <==> e in log[..|log| - 1] || e == last;
      if Matches(last, timeline, entity) && last.seqNo > rest then last.seqNo else rest
  }

  predicate IsLive(s: State, c: Client) {
    c in s.txns && s.txns[c].status.Live?
  }

  predicate LockFree(lock: Timeline -> int, s: State, c: Client, timeline: Timeline) {
    forall d :: d in s.txns && d != c && s.txns[d].status.Live? ==> forall t :: t in s.txns[d].locks ==> lock(t) != lock(timeline)
  }

  predicate Enabled(lock: Timeline -> int, s: State, a: Action) {
    if a.Begin? then a.client !in s.txns else
      IsLive(s, a.client) &&
      match a
      case Lock(c, timeline) => LockFree(lock, s, c, timeline)
      case Check(c, claim) => claim.timeline in s.txns[c].locks
      case _ => true
  }

  function CheckClaim(s: State, txn: Txn, claim: Claim): Txn {
    if CurrentSeq(s.log + txn.written, claim.timeline, claim.entity) == claim.expected
    then txn.(claims := txn.claims + {claim})
    else txn.(status := Aborted)
  }

  function Used(claims: set<Claim>, timeline: Timeline, entity: Id): set<Claim> {
    set g | g in claims && g.timeline == timeline && g.entity == entity
  }

  function AppendEvent(s: State, txn: Txn, timeline: Timeline, entity: Id): Txn {
    txn.(written := txn.written + [Event(s.nextSeq, timeline, entity)], used := txn.used + Used(txn.claims, timeline, entity))
  }

  function Next(lock: Timeline -> int, s: State, a: Action): State {
    if !Enabled(lock, s, a) then s else
      var c := a.client;
      match a
      case Begin(_) => s.(txns := s.txns[c := Txn(Live, {}, {}, {}, [])])
      case Lock(_, timeline) => s.(txns := s.txns[c := s.txns[c].(locks := s.txns[c].locks + {timeline})])
      case Check(_, claim) => s.(txns := s.txns[c := CheckClaim(s, s.txns[c], claim)])
      case Append(_, timeline, entity) =>
        s.(nextSeq := s.nextSeq + 1, txns := s.txns[c := AppendEvent(s, s.txns[c], timeline, entity)])
      case Commit(_) => s.(log := s.log + s.txns[c].written, txns := s.txns[c := s.txns[c].(status := Committed)])
      case Abort(_) => s.(txns := s.txns[c := s.txns[c].(status := Aborted)])
  }

  function Run(lock: Timeline -> int, s: State, trace: seq<Action>): State {
    if trace == [] then s else Next(lock, Run(lock, s, trace[..|trace| - 1]), trace[|trace| - 1])
  }

  // ---------- Invariant ----------

  ghost predicate HashesDiffer(lock: Timeline -> int, a: set<Timeline>, b: set<Timeline>) {
    forall t, u :: t in a && u in b ==> lock(t) != lock(u)
  }

  ghost predicate Exclusive(lock: Timeline -> int, s: State) {
    forall c, d :: IsLive(s, c) && IsLive(s, d) && c != d ==> HashesDiffer(lock, s.txns[c].locks, s.txns[d].locks)
  }

  predicate Below(events: seq<Event>, bound: nat) {
    forall i :: 0 <= i < |events| ==> events[i].seqNo < bound
  }

  /** The events move the entity past the claim. */
  predicate Beyond(events: seq<Event>, g: Claim) {
    exists i :: 0 <= i < |events| && Matches(events[i], g.timeline, g.entity) && events[i].seqNo > g.expected
  }

  predicate TxnOk(nextSeq: nat, txn: Txn) {
    && Below(txn.written, nextSeq)
    && txn.used <= txn.claims
    && (forall g :: g in txn.claims ==> g.timeline in txn.locks && g.expected < nextSeq)
    && (forall g :: g in txn.used ==> Beyond(txn.written, g))
  }

  ghost predicate CommittedOk(s: State) {
    forall c, g :: c in s.txns && s.txns[c].status.Committed? && g in s.txns[c].used ==> Beyond(s.log, g)
  }

  /** No two transactions hold or have won the same claim, unless one of them is gone. */
  ghost predicate ClaimsApart(s: State) {
    forall c, d, g :: c in s.txns && d in s.txns && c != d && !s.txns[c].status.Aborted? && s.txns[d].status.Committed?
                      && g in (if s.txns[c].status.Live? then s.txns[c].claims else s.txns[c].used)
      ==> g !in s.txns[d].used
  }

  ghost predicate Inv(lock: Timeline -> int, s: State) {
    && Exclusive(lock, s) && Below(s.log, s.nextSeq) && s.nextSeq > 0
    && (forall c :: c in s.txns ==> TxnOk(s.nextSeq, s.txns[c]))
    && CommittedOk(s) && ClaimsApart(s)
  }

  lemma LocksApart(lock: Timeline -> int, s: State, c: Client, d: Client, timeline: Timeline)
    requires Exclusive(lock, s) && IsLive(s, c) && IsLive(s, d) && c != d && timeline in s.txns[c].locks
    ensures timeline !in s.txns[d].locks
  {
    assert HashesDiffer(lock, s.txns[c].locks, s.txns[d].locks);
  }

  // ---------- Every step keeps the invariant ----------

  lemma BeyondMeansLater(events: seq<Event>, g: Claim)
    ensures Beyond(events, g) <==> CurrentSeq(events, g.timeline, g.entity) > g.expected
  {
    var r := CurrentSeq(events, g.timeline, g.entity);
    if Beyond(events, g) {
      var i :| 0 <= i < |events| && Matches(events[i], g.timeline, g.entity) && events[i].seqNo > g.expected;
      assert events[i] in events;
    }
  }

  lemma CurrentSeqBelow(events: seq<Event>, timeline: Timeline, entity: Id, bound: nat)
    requires Below(events, bound) && bound > 0
    ensures CurrentSeq(events, timeline, entity) < bound
  {
  }

  lemma BeyondStays(events: seq<Event>, more: seq<Event>, g: Claim)
    requires Beyond(events, g)
    ensures Beyond(events + more, g)
  {
    var i :| 0 <= i < |events| && Matches(events[i], g.timeline, g.entity) && events[i].seqNo > g.expected;
    assert (events + more)[i] == events[i];
  }

  lemma BeyondInSecond(events: seq<Event>, more: seq<Event>, g: Claim)
    requires Beyond(more, g)
    ensures Beyond(events + more, g)
  {
    var i :| 0 <= i < |more| && Matches(more[i], g.timeline, g.entity) && more[i].seqNo > g.expected;
    assert (events + more)[|events| + i] == more[i];
  }

  lemma {:induction false} AppendKeepsTxn(s: State, txn: Txn, timeline: Timeline, entity: Id)
    requires TxnOk(s.nextSeq, txn)
    ensures TxnOk(s.nextSeq + 1, AppendEvent(s, txn, timeline, entity))
  {
    hide Beyond;
    var next := AppendEvent(s, txn, timeline, entity);
    var e := Event(s.nextSeq, timeline, entity);
    forall g | g in next.used ensures Beyond(next.written, g) {
      if g in txn.used {
        BeyondStays(txn.written, [e], g);
      } else {
        assert Beyond([e], g) by { SingleIsBeyond(e, g); }
        BeyondInSecond(txn.written, [e], g);
      }
    }
  }

  lemma SingleIsBeyond(e: Event, g: Claim)
    requires Matches(e, g.timeline, g.entity) && e.seqNo > g.expected
    ensures Beyond([e], g)
  {
    assert [e][0] == e;
  }

  /** A claim that passes the check has not been won by anybody. */
  lemma {:induction false} CheckedClaimIsOpen(lock: Timeline -> int, s: State, c: Client, claim: Claim)
    requires Inv(lock, s) && IsLive(s, c)
    requires CurrentSeq(s.log + s.txns[c].written, claim.timeline, claim.entity) == claim.expected
    ensures forall d :: d in s.txns && s.txns[d].status.Committed? ==> claim !in s.txns[d].used
  {
    hide Beyond, TxnOk, Exclusive, ClaimsApart;
    forall d | d in s.txns && s.txns[d].status.Committed? ensures claim !in s.txns[d].used {
      if claim in s.txns[d].used {
        BeyondStays(s.log, s.txns[c].written, claim);
        BeyondMeansLater(s.log + s.txns[c].written, claim);
      }
    }
  }

  lemma {:induction false} CheckKeeps(lock: Timeline -> int, s: State, c: Client, claim: Claim)
    requires Inv(lock, s) && Enabled(lock, s, Check(c, claim))
    ensures Inv(lock, Next(lock, s, Check(c, claim)))
  {
    hide Beyond, Below, CurrentSeq, CommittedOk;
    var t := Next(lock, s, Check(c, claim));
    if CurrentSeq(s.log + s.txns[c].written, claim.timeline, claim.entity) == claim.expected {
      CheckedClaimIsOpen(lock, s, c, claim);
      BelowTogether(s.log, s.txns[c].written, s.nextSeq);
      CurrentSeqBelow(s.log + s.txns[c].written, claim.timeline, claim.entity, s.nextSeq);
    }
    assert CommittedOk(t) by { SameWinners(s, t); }
  }

  lemma BelowTogether(a: seq<Event>, b: seq<Event>, bound: nat)
    requires Below(a, bound) && Below(b, bound)
    ensures Below(a + b, bound)
  {
  }

  lemma BelowRaised(a: seq<Event>, bound: nat)
    requires Below(a, bound)
    ensures Below(a, bound + 1)
  {
  }

  lemma SameWinners(s: State, t: State)
    requires CommittedOk(s) && t.log == s.log
    requires forall c :: c in t.txns && t.txns[c].status.Committed? ==> c in s.txns && s.txns[c] == t.txns[c]
    ensures CommittedOk(t)
  {
    hide Beyond;
  }

  lemma {:induction false} AppendKeeps(lock: Timeline -> int, s: State, c: Client, timeline: Timeline, entity: Id)
    requires Inv(lock, s) && IsLive(s, c)
    ensures Inv(lock, Next(lock, s, Append(c, timeline, entity)))
  {
    hide Beyond, Below, CommittedOk, TxnOk;
    var t := Next(lock, s, Append(c, timeline, entity));
    AppendKeepsTxn(s, s.txns[c], timeline, entity);
    BelowRaised(s.log, s.nextSeq);
    forall d | d in t.txns ensures TxnOk(t.nextSeq, t.txns[d]) {
      if d != c { TxnOkRaised(s.nextSeq, s.txns[d]); }
    }
    assert CommittedOk(t) by { SameWinners(s, t); }
  }

  lemma TxnOkRaised(nextSeq: nat, txn: Txn)
    requires TxnOk(nextSeq, txn)
    ensures TxnOk(nextSeq + 1, txn)
  {
    hide Beyond;
  }

  lemma {:induction false} CommitKeeps(lock: Timeline -> int, s: State, c: Client)
    requires Inv(lock, s) && IsLive(s, c)
    ensures Inv(lock, Next(lock, s, Commit(c)))
  {
    hide Beyond, Below;
    var t := Next(lock, s, Commit(c));
    BelowTogether(s.log, s.txns[c].written, s.nextSeq);
    forall d, g | d in t.txns && t.txns[d].status.Committed? && g in t.txns[d].used ensures Beyond(t.log, g) {
      if d == c {
        BeyondInSecond(s.log, s.txns[c].written, g);
      } else {
        BeyondStays(s.log, s.txns[c].written, g);
      }
    }
    assert CommittedOk(t);
    assert ClaimsApart(t) by { CommitKeepsApart(lock, s, c); }
  }

  lemma {:induction false} CommitKeepsApart(lock: Timeline -> int, s: State, c: Client)
    requires Inv(lock, s) && IsLive(s, c)
    ensures ClaimsApart(Next(lock, s, Commit(c)))
  {
    hide Beyond, Below, CommittedOk;
    var t := Next(lock, s, Commit(c));
    forall a, b, g | a in t.txns && b in t.txns && a != b && !t.txns[a].status.Aborted? && t.txns[b].status.Committed?
                     && g in (if t.txns[a].status.Live? then t.txns[a].claims else t.txns[a].used)
      ensures g !in t.txns[b].used
    {
      if a == c {
        assert TxnOk(s.nextSeq, s.txns[c]);
        assert g in s.txns[c].claims;
      } else if b == c && g in s.txns[c].used {
        assert TxnOk(s.nextSeq, s.txns[c]) && TxnOk(s.nextSeq, s.txns[a]);
        if t.txns[a].status.Live? {
          LocksApart(lock, s, a, c, g.timeline);
        }
      }
    }
  }

  lemma BeginKeeps(lock: Timeline -> int, s: State, c: Client)
    requires Inv(lock, s) && c !in s.txns
    ensures Inv(lock, Next(lock, s, Begin(c)))
  {
    hide Beyond, Below, CommittedOk, CurrentSeq;
    var t := Next(lock, s, Begin(c));
    SameWinners(s, t);
    assert t.txns[c] == Txn(Live, {}, {}, {}, []);
    assert TxnOk(t.nextSeq, t.txns[c]) by { NothingIsBelow(s.nextSeq); }
    assert forall d :: d in t.txns && d != c ==> d in s.txns && t.txns[d] == s.txns[d];
  }

  lemma NothingIsBelow(bound: nat)
    ensures Below([], bound)
  {
  }

  lemma LockKeeps(lock: Timeline -> int, s: State, c: Client, timeline: Timeline)
    requires Inv(lock, s) && Enabled(lock, s, Lock(c, timeline))
    ensures Inv(lock, Next(lock, s, Lock(c, timeline)))
  {
    hide Beyond, Below, CommittedOk, CurrentSeq;
    var t := Next(lock, s, Lock(c, timeline));
    SameWinners(s, t);
    assert forall d :: d in t.txns && d != c ==> d in s.txns && t.txns[d] == s.txns[d];
    forall a, b | IsLive(t, a) && IsLive(t, b) && a != b
      ensures HashesDiffer(lock, t.txns[a].locks, t.txns[b].locks)
    {
      assert IsLive(s, a) && IsLive(s, b);
      assert HashesDiffer(lock, s.txns[a].locks, s.txns[b].locks);
    }
  }

  lemma AbortKeeps(lock: Timeline -> int, s: State, c: Client)
    requires Inv(lock, s) && IsLive(s, c)
    ensures Inv(lock, Next(lock, s, Abort(c)))
  {
    hide Beyond, Below, CommittedOk, CurrentSeq;
    var t := Next(lock, s, Abort(c));
    SameWinners(s, t);
    assert forall d :: d in t.txns && d != c ==> d in s.txns && t.txns[d] == s.txns[d];
  }

  lemma {:induction false} StepKeeps(lock: Timeline -> int, s: State, a: Action)
    requires Inv(lock, s)
    ensures Inv(lock, Next(lock, s, a))
  {
    hide Beyond, Below, CommittedOk, CurrentSeq;
    if Enabled(lock, s, a) {
      match a {
        case Begin(c) => BeginKeeps(lock, s, c);
        case Lock(c, timeline) => LockKeeps(lock, s, c, timeline);
        case Check(c, claim) => CheckKeeps(lock, s, c, claim);
        case Append(c, timeline, entity) => AppendKeeps(lock, s, c, timeline, entity);
        case Commit(c) => CommitKeeps(lock, s, c);
        case Abort(c) => AbortKeeps(lock, s, c);
      }
    }
  }

  lemma {:induction false} RunKeeps(lock: Timeline -> int, s: State, trace: seq<Action>)
    requires Inv(lock, s)
    ensures Inv(lock, Run(lock, s, trace))
    decreases |trace|
  {
    hide Inv, Next;
    if trace != [] {
      RunKeeps(lock, s, trace[..|trace| - 1]);
      StepKeeps(lock, Run(lock, s, trace[..|trace| - 1]), trace[|trace| - 1]);
    }
  }

  lemma InitialIsFine(lock: Timeline -> int)
    ensures Inv(lock, INITIAL)
  {
  }

  // ---------- Main results ----------

  /** Two transactions that passed the guard with the same expectation and then wrote the entity cannot both commit. */
  lemma {:induction false} NoLostUpdate(lock: Timeline -> int, trace: seq<Action>, c: Client, d: Client, g: Claim)
    requires var s := Run(lock, INITIAL, trace);
             && c in s.txns && d in s.txns && s.txns[c].status.Committed? && s.txns[d].status.Committed?
             && g in s.txns[c].used && g in s.txns[d].used
    ensures c == d
  {
    hide Run, Beyond, Below, Exclusive, CommittedOk;
    InitialIsFine(lock);
    RunKeeps(lock, INITIAL, trace);
  }

  /** After a guarded commit the entity is past the expected number, and stays past it. */
  lemma {:induction false} GuardedCommitMovesOn(lock: Timeline -> int, trace: seq<Action>, c: Client, g: Claim)
    requires var s := Run(lock, INITIAL, trace);
             c in s.txns && s.txns[c].status.Committed? && g in s.txns[c].used
    ensures CurrentSeq(Run(lock, INITIAL, trace).log, g.timeline, g.entity) > g.expected
  {
    hide Run, Beyond, Below, Exclusive, ClaimsApart;
    InitialIsFine(lock);
    RunKeeps(lock, INITIAL, trace);
    BeyondMeansLater(Run(lock, INITIAL, trace).log, g);
  }

  // ---------- When a guarded commit raises the latest number ----------

  /** The entity's events are appended under the lock of its timeline; nothing is asked of other entities. */
  ghost predicate Disciplined(lock: Timeline -> int, trace: seq<Action>, timeline: Timeline, entity: Id) {
    forall i :: 0 <= i < |trace| && trace[i].Append? && trace[i].timeline == timeline && trace[i].entity == entity ==>
      var s := Run(lock, INITIAL, trace[..i]);
      IsLive(s, trace[i].client) ==> timeline in s.txns[trace[i].client].locks
  }

  predicate WritesLocked(txn: Txn, timeline: Timeline, entity: Id) {
    (exists i :: 0 <= i < |txn.written| && Matches(txn.written[i], timeline, entity)) ==> timeline in txn.locks
  }

  predicate NotOvertaken(log: seq<Event>, g: Claim) {
    CurrentSeq(log, g.timeline, g.entity) <= g.expected
  }

  ghost predicate LockedInv(s: State, timeline: Timeline, entity: Id) {
    forall c :: IsLive(s, c) ==>
      && WritesLocked(s.txns[c], timeline, entity)
      && forall g :: g in s.txns[c].claims && g.timeline == timeline && g.entity == entity ==> NotOvertaken(s.log, g)
  }

  lemma {:induction false} OthersDoNotOvertake(lock: Timeline -> int, s: State, c: Client, d: Client, g: Claim)
    requires Inv(lock, s) && LockedInv(s, g.timeline, g.entity)
    requires IsLive(s, c) && IsLive(s, d) && c != d && g in s.txns[d].claims
    ensures NotOvertaken(s.log + s.txns[c].written, g)
  {
    hide Beyond, Below, CommittedOk, ClaimsApart, CurrentSeq, Matches;
    assert TxnOk(s.nextSeq, s.txns[d]);
    LocksApart(lock, s, d, c, g.timeline);
    assert NotOvertaken(s.log, g);
    UnrelatedEvents(s.log, s.txns[c].written, g.timeline, g.entity);
  }

  lemma {:induction false} UnrelatedEvents(log: seq<Event>, more: seq<Event>, timeline: Timeline, entity: Id)
    requires forall i :: 0 <= i < |more| ==> !Matches(more[i], timeline, entity)
    ensures CurrentSeq(log + more, timeline, entity) == CurrentSeq(log, timeline, entity)
    decreases |more|
  {
    if more == [] {
      assert log + more == log;
    } else {
      var last := |more| - 1;
      UnrelatedEvents(log, more[..last], timeline, entity);
      assert (log + more)[..|log + more| - 1] == log + more[..last];
    }
  }

  lemma CommittedPartIsNotLater(log: seq<Event>, more: seq<Event>, timeline: Timeline, entity: Id)
    ensures CurrentSeq(log, timeline, entity) <= CurrentSeq(log + more, timeline, entity)
  {
    var r := CurrentSeq(log, timeline, entity);
    if r > 0 {
      var e :| e in log && Matches(e, timeline, entity) && e.seqNo == r;
      assert e in log + more;
    }
  }

  lemma {:induction false} StepKeepsLocked(lock: Timeline -> int, s: State, a: Action, timeline: Timeline, entity: Id)
    requires Inv(lock, s) && LockedInv(s, timeline, entity)
    requires a.Append? && a.timeline == timeline && a.entity == entity && IsLive(s, a.client) ==> timeline in s.txns[a.client].locks
    ensures LockedInv(Next(lock, s, a), timeline, entity)
  {
    hide Inv, NotOvertaken, CurrentSeq, WritesLocked, LockFree;
    if Enabled(lock, s, a) {
      var t := Next(lock, s, a);
      forall d | IsLive(t, d) ensures WritesLocked(t.txns[d], timeline, entity) {
        if IsLive(s, d) {
          StepKeepsWrites(lock, s, a, d, timeline, entity);
        } else {
          NothingIsWritten(t.txns[d], timeline, entity);
        }
      }
      if a.Commit? {
        forall d, g | IsLive(t, d) && g in t.txns[d].claims && g.timeline == timeline && g.entity == entity
          ensures NotOvertaken(t.log, g)
        {
          OthersDoNotOvertake(lock, s, a.client, d, g);
        }
      } else if a.Check? {
        CheckIsNotOvertaken(s, s.txns[a.client], a.claim);
      }
    }
  }

  lemma NothingIsWritten(txn: Txn, timeline: Timeline, entity: Id)
    requires txn.written == []
    ensures WritesLocked(txn, timeline, entity)
  {
  }

  lemma StepKeepsWrites(lock: Timeline -> int, s: State, a: Action, d: Client, timeline: Timeline, entity: Id)
    requires IsLive(s, d) && WritesLocked(s.txns[d], timeline, entity) && Enabled(lock, s, a)
    requires a.Append? && a.timeline == timeline && a.entity == entity && IsLive(s, a.client) ==> timeline in s.txns[a.client].locks
    ensures d in Next(lock, s, a).txns && WritesLocked(Next(lock, s, a).txns[d], timeline, entity)
  {
    hide LockFree, CurrentSeq;
    var before, after := s.txns[d].written, Next(lock, s, a).txns[d].written;
    if i :| 0 <= i < |after| && Matches(after[i], timeline, entity) {
      if i < |before| { assert after[i] == before[i]; }
    }
  }

  lemma CheckIsNotOvertaken(s: State, txn: Txn, claim: Claim)
    ensures CheckClaim(s, txn, claim).status.Live? && claim in CheckClaim(s, txn, claim).claims && claim !in txn.claims
            ==> NotOvertaken(s.log, claim)
  {
    CommittedPartIsNotLater(s.log, txn.written, claim.timeline, claim.entity);
  }

  lemma {:induction false} RunKeepsLocked(lock: Timeline -> int, trace: seq<Action>, timeline: Timeline, entity: Id)
    requires Disciplined(lock, trace, timeline, entity)
    ensures LockedInv(Run(lock, INITIAL, trace), timeline, entity)
    decreases |trace|
  {
    hide Inv, Next, LockedInv, IsLive;
    if trace == [] {
      NobodyIsLocked(timeline, entity);
    } else {
      var last := |trace| - 1;
      forall i | 0 <= i < last ensures trace[..last][..i] == trace[..i] {}
      RunKeepsLocked(lock, trace[..last], timeline, entity);
      InitialIsFine(lock);
      RunKeeps(lock, INITIAL, trace[..last]);
      StepKeepsLocked(lock, Run(lock, INITIAL, trace[..last]), trace[last], timeline, entity);
    }
  }

  lemma NobodyIsLocked(timeline: Timeline, entity: Id)
    ensures LockedInv(INITIAL, timeline, entity)
  {
  }

  /** If every writer of the entity appends under the lock, a guarded commit raises the committed number from at most the expected one. */
  lemma {:induction false} DisciplinedCommitRaises(lock: Timeline -> int, trace: seq<Action>, c: Client, g: Claim)
    requires Disciplined(lock, trace, g.timeline, g.entity)
    requires IsLive(Run(lock, INITIAL, trace), c) && g in Run(lock, INITIAL, trace).txns[c].used
    ensures var s := Run(lock, INITIAL, trace);
            CurrentSeq(s.log, g.timeline, g.entity) <= g.expected
            < CurrentSeq(Next(lock, s, Commit(c)).log, g.timeline, g.entity)
  {
    hide Run, Below, Exclusive, CommittedOk, ClaimsApart, Beyond, CurrentSeq, WritesLocked;
    var s := Run(lock, INITIAL, trace);
    InitialIsFine(lock);
    RunKeeps(lock, INITIAL, trace);
    RunKeepsLocked(lock, trace, g.timeline, g.entity);
    assert TxnOk(s.nextSeq, s.txns[c]);
    BeyondInSecond(s.log, s.txns[c].written, g);
    BeyondMeansLater(s.log + s.txns[c].written, g);
  }

  /** The committed maximum rises iff the transaction brings a greater number; `Overtaking` says when it does. */
  lemma {:induction false} CommitRaisesIff(lock: Timeline -> int, s: State, c: Client, timeline: Timeline, entity: Id)
    requires IsLive(s, c)
    ensures CurrentSeq(Next(lock, s, Commit(c)).log, timeline, entity) > CurrentSeq(s.log, timeline, entity) <==>
            exists e :: e in s.txns[c].written && Matches(e, timeline, entity) && e.seqNo > CurrentSeq(s.log, timeline, entity)
  {
    var log, written := s.log, s.txns[c].written;
    var r := CurrentSeq(log + written, timeline, entity);
    assert forall e :: e in log + written <==> e in log || e in written;
  }

  /** An unguarded writer that appends later and commits earlier keeps a guarded commit from raising the number. */
  lemma OvertakenCommitDoesNotRaise(lock: Timeline -> int)
    ensures var main := Timeline(1, 1, None);
            var trace := [Begin(1), Begin(2), Lock(1, main), Check(1, Claim(main, 7, 0)), Append(1, main, 7), Append(2, main, 7), Commit(2)];
            var s := Run(lock, INITIAL, trace);
            && IsLive(s, 1) && Claim(main, 7, 0) in s.txns[1].used
            && CurrentSeq(Next(lock, s, Commit(1)).log, main, 7) == CurrentSeq(s.log, main, 7)
  {
    hide Run;
    var main := Timeline(1, 1, None);
    var g := Claim(main, 7, 0);
    var one := Txn(Live, {main}, {g}, {g}, [Event(1, main, 7)]);
    var two := Txn(Live, {}, {}, {}, [Event(2, main, 7)]);
    var s4 := State([], 1, map[1 := Txn(Live, {main}, {g}, {}, []), 2 := Txn(Live, {}, {}, {}, [])]);
    var guarded := [Begin(1), Begin(2), Lock(1, main), Check(1, g)];
    assert Run(lock, INITIAL, guarded) == s4 by { GuardedPart(lock); }
    var s5 := State([], 2, s4.txns[1 := one]);
    FirstAppend(s4, {main}, {g}, main, 7);
    assert Used({g}, main, 7) == {g};
    assert Next(lock, s4, Append(1, main, 7)) == s5;
    var s6 := State([], 3, s5.txns[2 := two]);
    FirstAppend(s5, {}, {}, main, 7);
    assert Used({}, main, 7) == {};
    assert Next(lock, s5, Append(2, main, 7)) == s6;
    var s7 := Next(lock, s6, Commit(2));
    RunSnoc(lock, INITIAL, guarded, Append(1, main, 7));
    RunSnoc(lock, INITIAL, guarded + [Append(1, main, 7)], Append(2, main, 7));
    RunSnoc(lock, INITIAL, guarded + [Append(1, main, 7)] + [Append(2, main, 7)], Commit(2));
    assert guarded + [Append(1, main, 7)] + [Append(2, main, 7)] + [Commit(2)]
        == [Begin(1), Begin(2), Lock(1, main), Check(1, g), Append(1, main, 7), Append(2, main, 7), Commit(2)];
    var log := [Event(2, main, 7), Event(1, main, 7)];
    assert s7.log == [Event(2, main, 7)] && Next(lock, s7, Commit(1)).log == log;
    assert log[..1] == [Event(2, main, 7)];
  }

  lemma FirstAppend(s: State, locks: set<Timeline>, claims: set<Claim>, timeline: Timeline, entity: Id)
    ensures AppendEvent(s, Txn(Live, locks, claims, {}, []), timeline, entity) ==
            Txn(Live, locks, claims, Used(claims, timeline, entity), [Event(s.nextSeq, timeline, entity)])
  {
    assert [] + [Event(s.nextSeq, timeline, entity)] == [Event(s.nextSeq, timeline, entity)];
    assert {} + Used(claims, timeline, entity) == Used(claims, timeline, entity);
  }

  lemma RunSnoc(lock: Timeline -> int, s: State, trace: seq<Action>, a: Action)
    ensures Run(lock, s, trace + [a]) == Next(lock, Run(lock, s, trace), a)
  {
    hide Next;
    assert (trace + [a])[..|trace|] == trace;
  }

  lemma GuardedPart(lock: Timeline -> int)
    ensures var main := Timeline(1, 1, None);
            Run(lock, INITIAL, [Begin(1), Begin(2), Lock(1, main), Check(1, Claim(main, 7, 0))]) ==
            State([], 1, map[1 := Txn(Live, {main}, {Claim(main, 7, 0)}, {}, []), 2 := Txn(Live, {}, {}, {}, [])])
  {
    hide Run;
    var main := Timeline(1, 1, None);
    var g := Claim(main, 7, 0);
    RunNothing(lock, INITIAL);
    RunSnoc(lock, INITIAL, [], Begin(1));
    RunSnoc(lock, INITIAL, [Begin(1)], Begin(2));
    RunSnoc(lock, INITIAL, [Begin(1), Begin(2)], Lock(1, main));
    RunSnoc(lock, INITIAL, [Begin(1), Begin(2), Lock(1, main)], Check(1, g));
    assert [] + [Begin(1)] == [Begin(1)] && [Begin(1)] + [Begin(2)] == [Begin(1), Begin(2)];
    assert [Begin(1), Begin(2)] + [Lock(1, main)] == [Begin(1), Begin(2), Lock(1, main)];
    assert [Begin(1), Begin(2), Lock(1, main)] + [Check(1, g)] == [Begin(1), Begin(2), Lock(1, main), Check(1, g)];
    var idle := Txn(Live, {}, {}, {}, []);
    var s2 := State([], 1, map[1 := idle, 2 := idle]);
    assert Next(lock, Next(lock, INITIAL, Begin(1)), Begin(2)) == s2;
    var s3 := State([], 1, map[1 := Txn(Live, {main}, {}, {}, []), 2 := idle]);
    LockAlone(lock, s2, s3, main);
    CheckAlone(lock, s3, main, g);
  }

  lemma LockAlone(lock: Timeline -> int, s: State, t: State, main: Timeline)
    requires var idle := Txn(Live, {}, {}, {}, []);
             s == State([], 1, map[1 := idle, 2 := idle]) && t == State([], 1, map[1 := Txn(Live, {main}, {}, {}, []), 2 := idle])
    ensures Next(lock, s, Lock(1, main)) == t
  {
    assert LockFree(lock, s, 1, main);
    assert {} + {main} == {main};
  }

  lemma CheckAlone(lock: Timeline -> int, s: State, main: Timeline, g: Claim)
    requires s == State([], 1, map[1 := Txn(Live, {main}, {}, {}, []), 2 := Txn(Live, {}, {}, {}, [])]) && g == Claim(main, 7, 0)
    ensures Next(lock, s, Check(1, g)) == State([], 1, map[1 := Txn(Live, {main}, {g}, {}, []), 2 := Txn(Live, {}, {}, {}, [])])
  {
    assert s.log + s.txns[1].written == [];
    assert {} + {g} == {g};
  }

  lemma RunNothing(lock: Timeline -> int, s: State)
    ensures Run(lock, s, []) == s
  {
  }
}
