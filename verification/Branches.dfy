/**
 Promotion of a branch onto the main timeline, as interleaved transactions over the append-only
 log.  A promotion locks the branch row, copies the branch's committed events one by one and marks
 the branch deleted; other transactions write events to any timeline meanwhile.
 */
module Branches {
  import opened Values

  type Id = nat
  type Client = nat

  /** Which branch event a promoted event copies; an annotation of the model. */
  datatype Origin = Origin(branch: Id, seqNo: nat)

  datatype Event = Event(seqNo: nat, user: Id, galaxy: Id, branch: Option<Id>, entity: Id, kind: string, payload: Json, copyOf: Option<Origin>)

  datatype Branch = Branch(galaxy: Id, deleted: bool)

  datatype Phase =
    | Asked
    | RowLocked
      /** `read` are the branch events, of which the first `copied` have been appended. */
    | Copying(read: seq<Event>, copied: nat)
    | Marked(events: seq<Event>, reported: nat)

  datatype Job = Writing | Promoting(user: Id, galaxy: Id, branch: Id, phase: Phase)

  datatype Status = Live | Committed | Aborted

  datatype Txn = Txn(status: Status, job: Job, written: seq<Event>)

  /** `log` holds the committed events in commit order. */
  datatype State = State(log: seq<Event>, branches: map<Id, Branch>, nextSeq: nat, txns: map<Client, Txn>)

  datatype Action =
    | AddBranch(id: Id, galaxy: Id)
    | Begin(client: Client)
    | Write(client: Client, user: Id, galaxy: Id, timeline: Option<Id>, entity: Id, kind: string, payload: Json)
    | BeginPromotion(client: Client, user: Id, galaxy: Id, branch: Id)
    | LockRow(client: Client)
    | ReadEvents(client: Client)
    | CopyNext(client: Client)
    | MarkDeleted(client: Client)
    | Commit(client: Client)
    | Abort(client: Client)

  const INITIAL: State := State([], map[], 1, map[])

  // ---------- The branch's events in order ----------

  function InsertBySeq(events: seq<Event>, e: Event): seq<Event> {
    if events == [] || events[|events| - 1].seqNo <= e.seqNo then events + [e]
    else InsertBySeq(events[..|events| - 1], e) + [events[|events| - 1]]
  }

  predicate OnBranch(e: Event, user: Id, galaxy: Id, branch: Id) {
    e.user == user && e.galaxy == galaxy && e.branch == Some(branch)
  }

  function BranchEvents(log: seq<Event>, user: Id, galaxy: Id, branch: Id): seq<Event> {
    if log == [] then [] else
      var rest := BranchEvents(log[..|log| - 1], user, galaxy, branch);
      var last := log[|log| - 1];
      if OnBranch(last, user, galaxy, branch) then InsertBySeq(rest, last) else rest
  }

  predicate Increasing(events: seq<Event>) {
    forall i, j :: 0 <= i < j < |events| ==> events[i].seqNo < events[j].seqNo
  }

  predicate DistinctSeqs(events: seq<Event>) {
    forall i, j :: 0 <= i < j < |events| ==> events[i].seqNo != events[j].seqNo
  }

  lemma {:induction false} InsertKeepsOrder(events: seq<Event>, e: Event)
    requires Increasing(events) && forall i :: 0 <= i < |events| ==> events[i].seqNo != e.seqNo
    ensures Increasing(InsertBySeq(events, e))
    ensures forall x :: x in InsertBySeq(events, e) <==> x in events || x == e
    decreases |events|
  {
    if !(events == [] || events[|events| - 1].seqNo <= e.seqNo) {
      var last := |events| - 1;
      InsertKeepsOrder(events[..last], e);
      var rest := InsertBySeq(events[..last], e);
      assert events == events[..last] + [events[last]];
      forall i | 0 <= i < |rest| ensures rest[i].seqNo < events[last].seqNo { assert rest[i] in rest; }
    }
  }

  /** The query returns exactly the branch's committed events, in sequence order. */
  lemma {:induction false} BranchEventsInOrder(log: seq<Event>, user: Id, galaxy: Id, branch: Id)
    requires DistinctSeqs(log)
    ensures Increasing(BranchEvents(log, user, galaxy, branch))
    ensures forall e :: e in BranchEvents(log, user, galaxy, branch) <==> e in log && OnBranch(e, user, galaxy, branch)
    decreases |log|
  {
    hide InsertBySeq, OnBranch, DistinctSeqs;
    if log != [] {
      var init, last := log[..|log| - 1], log[|log| - 1];
      LastIsApart(log);
      BranchEventsInOrder(init, user, galaxy, branch);
      assert log == init + [last];
      assert forall e :: e in log <==> e in init || e == last;
      var rest := BranchEvents(init, user, galaxy, branch);
      if OnBranch(last, user, galaxy, branch) {
        assert forall i :: 0 <= i < |rest| ==> rest[i] in rest;
        InsertKeepsOrder(rest, last);
      }
    }
  }

  lemma LastIsApart(log: seq<Event>)
    requires log != [] && DistinctSeqs(log)
    ensures DistinctSeqs(log[..|log| - 1])
    ensures forall e :: e in log[..|log| - 1] ==> e.seqNo != log[|log| - 1].seqNo
  {
  }

  // ---------- Steps ----------

  predicate IsLive(s: State, c: Client) {
    c in s.txns && s.txns[c].status.Live?
  }

  predicate HasRow(txn: Txn, branch: Id) {
    txn.status.Live? && txn.job.Promoting? && txn.job.branch == branch && !txn.job.phase.Asked?
  }

  predicate RowFree(s: State, c: Client, branch: Id) {
    forall d :: d in s.txns && d != c ==> !HasRow(s.txns[d], branch)
  }

  predicate Enabled(s: State, a: Action) {
    match a
    case AddBranch(id, _) => id !in s.branches
    case Begin(c) => c !in s.txns
    case BeginPromotion(c, _, _, _) => c !in s.txns
    case Abort(c) => IsLive(s, c)
    case Commit(c) => IsLive(s, c) && (s.txns[c].job.Promoting? ==> s.txns[c].job.phase.Marked?)
    case Write(c, _, _, _, _, _, _) => IsLive(s, c) && s.txns[c].job.Writing?
    case LockRow(c) => IsLive(s, c) && s.txns[c].job.Promoting? && s.txns[c].job.phase.Asked? && RowFree(s, c, s.txns[c].job.branch)
    case ReadEvents(c) => IsLive(s, c) && s.txns[c].job.Promoting? && s.txns[c].job.phase.RowLocked?
    case CopyNext(c) => IsLive(s, c) && s.txns[c].job.Promoting? && s.txns[c].job.phase.Copying?
                        && s.txns[c].job.phase.copied < |s.txns[c].job.phase.read|
    case MarkDeleted(c) => IsLive(s, c) && s.txns[c].job.Promoting? && s.txns[c].job.phase.Copying?
                           && s.txns[c].job.phase.copied == |s.txns[c].job.phase.read|
  }

  function AtPhase(txn: Txn, phase: Phase): Txn
    requires txn.job.Promoting?
  {
    txn.(job := txn.job.(phase := phase))
  }

  /** The row as committed when the lock is granted decides. */
  function LockResult(s: State, txn: Txn): Txn
    requires txn.job.Promoting?
  {
    var b := txn.job.branch;
    if b !in s.branches || s.branches[b].deleted || s.branches[b].galaxy != txn.job.galaxy then txn.(status := Aborted)
    else AtPhase(txn, RowLocked)
  }

  function DictOnly(payload: Json): Json {
    if payload.JDict? then payload else JDict(map[])
  }

  function CopyOf(e: Event, seqNo: nat, job: Job): Event
    requires job.Promoting?
  {
    Event(seqNo, job.user, job.galaxy, None, e.entity, e.kind, DictOnly(e.payload), Some(Origin(job.branch, e.seqNo)))
  }

  function CopyTxn(s: State, txn: Txn): Txn
    requires txn.job.Promoting? && txn.job.phase.Copying? && txn.job.phase.copied < |txn.job.phase.read|
  {
    var phase := txn.job.phase;
    AtPhase(txn, Copying(phase.read, phase.copied + 1)).(written := txn.written + [CopyOf(phase.read[phase.copied], s.nextSeq, txn.job)])
  }

  function WriteTxn(s: State, txn: Txn, e: Event): Txn {
    txn.(written := txn.written + [e])
  }

  function MarkTxn(txn: Txn): Txn
    requires txn.job.Promoting? && txn.job.phase.Copying?
  {
    AtPhase(txn, Marked(txn.job.phase.read, |txn.written|))
  }

  function DeleteBranch(branches: map<Id, Branch>, txn: Txn): map<Id, Branch> {
    if txn.job.Promoting? && txn.job.branch in branches
    then branches[txn.job.branch := branches[txn.job.branch].(deleted := true)] else branches
  }

  function SetTxn(s: State, c: Client, txn: Txn): State {
    s.(txns := s.txns[c := txn])
  }

  function Next(s: State, a: Action): State {
    if !Enabled(s, a) then s else
      match a
      case AddBranch(id, galaxy) => s.(branches := s.branches[id := Branch(galaxy, false)])
      case Begin(c) => SetTxn(s, c, Txn(Live, Writing, []))
      case BeginPromotion(c, user, galaxy, branch) => SetTxn(s, c, Txn(Live, Promoting(user, galaxy, branch, Asked), []))
      case Write(c, user, galaxy, branch, entity, kind, payload) =>
        SetTxn(s.(nextSeq := s.nextSeq + 1), c,
               WriteTxn(s, s.txns[c], Event(s.nextSeq, user, galaxy, branch, entity, kind, payload, None)))
      case LockRow(c) => SetTxn(s, c, LockResult(s, s.txns[c]))
      case ReadEvents(c) =>
        var job := s.txns[c].job;
        SetTxn(s, c, AtPhase(s.txns[c], Copying(BranchEvents(s.log, job.user, job.galaxy, job.branch), 0)))
      case CopyNext(c) => SetTxn(s.(nextSeq := s.nextSeq + 1), c, CopyTxn(s, s.txns[c]))
      case MarkDeleted(c) => SetTxn(s, c, MarkTxn(s.txns[c]))
      case Commit(c) =>
        SetTxn(s.(log := s.log + s.txns[c].written, branches := DeleteBranch(s.branches, s.txns[c])), c, s.txns[c].(status := Committed))
      case Abort(c) => SetTxn(s, c, s.txns[c].(status := Aborted))
  }

  function Run(s: State, trace: seq<Action>): State {
    if trace == [] then s else Next(Run(s, trace[..|trace| - 1]), trace[|trace| - 1])
  }

  // ---------- Invariant: sequence numbers ----------

  predicate Below(events: seq<Event>, bound: nat) {
    forall i :: 0 <= i < |events| ==> events[i].seqNo < bound
  }

  predicate Apart(a: seq<Event>, b: seq<Event>) {
    forall i, j :: 0 <= i < |a| && 0 <= j < |b| ==> a[i].seqNo != b[j].seqNo
  }

  ghost predicate SeqInv(s: State) {
    && DistinctSeqs(s.log) && Below(s.log, s.nextSeq)
    && (forall c :: IsLive(s, c) ==> Increasing(s.txns[c].written) && Below(s.txns[c].written, s.nextSeq) && Apart(s.log, s.txns[c].written))
    && (forall c, d :: IsLive(s, c) && IsLive(s, d) && c != d ==> Apart(s.txns[c].written, s.txns[d].written))
  }

  lemma NewSeqIsApart(events: seq<Event>, a: seq<Event>, e: Event)
    requires Below(events, e.seqNo) && Apart(events, a)
    ensures Apart(events, a + [e]) && Apart(a + [e], events)
  {
  }

  lemma AppendKeepsIncreasing(a: seq<Event>, e: Event)
    requires Increasing(a) && Below(a, e.seqNo)
    ensures Increasing(a + [e]) && Below(a + [e], e.seqNo + 1)
  {
  }

  lemma BelowRaised(a: seq<Event>, bound: nat)
    requires Below(a, bound)
    ensures Below(a, bound + 1)
  {
  }

  /** Appending with the next number, whatever else the step does to the transaction. */
  lemma {:induction false} AppendKeepsSeqs(s: State, t: State, c: Client, e: Event)
    requires SeqInv(s) && IsLive(s, c) && e.seqNo == s.nextSeq
    requires c in t.txns && t == s.(nextSeq := s.nextSeq + 1, txns := s.txns[c := t.txns[c]])
    requires t.txns[c].status.Live? && t.txns[c].written == s.txns[c].written + [e]
    ensures SeqInv(t)
  {
    hide Increasing, Below, Apart, DistinctSeqs;
    BelowRaised(s.log, s.nextSeq);
    AppendKeepsIncreasing(s.txns[c].written, e);
    NewSeqIsApart(s.log, s.txns[c].written, e);
    forall d | IsLive(t, d) && d != c
      ensures Below(t.txns[d].written, t.nextSeq) && Increasing(t.txns[d].written) && Apart(t.log, t.txns[d].written)
      ensures Apart(t.txns[d].written, t.txns[c].written) && Apart(t.txns[c].written, t.txns[d].written)
    {
      assert IsLive(s, d);
      BelowRaised(s.txns[d].written, s.nextSeq);
      NewSeqIsApart(s.txns[d].written, s.txns[c].written, e);
    }
    forall a, b | IsLive(t, a) && IsLive(t, b) && a != b ensures Apart(t.txns[a].written, t.txns[b].written) {
      if a != c && b != c { assert IsLive(s, a) && IsLive(s, b); }
    }
  }

  /** A step that appends nothing and commits nothing. */
  lemma {:induction false} QuietKeepsSeqs(s: State, t: State)
    requires SeqInv(s) && t.log == s.log && t.nextSeq == s.nextSeq
    requires forall c :: IsLive(t, c) ==> if IsLive(s, c) then t.txns[c].written == s.txns[c].written else t.txns[c].written == []
    ensures SeqInv(t)
  {
    hide Increasing, Below, Apart, DistinctSeqs;
    forall c | IsLive(t, c) ensures Increasing(t.txns[c].written) && Below(t.txns[c].written, t.nextSeq) && Apart(t.log, t.txns[c].written) {
      if !IsLive(s, c) { NothingIsFine(t.nextSeq, t.log); }
    }
    forall a, b | IsLive(t, a) && IsLive(t, b) && a != b ensures Apart(t.txns[a].written, t.txns[b].written) {
      if !IsLive(s, a) { NothingIsFine(t.nextSeq, t.txns[b].written); }
      if !IsLive(s, b) { NothingIsFine(t.nextSeq, t.txns[a].written); }
    }
  }

  lemma NothingIsFine(bound: nat, events: seq<Event>)
    ensures Increasing([]) && Below([], bound) && Apart(events, []) && Apart([], events)
  {
  }

  lemma ConcatSeqs(log: seq<Event>, more: seq<Event>, bound: nat)
    requires DistinctSeqs(log) && Increasing(more) && Apart(log, more) && Below(log, bound) && Below(more, bound)
    ensures DistinctSeqs(log + more) && Below(log + more, bound)
  {
  }

  lemma ConcatApart(log: seq<Event>, more: seq<Event>, events: seq<Event>)
    requires Apart(log, events) && Apart(more, events)
    ensures Apart(log + more, events)
  {
  }

  lemma {:induction false} CommitKeepsSeqs(s: State, c: Client)
    requires SeqInv(s) && Enabled(s, Commit(c))
    ensures SeqInv(Next(s, Commit(c)))
  {
    hide Increasing, Below, Apart, DistinctSeqs, DeleteBranch;
    var t := Next(s, Commit(c));
    ConcatSeqs(s.log, s.txns[c].written, s.nextSeq);
    forall d | IsLive(t, d) ensures IsLive(s, d) && t.txns[d] == s.txns[d] && Apart(t.log, t.txns[d].written) {
      assert d != c && IsLive(s, d);
      ConcatApart(s.log, s.txns[c].written, s.txns[d].written);
    }
  }

  lemma {:induction false} StepKeepsSeqs(s: State, a: Action)
    requires SeqInv(s)
    ensures SeqInv(Next(s, a))
  {
    hide SeqInv, BranchEvents, DeleteBranch, RowFree;
    if Enabled(s, a) {
      var t := Next(s, a);
      match a {
        case Write(c, user, galaxy, branch, entity, kind, payload) =>
          AppendKeepsSeqs(s, t, c, Event(s.nextSeq, user, galaxy, branch, entity, kind, payload, None));
        case CopyNext(c) =>
          AppendKeepsSeqs(s, t, c, CopyOf(s.txns[c].job.phase.read[s.txns[c].job.phase.copied], s.nextSeq, s.txns[c].job));
        case Commit(c) => CommitKeepsSeqs(s, c);
        case _ => QuietKeepsSeqs(s, t);
      }
    }
  }

  // ---------- Invariant: promotions ----------

  /** `written` copies the first events of `read`, in order. */
  predicate Copies(written: seq<Event>, read: seq<Event>, job: Job)
    requires job.Promoting?
  {
    |written| <= |read| && forall i :: 0 <= i < |written| ==> written[i] == CopyOf(read[i], written[i].seqNo, job)
  }

  predicate ReadOk(log: seq<Event>, read: seq<Event>, job: Job)
    requires job.Promoting?
  {
    Increasing(read) && forall e :: e in read ==> e in log && OnBranch(e, job.user, job.galaxy, job.branch)
  }

  predicate PromotionOk(log: seq<Event>, txn: Txn) {
    txn.job.Promoting? ==>
      match txn.job.phase
      case Copying(read, copied) => ReadOk(log, read, txn.job) && Copies(txn.written, read, txn.job) && |txn.written| == copied
      case Marked(events, reported) =>
        ReadOk(log, events, txn.job) && Copies(txn.written, events, txn.job) && |txn.written| == |events| == reported
      case _ => txn.written == []
  }

  predicate PlainWrites(txn: Txn) {
    txn.job.Writing? ==> forall i :: 0 <= i < |txn.written| ==> txn.written[i].copyOf.None?
  }

  /** Committed promotions have been reported from their last phase and have deleted their branch. */
  predicate BranchOk(s: State, txn: Txn) {
    txn.job.Promoting? && (HasRow(txn, txn.job.branch) || txn.status.Committed?) ==>
      && txn.job.branch in s.branches
      && (s.branches[txn.job.branch].deleted <==> txn.status.Committed?)
      && (txn.status.Committed? ==> txn.job.phase.Marked?)
  }

  ghost predicate RowsExclusive(s: State) {
    forall c, d, b :: c in s.txns && d in s.txns && c != d && HasRow(s.txns[c], b) ==> !HasRow(s.txns[d], b)
  }

  predicate IsCommittedPromotion(txn: Txn, branch: Id) {
    txn.status.Committed? && txn.job.Promoting? && txn.job.branch == branch
  }

  ghost predicate OnePromotion(s: State) {
    forall c, d, b :: c in s.txns && d in s.txns && c != d && IsCommittedPromotion(s.txns[c], b) ==> !IsCommittedPromotion(s.txns[d], b)
  }

  /** Every copy on the log comes from a committed promotion of its branch. */
  predicate CopiesHaveSource(s: State) {
    forall e :: e in s.log && e.copyOf.Some? ==>
      exists c :: c in s.txns && IsCommittedPromotion(s.txns[c], e.copyOf.value.branch) && e in s.txns[c].written
  }

  ghost predicate PromotionInv(s: State) {
    && (forall c :: c in s.txns ==> PromotionOk(s.log, s.txns[c]) && PlainWrites(s.txns[c]) && BranchOk(s, s.txns[c]))
    && RowsExclusive(s) && OnePromotion(s) && CopiesHaveSource(s)
  }

  ghost predicate Inv(s: State) {
    SeqInv(s) && PromotionInv(s)
  }

  lemma PromotionOkGrows(log: seq<Event>, more: seq<Event>, txn: Txn)
    requires PromotionOk(log, txn)
    ensures PromotionOk(log + more, txn)
  {
    hide Increasing, Copies, OnBranch;
  }

  lemma CopyStep(s: State, txn: Txn)
    requires PromotionOk(s.log, txn) && txn.job.Promoting? && txn.job.phase.Copying? && txn.job.phase.copied < |txn.job.phase.read|
    ensures PromotionOk(s.log, CopyTxn(s, txn))
  {
    hide Increasing, OnBranch;
    var next := CopyTxn(s, txn);
    assert forall i :: 0 <= i < |txn.written| ==> next.written[i] == txn.written[i];
    assert forall e, n :: CopyOf(e, n, next.job) == CopyOf(e, n, txn.job);
  }

  lemma MarkStep(s: State, txn: Txn)
    requires PromotionOk(s.log, txn) && txn.job.Promoting? && txn.job.phase.Copying? && txn.job.phase.copied == |txn.job.phase.read|
    ensures PromotionOk(s.log, MarkTxn(txn))
  {
    hide Increasing, OnBranch;
    assert forall e, n :: CopyOf(e, n, MarkTxn(txn).job) == CopyOf(e, n, txn.job);
  }

  lemma ReadStep(s: State, txn: Txn)
    requires PromotionOk(s.log, txn) && DistinctSeqs(s.log) && txn.job.Promoting? && txn.job.phase.RowLocked?
    ensures PromotionOk(s.log, AtPhase(txn, Copying(BranchEvents(s.log, txn.job.user, txn.job.galaxy, txn.job.branch), 0)))
  {
    hide Increasing, OnBranch, DistinctSeqs;
    BranchEventsInOrder(s.log, txn.job.user, txn.job.galaxy, txn.job.branch);
  }

  /** A step on one transaction that leaves the log, the branches and who has committed alone. */
  lemma {:induction false} OneTxnKeeps(s: State, t: State, c: Client)
    requires PromotionInv(s) && c in t.txns && t.log == s.log && t.branches == s.branches
    requires t.txns == s.txns[c := t.txns[c]]
    requires PromotionOk(t.log, t.txns[c]) && PlainWrites(t.txns[c]) && BranchOk(t, t.txns[c])
    requires !t.txns[c].status.Committed? && (c in s.txns ==> !s.txns[c].status.Committed?)
    requires forall b :: HasRow(t.txns[c], b) ==> RowFree(s, c, b)
    ensures PromotionInv(t)
  {
    hide PromotionOk, PlainWrites;
    assert forall d :: d in t.txns && d != c ==> d in s.txns && t.txns[d] == s.txns[d];
    forall e | e in t.log && e.copyOf.Some?
      ensures exists d :: d in t.txns && IsCommittedPromotion(t.txns[d], e.copyOf.value.branch) && e in t.txns[d].written
    {
      var d :| d in s.txns && IsCommittedPromotion(s.txns[d], e.copyOf.value.branch) && e in s.txns[d].written;
      assert d in t.txns && t.txns[d] == s.txns[d];
    }
  }

  lemma HeldRowIsFree(s: State, c: Client, b: Id)
    requires RowsExclusive(s) && c in s.txns && HasRow(s.txns[c], b)
    ensures RowFree(s, c, b)
  {
  }

  lemma {:induction false} AddBranchKeeps(s: State, id: Id, galaxy: Id)
    requires PromotionInv(s) && id !in s.branches
    ensures PromotionInv(s.(branches := s.branches[id := Branch(galaxy, false)]))
  {
    hide PromotionOk, PlainWrites;
    var t := s.(branches := s.branches[id := Branch(galaxy, false)]);
    assert CopiesHaveSource(t) by { SameSources(s, t); }
  }

  lemma SameSources(s: State, t: State)
    requires CopiesHaveSource(s) && t.log == s.log && t.txns == s.txns
    ensures CopiesHaveSource(t)
  {
  }

  lemma {:induction false} CommitKeepsPromotions(s: State, c: Client)
    requires PromotionInv(s) && Enabled(s, Commit(c))
    ensures PromotionInv(Next(s, Commit(c)))
  {
    hide PromotionOk, PlainWrites, CopiesHaveSource, OnePromotion, RowsExclusive;
    var t := Next(s, Commit(c));
    assert forall d :: d in t.txns && d != c ==> d in s.txns && t.txns[d] == s.txns[d];
    forall d | d in t.txns ensures PromotionOk(t.log, t.txns[d]) && PlainWrites(t.txns[d]) && BranchOk(t, t.txns[d]) {
      PromotionOkGrows(s.log, s.txns[c].written, s.txns[d]);
      if d == c {
        CommittedIsOk(s.log + s.txns[c].written, s.txns[c]);
      } else {
        OtherBranchOk(s, c, d);
      }
    }
    CommitKeepsOne(s, c);
    CommitKeepsSources(s, c);
    assert RowsExclusive(t) by { CommitKeepsRows(s, c); }
  }

  lemma CommittedIsOk(log: seq<Event>, txn: Txn)
    requires PromotionOk(log, txn) && PlainWrites(txn)
    ensures PromotionOk(log, txn.(status := Committed)) && PlainWrites(txn.(status := Committed))
  {
    hide ReadOk, Copies;
  }

  /** The branch a commit deletes is nobody else's. */
  lemma OtherBranchOk(s: State, c: Client, d: Client)
    requires PromotionInv(s) && Enabled(s, Commit(c)) && d in s.txns && d != c
    ensures BranchOk(Next(s, Commit(c)), s.txns[d])
  {
    hide PromotionOk, PlainWrites, CopiesHaveSource, OnePromotion;
    if s.txns[c].job.Promoting? {
      assert HasRow(s.txns[c], s.txns[c].job.branch);
      assert BranchOk(s, s.txns[c]) && BranchOk(s, s.txns[d]);
    }
  }

  lemma CommitKeepsRows(s: State, c: Client)
    requires RowsExclusive(s) && Enabled(s, Commit(c))
    ensures RowsExclusive(Next(s, Commit(c)))
  {
  }

  lemma CommitKeepsOne(s: State, c: Client)
    requires PromotionInv(s) && Enabled(s, Commit(c))
    ensures OnePromotion(Next(s, Commit(c)))
  {
    hide PromotionOk, PlainWrites, CopiesHaveSource, RowsExclusive;
    var t := Next(s, Commit(c));
    if s.txns[c].job.Promoting? {
      assert HasRow(s.txns[c], s.txns[c].job.branch);
      forall d | d in s.txns && d != c ensures !IsCommittedPromotion(s.txns[d], s.txns[c].job.branch) {
        assert BranchOk(s, s.txns[c]) && BranchOk(s, s.txns[d]);
      }
    }
  }

  lemma CommitKeepsSources(s: State, c: Client)
    requires PromotionInv(s) && Enabled(s, Commit(c))
    ensures CopiesHaveSource(Next(s, Commit(c)))
  {
    hide BranchOk, OnePromotion, RowsExclusive, ReadOk;
    var t := Next(s, Commit(c));
    forall e | e in t.log && e.copyOf.Some?
      ensures exists d :: d in t.txns && IsCommittedPromotion(t.txns[d], e.copyOf.value.branch) && e in t.txns[d].written
    {
      if e in s.log {
        var d :| d in s.txns && IsCommittedPromotion(s.txns[d], e.copyOf.value.branch) && e in s.txns[d].written;
        assert d != c && t.txns[d] == s.txns[d];
      } else {
        assert e in s.txns[c].written;
        assert PromotionOk(s.log, s.txns[c]) && PlainWrites(s.txns[c]);
        assert IsCommittedPromotion(t.txns[c], e.copyOf.value.branch);
      }
    }
  }

  lemma {:induction false} StepKeepsPromotions(s: State, a: Action)
    requires Inv(s)
    ensures PromotionInv(Next(s, a))
  {
    hide Increasing, Below, Apart, BranchEvents, Copies, ReadOk, DistinctSeqs;
    if Enabled(s, a) {
      var t := Next(s, a);
      match a {
        case AddBranch(id, galaxy) => AddBranchKeeps(s, id, galaxy);
        case Begin(c) => OneTxnKeeps(s, t, c);
        case BeginPromotion(c, _, _, _) => OneTxnKeeps(s, t, c);
        case Write(c, _, _, _, _, _, _) => OneTxnKeeps(s, t, c);
        case LockRow(c) => OneTxnKeeps(s, t, c);
        case ReadEvents(c) =>
          ReadStep(s, s.txns[c]);
          HeldRowIsFree(s, c, s.txns[c].job.branch);
          OneTxnKeeps(s, t, c);
        case CopyNext(c) =>
          CopyStep(s, s.txns[c]);
          HeldRowIsFree(s, c, s.txns[c].job.branch);
          OneTxnKeeps(s, t, c);
        case MarkDeleted(c) =>
          MarkStep(s, s.txns[c]);
          HeldRowIsFree(s, c, s.txns[c].job.branch);
          OneTxnKeeps(s, t, c);
        case Commit(c) => CommitKeepsPromotions(s, c);
        case Abort(c) =>
          AbortStep(s.log, s.txns[c]);
          OneTxnKeeps(s, t, c);
      }
    }
  }

  lemma AbortStep(log: seq<Event>, txn: Txn)
    requires PromotionOk(log, txn) && PlainWrites(txn)
    ensures PromotionOk(log, txn.(status := Aborted)) && PlainWrites(txn.(status := Aborted))
  {
    hide ReadOk, Copies;
  }

  lemma {:induction false} RunKeeps(s: State, trace: seq<Action>)
    requires Inv(s)
    ensures Inv(Run(s, trace))
    decreases |trace|
  {
    hide Next, SeqInv, PromotionInv;
    if trace != [] {
      RunKeeps(s, trace[..|trace| - 1]);
      StepKeepsSeqs(Run(s, trace[..|trace| - 1]), trace[|trace| - 1]);
      StepKeepsPromotions(Run(s, trace[..|trace| - 1]), trace[|trace| - 1]);
    }
  }

  lemma InitialIsFine()
    ensures Inv(INITIAL)
  {
  }

  // ---------- Main results ----------

  /** In every interleaving each branch event reaches the main timeline at most once. */
  lemma {:induction false} PromotedAtMostOnce(trace: seq<Action>, i: nat, j: nat)
    requires var log := Run(INITIAL, trace).log;
             i < |log| && j < |log| && log[i].copyOf.Some? && log[i].copyOf == log[j].copyOf
    ensures i == j
  {
    hide Run, BranchOk, RowsExclusive, Below, Apart, OnBranch;
    InitialIsFine();
    RunKeeps(INITIAL, trace);
    var s := Run(INITIAL, trace);
    var origin := s.log[i].copyOf.value;
    assert s.log[i] in s.log && s.log[j] in s.log;
    var c :| c in s.txns && IsCommittedPromotion(s.txns[c], origin.branch) && s.log[i] in s.txns[c].written;
    var d :| d in s.txns && IsCommittedPromotion(s.txns[d], origin.branch) && s.log[j] in s.txns[d].written;
    assert c == d;
    SameOriginSameCopy(s, c, s.log[i], s.log[j]);
  }

  lemma SameOriginSameCopy(s: State, c: Client, x: Event, y: Event)
    requires PromotionInv(s) && c in s.txns && s.txns[c].job.Promoting?
    requires x in s.txns[c].written && y in s.txns[c].written && x.copyOf.Some? && x.copyOf == y.copyOf
    ensures x == y
  {
    hide BranchOk, RowsExclusive, OnePromotion, CopiesHaveSource, OnBranch;
    assert PromotionOk(s.log, s.txns[c]);
    var written, job := s.txns[c].written, s.txns[c].job;
    var m :| 0 <= m < |written| && written[m] == x;
    var n :| 0 <= n < |written| && written[n] == y;
    var read := if job.phase.Copying? then job.phase.read else job.phase.events;
    assert x.copyOf == Some(Origin(job.branch, read[m].seqNo)) && y.copyOf == Some(Origin(job.branch, read[n].seqNo));
  }

  predicate IsMain(e: Event, user: Id, galaxy: Id) {
    e.user == user && e.galaxy == galaxy && e.branch.None?
  }

  function MainCount(log: seq<Event>, user: Id, galaxy: Id): nat {
    if log == [] then 0 else
      var e := log[|log| - 1];
      MainCount(log[..|log| - 1], user, galaxy) + (if IsMain(e, user, galaxy) then 1 else 0)
  }

  lemma {:induction false} MainCountConcat(log: seq<Event>, more: seq<Event>, user: Id, galaxy: Id)
    requires forall i :: 0 <= i < |more| ==> IsMain(more[i], user, galaxy)
    ensures MainCount(log + more, user, galaxy) == MainCount(log, user, galaxy) + |more|
    decreases |more|
  {
    if more == [] {
      assert log + more == log;
    } else {
      var last := |more| - 1;
      MainCountConcat(log, more[..last], user, galaxy);
      assert (log + more)[..|log + more| - 1] == log + more[..last];
    }
  }

  /** Entity, type and payload are kept; a payload that is no dict, which the log cannot hold, becomes an empty one. */
  predicate SameContent(copy: Event, e: Event) {
    && copy.entity == e.entity && copy.kind == e.kind
    && (e.payload.JDict? ==> copy.payload == e.payload)
    && (!e.payload.JDict? ==> copy.payload == JDict(map[]))
  }

  /** The log grows by one main event per event the promotion read, as many as it reports. */
  predicate GrowsByCopies(s: State, t: State, job: Job)
    requires job.Promoting? && job.phase.Marked?
  {
    s.log <= t.log &&
    var read, added := job.phase.events, t.log[|s.log|..];
    && Increasing(read) && Increasing(added)
    && |added| == |read| == job.phase.reported
    && (forall i :: 0 <= i < |read| ==>
          read[i] in s.log && read[i].user == job.user && read[i].galaxy == job.galaxy && read[i].branch == Some(job.branch))
    && (forall i :: 0 <= i < |read| ==>
          added[i].user == job.user && added[i].galaxy == job.galaxy && added[i].branch == None && SameContent(added[i], read[i]))
    && MainCount(t.log, job.user, job.galaxy) == MainCount(s.log, job.user, job.galaxy) + job.phase.reported
    && job.branch in t.branches && t.branches[job.branch].deleted
  }

  lemma {:induction false} CommitGrowsByCopies(s: State, c: Client)
    requires Inv(s) && IsLive(s, c) && s.txns[c].job.Promoting? && s.txns[c].job.phase.Marked?
    ensures GrowsByCopies(s, Next(s, Commit(c)), s.txns[c].job)
  {
    hide RowsExclusive, OnePromotion, CopiesHaveSource, Increasing, Below, Apart, MainCount;
    assert PromotionOk(s.log, s.txns[c]) && BranchOk(s, s.txns[c]);
    var t := Next(s, Commit(c));
    assert t.log == s.log + s.txns[c].written;
    assert t.log[|s.log|..] == s.txns[c].written;
    assert forall i :: 0 <= i < |s.txns[c].job.phase.events| ==> s.txns[c].job.phase.events[i] in s.txns[c].job.phase.events;
    MainCountConcat(s.log, s.txns[c].written, s.txns[c].job.user, s.txns[c].job.galaxy);
  }

  /**
   A promotion commits, in branch order and under rising numbers, one main event with the same
   entity, type and payload per event it read; the main timeline grows by exactly the reported count.
   */
  lemma {:induction false} PromotionCopiesInOrder(trace: seq<Action>, c: Client)
    requires var s := Run(INITIAL, trace);
             IsLive(s, c) && s.txns[c].job.Promoting? && s.txns[c].job.phase.Marked?
    ensures var s := Run(INITIAL, trace);
            GrowsByCopies(s, Next(s, Commit(c)), s.txns[c].job)
  {
    hide Run, Inv, Next, GrowsByCopies;
    InitialIsFine();
    RunKeeps(INITIAL, trace);
    CommitGrowsByCopies(Run(INITIAL, trace), c);
  }

  /** What a promotion reads is every event of the branch committed by then, in sequence order. */
  lemma {:induction false} PromotionReadsEverything(trace: seq<Action>, c: Client)
    requires Enabled(Run(INITIAL, trace), ReadEvents(c))
    ensures var s := Run(INITIAL, trace);
            var job := Next(s, ReadEvents(c)).txns[c].job;
            && job.phase.Copying? && Increasing(job.phase.read)
            && forall e :: e in job.phase.read <==> e in s.log && e.user == job.user && e.galaxy == job.galaxy && e.branch == Some(job.branch)
  {
    hide Run, Increasing, DistinctSeqs, Below, Apart, PromotionInv;
    InitialIsFine();
    RunKeeps(INITIAL, trace);
    var s := Run(INITIAL, trace);
    var job := s.txns[c].job;
    BranchEventsInOrder(s.log, job.user, job.galaxy, job.branch);
  }

  /** A branch is promoted at most once, and from then on its row is deleted. */
  lemma {:induction false} OnePromotionPerBranch(trace: seq<Action>, c: Client, d: Client, branch: Id)
    requires var s := Run(INITIAL, trace);
             c in s.txns && d in s.txns && IsCommittedPromotion(s.txns[c], branch) && IsCommittedPromotion(s.txns[d], branch)
    ensures c == d && branch in Run(INITIAL, trace).branches && Run(INITIAL, trace).branches[branch].deleted
  {
    hide Run, RowsExclusive, CopiesHaveSource, PromotionOk, SeqInv;
    InitialIsFine();
    RunKeeps(INITIAL, trace);
    assert BranchOk(Run(INITIAL, trace), Run(INITIAL, trace).txns[c]);
  }
}
