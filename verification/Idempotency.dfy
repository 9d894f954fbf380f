/**
 Requests carrying an idempotency key, as interleaved transactions.  The advisory lock is taken on
 a hash of the key's scope and held to the end of the transaction; hashes may collide.  Reads see
 committed rows only.
 */
module Idempotency {
  import opened Values

  type Id = nat
  type Client = nat

  /** What one stored response is for; the main timeline is the absent branch. */
  datatype Slot = Slot(user: Id, galaxy: Id, branch: Option<Id>, endpoint: string, key: string)

  datatype Request = Request(slot: Option<Slot>, hash: string)

  /** The lock hash, and the endpoint's response dumper (which may raise) and replay loader. */
  datatype Config = Config(lock: Slot -> int, dump: Option<Json> -> Option<Json>, load: Json -> Option<Json>)

  datatype Outcome =
    | Success(response: Json)
      /** Committed, but nothing to answer with. */
    | Empty
      /** The key was used with a different request. */
    | Conflict
    | Failed

  /** How far a transaction has come; the pending writes are those of the phase. */
  datatype Phase =
    | Started
    | Locked
    | Missed
    | Hit(payload: Json)
    | Executed(result: Option<Json>)
    | Stored(result: Option<Json>)
    | Finished(outcome: Outcome)

  datatype Txn = Txn(request: Request, phase: Phase)

  datatype Record = Record(slot: Slot, hash: string, payload: Json)

  /** A committed execution. */
  datatype Effect = Effect(client: Client, request: Request, result: Option<Json>)

  datatype State = State(rows: seq<Record>, effects: seq<Effect>, txns: map<Client, Txn>)

  datatype Action =
    | Begin(client: Client, request: Request)
    | Lock(client: Client)
    | Read(client: Client)
    | Execute(client: Client, result: Option<Json>)
    | Store(client: Client)
    | Commit(client: Client)
    | Abort(client: Client)

  const INITIAL: State := State([], [], map[])

  function NormalizeKey(raw: Option<string>): Option<string> {
    if raw.Some? && Strip(raw.value) != "" then Some(Strip(raw.value)) else None
  }

  // ---------- Steps ----------

  predicate Holding(txn: Txn) {
    txn.request.slot.Some? && !txn.phase.Started? && !txn.phase.Finished?
  }

  predicate LockFree(cfg: Config, s: State, c: Client, slot: Slot) {
    forall d :: d in s.txns && d != c && Holding(s.txns[d]) ==> cfg.lock(s.txns[d].request.slot.value) != cfg.lock(slot)
  }

  function Lookup(rows: seq<Record>, slot: Slot): seq<Record> {
    if rows == [] then [] else
      var rest := Lookup(rows[..|rows| - 1], slot);
      if rows[|rows| - 1].slot == slot then rest + [rows[|rows| - 1]] else rest
  }

  /** A second matching row would make the query raise. */
  function ReadResult(rows: seq<Record>, slot: Slot, hash: string): Phase {
    var found := Lookup(rows, slot);
    if found == [] then Missed
    else if |found| > 1 then Finished(Failed)
    else if found[0].hash != hash then Finished(Conflict)
    else Hit(found[0].payload)
  }

  function PayloadOf(cfg: Config, result: Option<Json>): Json {
    var dumped := cfg.dump(result);
    if dumped.Some? && dumped.value.JDict? then dumped.value else JDict(map[])
  }

  function Answer(result: Option<Json>): Outcome {
    if result.Some? then Success(result.value) else Empty
  }

  predicate Enabled(cfg: Config, s: State, a: Action) {
    if a.Begin? then a.client !in s.txns else
      a.client in s.txns &&
      var txn := s.txns[a.client];
      match a
      case Lock(c) => txn.phase.Started? && txn.request.slot.Some? && LockFree(cfg, s, c, txn.request.slot.value)
      case Read(_) => txn.phase.Locked?
      case Execute(_, _) => txn.phase.Missed? || (txn.phase.Started? && txn.request.slot.None?)
      case Store(_) => txn.phase.Executed? && txn.request.slot.Some? && cfg.dump(txn.phase.result).Some?
      case Commit(_) => txn.phase.Hit? || txn.phase.Stored? || (txn.phase.Executed? && txn.request.slot.None?)
      case Abort(_) => !txn.phase.Finished?
  }

  function SetPhase(s: State, c: Client, phase: Phase): State
    requires c in s.txns
  {
    s.(txns := s.txns[c := s.txns[c].(phase := phase)])
  }

  function CommitTxn(cfg: Config, s: State, c: Client): State
    requires Enabled(cfg, s, Commit(c))
  {
    var txn := s.txns[c];
    if txn.phase.Hit? then SetPhase(s, c, Finished(Answer(cfg.load(txn.phase.payload)))) else
      var result := txn.phase.result;
      var rows := if txn.request.slot.None? then s.rows
                  else s.rows + [Record(txn.request.slot.value, txn.request.hash, PayloadOf(cfg, result))];
      SetPhase(s.(rows := rows, effects := s.effects + [Effect(c, txn.request, result)]), c, Finished(Answer(result)))
  }

  function Next(cfg: Config, s: State, a: Action): State {
    if !Enabled(cfg, s, a) then s else
      var c := a.client;
      match a
      case Begin(_, request) => s.(txns := s.txns[c := Txn(request, Started)])
      case Lock(_) => SetPhase(s, c, Locked)
      case Read(_) =>
        var request := s.txns[c].request;
        SetPhase(s, c, if request.slot.None? then Finished(Failed) else ReadResult(s.rows, request.slot.value, request.hash))
      case Execute(_, result) => SetPhase(s, c, Executed(result))
      case Store(_) => SetPhase(s, c, Stored(s.txns[c].phase.result))
      case Commit(_) => CommitTxn(cfg, s, c)
      case Abort(_) => SetPhase(s, c, Finished(Failed))
  }

  /** Any interleaving of the clients' steps; a step that is not enabled waits, that is, changes nothing. */
  function Run(cfg: Config, s: State, trace: seq<Action>): State {
    if trace == [] then s else Next(cfg, Run(cfg, s, trace[..|trace| - 1]), trace[|trace| - 1])
  }

  // ---------- Invariant ----------

  predicate HasRow(rows: seq<Record>, slot: Slot) {
    exists i :: 0 <= i < |rows| && rows[i].slot == slot
  }

  predicate OneRowPerSlot(rows: seq<Record>) {
    forall i, j :: 0 <= i < j < |rows| ==> rows[i].slot != rows[j].slot
  }

  predicate OneEffectPerSlot(effects: seq<Effect>) {
    forall i, j :: 0 <= i < j < |effects| && effects[i].request.slot.Some? ==> effects[i].request.slot != effects[j].request.slot
  }

  function RecordOf(cfg: Config, e: Effect): Record
    requires e.request.slot.Some?
  {
    Record(e.request.slot.value, e.request.hash, PayloadOf(cfg, e.result))
  }

  /** Keyed executions and records correspond. */
  predicate Recorded(cfg: Config, rows: seq<Record>, effects: seq<Effect>) {
    && (forall i :: 0 <= i < |effects| && effects[i].request.slot.Some? ==> RecordOf(cfg, effects[i]) in rows)
    && (forall r :: r in rows ==> exists i :: 0 <= i < |effects| && effects[i].request.slot.Some? && RecordOf(cfg, effects[i]) == r)
  }

  predicate Exclusive(cfg: Config, txns: map<Client, Txn>) {
    forall c, d :: c in txns && d in txns && c != d && Holding(txns[c]) && Holding(txns[d]) ==>
      cfg.lock(txns[c].request.slot.value) != cfg.lock(txns[d].request.slot.value)
  }

  /** The payload is the dump of the result as it is; a dump that is no dict is stored as an empty one. */
  predicate Dumps(cfg: Config, result: Option<Json>, payload: Json) {
    var dumped := cfg.dump(result);
    && (dumped.Some? && dumped.value.JDict? ==> payload == dumped.value)
    && (dumped.None? || !dumped.value.JDict? ==> payload == JDict(map[]))
  }

  /** The response stands for the stored payload: dumped into it, or loaded from it. */
  predicate Carries(cfg: Config, response: Json, payload: Json) {
    Dumps(cfg, Some(response), payload) || cfg.load(payload) == Some(response)
  }

  /** The record of a keyed execution: its slot, its request's hash and the dump of its result. */
  predicate Records(cfg: Config, row: Record, e: Effect) {
    e.request.slot == Some(row.slot) && row.hash == e.request.hash && Dumps(cfg, e.result, row.payload)
  }

  /** Every record records a keyed execution, and every keyed execution is recorded. */
  predicate RecordsMatch(cfg: Config, rows: seq<Record>, effects: seq<Effect>) {
    && (forall r :: r in rows ==> exists e :: e in effects && Records(cfg, r, e))
    && (forall e :: e in effects && e.request.slot.Some? ==> exists r :: r in rows && Records(cfg, r, e))
  }

  lemma RecordedMatches(cfg: Config, rows: seq<Record>, effects: seq<Effect>)
    requires Recorded(cfg, rows, effects)
    ensures RecordsMatch(cfg, rows, effects)
  {
    forall r | r in rows ensures exists e :: e in effects && Records(cfg, r, e) {
      var i :| 0 <= i < |effects| && effects[i].request.slot.Some? && RecordOf(cfg, effects[i]) == r;
      assert effects[i] in effects && Records(cfg, r, effects[i]);
    }
    forall e | e in effects && e.request.slot.Some? ensures exists r :: r in rows && Records(cfg, r, e) {
      assert RecordOf(cfg, e) in rows && Records(cfg, RecordOf(cfg, e), e);
    }
  }

  predicate Executing(phase: Phase) {
    phase.Missed? || phase.Executed? || phase.Stored?
  }

  predicate TxnOk(cfg: Config, rows: seq<Record>, txn: Txn) {
    var slot, hash := txn.request.slot, txn.request.hash;
    if slot.None? then txn.phase.Started? || txn.phase.Executed? || txn.phase.Finished? else
      match txn.phase
      case Hit(payload) => Record(slot.value, hash, payload) in rows
      case Finished(Success(r)) => exists row :: row in rows && row.slot == slot.value && row.hash == hash && Carries(cfg, r, row.payload)
      case _ => Executing(txn.phase) ==> !HasRow(rows, slot.value)
  }

  predicate TxnsOk(cfg: Config, s: State) {
    forall c :: c in s.txns ==> TxnOk(cfg, s.rows, s.txns[c])
  }

  predicate Inv(cfg: Config, s: State) {
    && OneRowPerSlot(s.rows) && OneEffectPerSlot(s.effects) && Recorded(cfg, s.rows, s.effects)
    && Exclusive(cfg, s.txns) && TxnsOk(cfg, s)
  }

  // ---------- Every step keeps the invariant ----------

  lemma {:induction false} LookupFinds(rows: seq<Record>, slot: Slot)
    ensures forall r :: r in Lookup(rows, slot) <==> r in rows && r.slot == slot
  {
    if rows != [] {
      LookupFinds(rows[..|rows| - 1], slot);
      assert rows == rows[..|rows| - 1] + [rows[|rows| - 1]];
      assert forall r :: r in rows <==> r in rows[..|rows| - 1] || r == rows[|rows| - 1];
    }
  }

  /** On a table with one row per slot the query never finds two. */
  lemma {:induction false} LookupIsUnique(rows: seq<Record>, slot: Slot)
    requires OneRowPerSlot(rows)
    ensures |Lookup(rows, slot)| <= 1
  {
    if rows != [] {
      var last := |rows| - 1;
      LookupIsUnique(rows[..last], slot);
      LookupFinds(rows[..last], slot);
      var rest := Lookup(rows[..last], slot);
      if rest != [] {
        assert rest[0] in rest;
        assert rows[last].slot != slot;
      }
    }
  }

  lemma ReadIsRight(cfg: Config, rows: seq<Record>, txn: Txn)
    requires txn.request.slot.Some?
    ensures TxnOk(cfg, rows, txn.(phase := ReadResult(rows, txn.request.slot.value, txn.request.hash)))
  {
    hide Lookup, Carries;
    LookupFinds(rows, txn.request.slot.value);
    var found := Lookup(rows, txn.request.slot.value);
    if found == [] {
      forall i | 0 <= i < |rows| ensures rows[i].slot != txn.request.slot.value { assert rows[i] in rows; }
    } else {
      assert found[0] in found;
    }
  }

  /** A change of one transaction's phase that writes no rows. */
  lemma PhaseChangeKeeps(cfg: Config, s: State, c: Client, phase: Phase)
    requires Inv(cfg, s) && c in s.txns
    requires TxnOk(cfg, s.rows, s.txns[c].(phase := phase))
    requires Holding(s.txns[c].(phase := phase)) && !Holding(s.txns[c]) ==> LockFree(cfg, s, c, s.txns[c].request.slot.value)
    ensures Inv(cfg, SetPhase(s, c, phase))
  {
    hide TxnOk, OneRowPerSlot, OneEffectPerSlot, Recorded;
    var t := SetPhase(s, c, phase);
    assert t.txns[c].request == s.txns[c].request;
    forall a, b | a in t.txns && b in t.txns && a != b && Holding(t.txns[a]) && Holding(t.txns[b])
      ensures cfg.lock(t.txns[a].request.slot.value) != cfg.lock(t.txns[b].request.slot.value)
    {
      assert a == c || t.txns[a] == s.txns[a];
      assert b == c || t.txns[b] == s.txns[b];
    }
  }

  lemma LoadIsRight(cfg: Config, rows: seq<Record>, txn: Txn)
    requires txn.phase.Hit? && TxnOk(cfg, rows, txn)
    ensures TxnOk(cfg, rows, txn.(phase := Finished(Answer(cfg.load(txn.phase.payload)))))
  {
    var loaded := cfg.load(txn.phase.payload);
    if loaded.Some? && txn.request.slot.Some? {
      assert Carries(cfg, loaded.value, txn.phase.payload);
      assert Record(txn.request.slot.value, txn.request.hash, txn.phase.payload) in rows;
    }
  }

  lemma NewRowKeepsTxn(cfg: Config, rows: seq<Record>, row: Record, txn: Txn)
    requires TxnOk(cfg, rows, txn)
    requires Executing(txn.phase) ==> txn.request.slot != Some(row.slot)
    ensures TxnOk(cfg, rows + [row], txn)
  {
    hide Carries;
    assert forall r :: r in rows ==> r in rows + [row];
    if txn.request.slot.Some? && Executing(txn.phase) {
      forall i | 0 <= i < |rows + [row]| ensures (rows + [row])[i].slot != txn.request.slot.value {
        if i < |rows| { assert (rows + [row])[i] == rows[i]; }
      }
    }
  }

  lemma {:induction false} StoreKeepsTables(cfg: Config, rows: seq<Record>, effects: seq<Effect>, e: Effect)
    requires e.request.slot.Some? && !HasRow(rows, e.request.slot.value)
    requires OneRowPerSlot(rows) && OneEffectPerSlot(effects) && Recorded(cfg, rows, effects)
    ensures OneRowPerSlot(rows + [RecordOf(cfg, e)]) && OneEffectPerSlot(effects + [e])
    ensures Recorded(cfg, rows + [RecordOf(cfg, e)], effects + [e])
  {
    hide PayloadOf;
    var slot := e.request.slot.value;
    var rows', effects' := rows + [RecordOf(cfg, e)], effects + [e];
    forall i | 0 <= i < |effects| && effects[i].request.slot.Some? ensures effects[i].request.slot.value != slot {
      assert RecordOf(cfg, effects[i]) in rows;
    }
    forall r | r in rows'
      ensures exists i :: 0 <= i < |effects'| && effects'[i].request.slot.Some? && RecordOf(cfg, effects'[i]) == r
    {
      if r in rows {
        var i :| 0 <= i < |effects| && effects[i].request.slot.Some? && RecordOf(cfg, effects[i]) == r;
        assert effects'[i] == effects[i];
      } else {
        assert effects'[|effects|] == e;
      }
    }
  }

  lemma {:induction false} KeylessKeepsTables(cfg: Config, rows: seq<Record>, effects: seq<Effect>, e: Effect)
    requires e.request.slot.None? && OneEffectPerSlot(effects) && Recorded(cfg, rows, effects)
    ensures OneEffectPerSlot(effects + [e]) && Recorded(cfg, rows, effects + [e])
  {
    hide PayloadOf;
    var effects' := effects + [e];
    forall r | r in rows
      ensures exists i :: 0 <= i < |effects'| && effects'[i].request.slot.Some? && RecordOf(cfg, effects'[i]) == r
    {
      var i :| 0 <= i < |effects| && effects[i].request.slot.Some? && RecordOf(cfg, effects[i]) == r;
      assert effects'[i] == effects[i];
    }
  }

  lemma {:induction false} CommitKeeps(cfg: Config, s: State, c: Client)
    requires Inv(cfg, s) && Enabled(cfg, s, Commit(c))
    ensures Inv(cfg, CommitTxn(cfg, s, c))
  {
    hide OneRowPerSlot, OneEffectPerSlot, Recorded, Carries, PayloadOf, Exclusive, TxnOk, LockFree;
    var txn := s.txns[c];
    if txn.phase.Hit? {
      LoadIsRight(cfg, s.rows, txn);
      PhaseChangeKeeps(cfg, s, c, Finished(Answer(cfg.load(txn.phase.payload))));
    } else {
      var e := Effect(c, txn.request, txn.phase.result);
      var t := CommitTxn(cfg, s, c);
      assert Exclusive(cfg, t.txns) by { FinishedKeepsExclusive(cfg, s.txns, c, Answer(txn.phase.result)); }
      if txn.request.slot.None? {
        KeylessKeepsTables(cfg, s.rows, s.effects, e);
        assert TxnOk(cfg, t.rows, t.txns[c]) by { KeylessIsFine(cfg, t.rows, t.txns[c]); }
      } else {
        assert !HasRow(s.rows, txn.request.slot.value) by { ExecutingHasNoRow(cfg, s.rows, txn); }
        StoreKeepsTables(cfg, s.rows, s.effects, e);
        forall d | d in t.txns ensures TxnOk(cfg, t.rows, t.txns[d]) {
          if d == c {
            StoredIsRight(cfg, s.rows, txn);
          } else {
            ExecutingElsewhere(cfg, s.txns, c, d);
            NewRowKeepsTxn(cfg, s.rows, RecordOf(cfg, e), s.txns[d]);
          }
        }
      }
    }
  }

  lemma FinishedKeepsExclusive(cfg: Config, txns: map<Client, Txn>, c: Client, outcome: Outcome)
    requires c in txns && Exclusive(cfg, txns)
    ensures Exclusive(cfg, txns[c := txns[c].(phase := Finished(outcome))])
  {
  }

  lemma KeylessIsFine(cfg: Config, rows: seq<Record>, txn: Txn)
    requires txn.request.slot.None? && txn.phase.Finished?
    ensures TxnOk(cfg, rows, txn)
  {
  }

  lemma ExecutingHasNoRow(cfg: Config, rows: seq<Record>, txn: Txn)
    requires TxnOk(cfg, rows, txn) && Executing(txn.phase) && txn.request.slot.Some?
    ensures !HasRow(rows, txn.request.slot.value)
  {
  }

  /** Whoever runs between its miss and its commit is alone on its slot. */
  lemma ExecutingElsewhere(cfg: Config, txns: map<Client, Txn>, c: Client, d: Client)
    requires Exclusive(cfg, txns) && c in txns && d in txns && c != d
    requires Executing(txns[c].phase) && txns[c].request.slot.Some?
    ensures Executing(txns[d].phase) ==> txns[d].request.slot != txns[c].request.slot
  {
  }

  lemma StoredIsRight(cfg: Config, rows: seq<Record>, txn: Txn)
    requires txn.request.slot.Some? && txn.phase.Stored?
    ensures TxnOk(cfg, rows + [Record(txn.request.slot.value, txn.request.hash, PayloadOf(cfg, txn.phase.result))],
                  txn.(phase := Finished(Answer(txn.phase.result))))
  {
    var row := Record(txn.request.slot.value, txn.request.hash, PayloadOf(cfg, txn.phase.result));
    assert row in rows + [row];
  }

  lemma {:induction false} StepKeeps(cfg: Config, s: State, a: Action)
    requires Inv(cfg, s)
    ensures Inv(cfg, Next(cfg, s, a))
  {
    hide OneRowPerSlot, OneEffectPerSlot, Recorded, Carries, Exclusive, CommitTxn, Lookup, ReadResult;
    if Enabled(cfg, s, a) {
      match a {
        case Begin(c, request) => BeginKeeps(cfg, s, c, request);
        case Lock(c) => PhaseChangeKeeps(cfg, s, c, Locked);
        case Read(c) => 
          assert TxnOk(cfg, s.rows, s.txns[c]);
          ReadIsRight(cfg, s.rows, s.txns[c]);
          PhaseChangeKeeps(cfg, s, c, ReadResult(s.rows, s.txns[c].request.slot.value, s.txns[c].request.hash));
        case Execute(c, result) => PhaseChangeKeeps(cfg, s, c, Executed(result));
        case Store(c) => PhaseChangeKeeps(cfg, s, c, Stored(s.txns[c].phase.result));
        case Commit(c) => CommitKeeps(cfg, s, c);
        case Abort(c) => PhaseChangeKeeps(cfg, s, c, Finished(Failed));
      }
    }
  }

  lemma BeginKeeps(cfg: Config, s: State, c: Client, request: Request)
    requires Inv(cfg, s) && c !in s.txns
    ensures Inv(cfg, s.(txns := s.txns[c := Txn(request, Started)]))
  {
    hide OneRowPerSlot, OneEffectPerSlot, Recorded, TxnOk;
    assert TxnOk(cfg, s.rows, Txn(request, Started)) by { StartedIsFine(cfg, s.rows, request); }
  }

  lemma StartedIsFine(cfg: Config, rows: seq<Record>, request: Request)
    ensures TxnOk(cfg, rows, Txn(request, Started))
  {
  }

  lemma {:induction false} RunKeeps(cfg: Config, s: State, trace: seq<Action>)
    requires Inv(cfg, s)
    ensures Inv(cfg, Run(cfg, s, trace))
    decreases |trace|
  {
    hide Inv, Next;
    if trace != [] {
      RunKeeps(cfg, s, trace[..|trace| - 1]);
      StepKeeps(cfg, Run(cfg, s, trace[..|trace| - 1]), trace[|trace| - 1]);
    }
  }

  lemma InitialIsFine(cfg: Config)
    ensures Inv(cfg, INITIAL)
  {
  }

  // ---------- Main results ----------

  /** In every interleaving a slot has at most one committed execution and at most one record, and they match. */
  lemma {:induction false} ExecutedAtMostOnce(cfg: Config, trace: seq<Action>)
    ensures var s := Run(cfg, INITIAL, trace);
            OneEffectPerSlot(s.effects) && OneRowPerSlot(s.rows) && RecordsMatch(cfg, s.rows, s.effects)
  {
    hide OneEffectPerSlot, OneRowPerSlot, Recorded, RecordsMatch, Run;
    InitialIsFine(cfg);
    RunKeeps(cfg, INITIAL, trace);
    RecordedMatches(cfg, Run(cfg, INITIAL, trace).rows, Run(cfg, INITIAL, trace).effects);
  }

  lemma SlotDeterminesRow(rows: seq<Record>, a: Record, b: Record)
    requires OneRowPerSlot(rows) && a in rows && b in rows && a.slot == b.slot
    ensures a == b
  {
  }

  /** All successful responses for a slot answer the same request and carry one payload; a lossless loader makes them equal. */
  lemma {:induction false} SameAnswer(cfg: Config, trace: seq<Action>, c: Client, d: Client)
    requires var s := Run(cfg, INITIAL, trace);
             && c in s.txns && d in s.txns
             && s.txns[c].request.slot.Some? && s.txns[c].request.slot == s.txns[d].request.slot
             && s.txns[c].phase.Finished? && s.txns[c].phase.outcome.Success?
             && s.txns[d].phase.Finished? && s.txns[d].phase.outcome.Success?
    ensures var s := Run(cfg, INITIAL, trace);
            var r, q := s.txns[c].phase.outcome.response, s.txns[d].phase.outcome.response;
            && s.txns[c].request == s.txns[d].request
            && (exists row :: row in s.rows && row.slot == s.txns[c].request.slot.value && row.hash == s.txns[c].request.hash
                              && Carries(cfg, r, row.payload) && Carries(cfg, q, row.payload))
            && ((forall j :: cfg.dump(Some(j)).Some? && cfg.dump(Some(j)).value.JDict? && cfg.load(cfg.dump(Some(j)).value) == Some(j)) ==> r == q)
  {
    hide Run, PayloadOf, Recorded, OneEffectPerSlot, Exclusive, OneRowPerSlot;
    var s := Run(cfg, INITIAL, trace);
    InitialIsFine(cfg);
    RunKeeps(cfg, INITIAL, trace);
    assert TxnOk(cfg, s.rows, s.txns[c]) && TxnOk(cfg, s.rows, s.txns[d]);
    var r, q := s.txns[c].phase.outcome.response, s.txns[d].phase.outcome.response;
    var slot := s.txns[c].request.slot.value;
    var x :| x in s.rows && x.slot == slot && x.hash == s.txns[c].request.hash && Carries(cfg, r, x.payload);
    var y :| y in s.rows && y.slot == slot && y.hash == s.txns[d].request.hash && Carries(cfg, q, y.payload);
    SlotDeterminesRow(s.rows, x, y);
  }

  /** Once a slot has a record nobody executes for it, and every execution it ever had was for the recorded request. */
  lemma {:induction false} RecordedSlotIsClosed(cfg: Config, trace: seq<Action>, row: Record)
    requires row in Run(cfg, INITIAL, trace).rows
    ensures var s := Run(cfg, INITIAL, trace);
            && (forall c :: c in s.txns && s.txns[c].request.slot == Some(row.slot) ==> !Executing(s.txns[c].phase))
            && (forall i :: 0 <= i < |s.effects| && s.effects[i].request.slot == Some(row.slot) ==> Records(cfg, row, s.effects[i]))
  {
    hide Run, Carries, OneEffectPerSlot, Exclusive, OneRowPerSlot;
    var s := Run(cfg, INITIAL, trace);
    InitialIsFine(cfg);
    RunKeeps(cfg, INITIAL, trace);
    forall c | c in s.txns && s.txns[c].request.slot == Some(row.slot) ensures !Executing(s.txns[c].phase) {
      assert TxnOk(cfg, s.rows, s.txns[c]);
      assert HasRow(s.rows, row.slot);
    }
    forall i | 0 <= i < |s.effects| && s.effects[i].request.slot == Some(row.slot) ensures Records(cfg, row, s.effects[i]) {
      SlotDeterminesRow(s.rows, RecordOf(cfg, s.effects[i]), row);
    }
  }

  /** Records and executions are permanent, so a retry, however late, meets the same record. */
  lemma {:induction false} HistoryIsPermanent(cfg: Config, s: State, trace: seq<Action>)
    ensures s.rows <= Run(cfg, s, trace).rows && s.effects <= Run(cfg, s, trace).effects
    decreases |trace|
  {
    hide Lookup, PayloadOf, ReadResult, LockFree;
    if trace != [] {
      HistoryIsPermanent(cfg, s, trace[..|trace| - 1]);
    }
  }
}
