/**
 Creating branches, as interleaved transactions: the advisory lock on a hash of the normalized name
 is held to the end of the transaction, and the scan sees committed branches only.  The database's
 unique index is not assumed.
 */
module BranchNames {
  import opened Values

  type Id = nat
  type Client = nat

  /** The lock hash and full case folding. */
  datatype Config = Config(lock: (Id, string) -> int, fold: string -> string)

  datatype Branch = Branch(galaxy: Id, name: string, deleted: bool)

  datatype Outcome = Created | EmptyName | NameTaken | Failed

  datatype Phase = Started | Locked | Clear | Inserted | Finished(outcome: Outcome)

  datatype Txn = Txn(galaxy: Id, name: string, phase: Phase)

  datatype State = State(branches: seq<Branch>, txns: map<Client, Txn>)

  datatype Action =
    | Begin(client: Client, galaxy: Id, rawName: string)
    | Lock(client: Client)
    | Scan(client: Client)
    | Insert(client: Client)
    | Commit(client: Client)
    | Abort(client: Client)
      /** Promotion deletes a branch. */
    | Retire(index: nat)

  const INITIAL: State := State([], map[])

  function Normalize(cfg: Config, name: string): string {
    cfg.fold(Strip(name))
  }

  predicate SameName(cfg: Config, b: Branch, galaxy: Id, name: string) {
    b.galaxy == galaxy && Normalize(cfg, b.name) == Normalize(cfg, name)
  }

  predicate Taken(cfg: Config, branches: seq<Branch>, galaxy: Id, name: string) {
    exists i :: 0 <= i < |branches| && !branches[i].deleted && SameName(cfg, branches[i], galaxy, name)
  }

  // ---------- Steps ----------

  predicate Holding(txn: Txn) {
    txn.phase.Locked? || txn.phase.Clear? || txn.phase.Inserted?
  }

  function LockOf(cfg: Config, txn: Txn): int {
    cfg.lock(txn.galaxy, Normalize(cfg, txn.name))
  }

  predicate LockFree(cfg: Config, s: State, c: Client)
    requires c in s.txns
  {
    forall d :: d in s.txns && d != c && Holding(s.txns[d]) ==> LockOf(cfg, s.txns[d]) != LockOf(cfg, s.txns[c])
  }

  predicate Enabled(cfg: Config, s: State, a: Action) {
    match a
    case Begin(c, _, _) => c !in s.txns
    case Lock(c) => c in s.txns && s.txns[c].phase.Started? && LockFree(cfg, s, c)
    case Scan(c) => c in s.txns && s.txns[c].phase.Locked?
    case Insert(c) => c in s.txns && s.txns[c].phase.Clear?
    case Commit(c) => c in s.txns && s.txns[c].phase.Inserted?
    case Abort(c) => c in s.txns && !s.txns[c].phase.Finished?
    case Retire(i) => i < |s.branches|
  }

  function SetPhase(s: State, c: Client, phase: Phase): State
    requires c in s.txns
  {
    s.(txns := s.txns[c := s.txns[c].(phase := phase)])
  }

  function Next(cfg: Config, s: State, a: Action): State {
    if !Enabled(cfg, s, a) then s else
      match a
      case Begin(c, galaxy, rawName) =>
        var name := Strip(rawName);
        s.(txns := s.txns[c := Txn(galaxy, name, if name == "" then Finished(EmptyName) else Started)])
      case Lock(c) => SetPhase(s, c, Locked)
      case Scan(c) => SetPhase(s, c, if Taken(cfg, s.branches, s.txns[c].galaxy, s.txns[c].name) then Finished(NameTaken) else Clear)
      case Insert(c) => SetPhase(s, c, Inserted)
      case Commit(c) =>
        SetPhase(s.(branches := s.branches + [Branch(s.txns[c].galaxy, s.txns[c].name, false)]), c, Finished(Created))
      case Abort(c) => SetPhase(s, c, Finished(Failed))
      case Retire(i) => s.(branches := s.branches[i := s.branches[i].(deleted := true)])
  }

  function Run(cfg: Config, s: State, trace: seq<Action>): State {
    if trace == [] then s else Next(cfg, Run(cfg, s, trace[..|trace| - 1]), trace[|trace| - 1])
  }

  // ---------- Invariant ----------

  predicate NamesUnique(cfg: Config, branches: seq<Branch>) {
    forall i, j :: 0 <= i < j < |branches| && !branches[i].deleted && !branches[j].deleted ==>
      !SameName(cfg, branches[i], branches[j].galaxy, branches[j].name)
  }

  predicate Exclusive(cfg: Config, txns: map<Client, Txn>) {
    forall c, d :: c in txns && d in txns && c != d && Holding(txns[c]) && Holding(txns[d]) ==> LockOf(cfg, txns[c]) != LockOf(cfg, txns[d])
  }

  predicate TxnOk(cfg: Config, branches: seq<Branch>, txn: Txn) {
    txn.phase.Clear? || txn.phase.Inserted? ==> !Taken(cfg, branches, txn.galaxy, txn.name)
  }

  predicate Inv(cfg: Config, s: State) {
    NamesUnique(cfg, s.branches) && Exclusive(cfg, s.txns) && forall c :: c in s.txns ==> TxnOk(cfg, s.branches, s.txns[c])
  }

  lemma {:induction false} CommitKeeps(cfg: Config, s: State, c: Client)
    requires Inv(cfg, s) && Enabled(cfg, s, Commit(c))
    ensures Inv(cfg, Next(cfg, s, Commit(c)))
  {
    hide Normalize;
    var t := Next(cfg, s, Commit(c));
    var added := t.branches[|s.branches|];
    forall i | 0 <= i < |s.branches| && !t.branches[i].deleted ensures !SameName(cfg, t.branches[i], added.galaxy, added.name) {
      assert t.branches[i] == s.branches[i];
      assert !Taken(cfg, s.branches, s.txns[c].galaxy, s.txns[c].name);
    }
    forall d | d in t.txns && d != c ensures TxnOk(cfg, t.branches, t.txns[d]) {
      if Holding(s.txns[d]) { assert !SameName(cfg, added, s.txns[d].galaxy, s.txns[d].name); }
      StillFree(cfg, s.branches, added, s.txns[d]);
    }
  }

  lemma StillFree(cfg: Config, branches: seq<Branch>, added: Branch, txn: Txn)
    requires TxnOk(cfg, branches, txn)
    requires Holding(txn) ==> !SameName(cfg, added, txn.galaxy, txn.name)
    ensures TxnOk(cfg, branches + [added], txn)
  {
    hide SameName;
    var all := branches + [added];
    if txn.phase.Clear? || txn.phase.Inserted? {
      forall i | 0 <= i < |all| && !all[i].deleted ensures !SameName(cfg, all[i], txn.galaxy, txn.name) {
        if i < |branches| { assert all[i] == branches[i]; }
      }
    }
  }

  lemma {:induction false} StepKeeps(cfg: Config, s: State, a: Action)
    requires Inv(cfg, s)
    ensures Inv(cfg, Next(cfg, s, a))
  {
    hide Normalize, Strip;
    if a.Commit? && Enabled(cfg, s, a) {
      CommitKeeps(cfg, s, a.client);
    } else if a.Retire? && Enabled(cfg, s, a) {
      RetireKeeps(cfg, s, a.index);
    } else {
      hide SameName, Taken, NamesUnique;
    }
  }

  lemma {:induction false} RetireKeeps(cfg: Config, s: State, i: nat)
    requires Inv(cfg, s) && i < |s.branches|
    ensures Inv(cfg, Next(cfg, s, Retire(i)))
  {
    hide Normalize;
    var t := Next(cfg, s, Retire(i));
    assert forall j :: 0 <= j < |t.branches| && !t.branches[j].deleted ==> t.branches[j] == s.branches[j];
  }

  lemma {:induction false} RunKeeps(cfg: Config, s: State, trace: seq<Action>)
    requires Inv(cfg, s)
    ensures Inv(cfg, Run(cfg, s, trace))
    decreases |trace|
  {
    hide Inv, Next;
    if trace != [] {
      RunKeeps(cfg, s, trace[..|trace| - 1]);
      StepKeeps(cfg, Run(cfg, s, trace[..|trace| - 1]), trace[|trace| - 1]);
    }
  }

  /** In every interleaving a galaxy has at most one active branch per normalized name. */
  lemma {:induction false} OneActiveBranchPerName(cfg: Config, trace: seq<Action>, i: nat, j: nat)
    requires var branches := Run(cfg, INITIAL, trace).branches;
             && i < |branches| && j < |branches| && !branches[i].deleted && !branches[j].deleted
             && branches[i].galaxy == branches[j].galaxy && cfg.fold(Strip(branches[i].name)) == cfg.fold(Strip(branches[j].name))
    ensures i == j
  {
    hide Run, Strip;
    assert Inv(cfg, INITIAL);
    RunKeeps(cfg, INITIAL, trace);
  }

  // ---------- What a request comes to ----------

  /** A request keeps its galaxy and its trimmed name; a blank one ends at once. */
  lemma BeginMeans(cfg: Config, s: State, c: Client, galaxy: Id, rawName: string)
    requires c !in s.txns
    ensures var t := Next(cfg, s, Begin(c, galaxy, rawName));
            && t.branches == s.branches && t.txns.Keys == s.txns.Keys + {c} && (forall d :: d in s.txns ==> t.txns[d] == s.txns[d])
            && t.txns[c].galaxy == galaxy && t.txns[c].name == Strip(rawName)
            && (Strip(rawName) == "" ==> t.txns[c].phase == Finished(EmptyName)) && (Strip(rawName) != "" ==> t.txns[c].phase == Started)
  {
    hide Strip;
  }

  /** The scan refuses the name exactly when an active branch of the galaxy has it, up to blanks and case folding. */
  lemma ScanMeans(cfg: Config, s: State, c: Client)
    requires c in s.txns && s.txns[c].phase.Locked?
    ensures var t := Next(cfg, s, Scan(c));
            && t.branches == s.branches
            && (t.txns[c].phase == Finished(NameTaken) <==>
                  exists i :: 0 <= i < |s.branches| && !s.branches[i].deleted && s.branches[i].galaxy == s.txns[c].galaxy
                              && cfg.fold(Strip(s.branches[i].name)) == cfg.fold(Strip(s.txns[c].name)))
            && (t.txns[c].phase == Finished(NameTaken) || t.txns[c].phase == Clear)
  {
    hide Strip;
  }

  /** A commit adds one active branch with the request's galaxy and name, and nothing else. */
  lemma CommitMeans(cfg: Config, s: State, c: Client)
    requires c in s.txns && s.txns[c].phase.Inserted?
    ensures var t := Next(cfg, s, Commit(c));
            t.branches == s.branches + [Branch(s.txns[c].galaxy, s.txns[c].name, false)] && t.txns[c].phase == Finished(Created)
  {
  }
}
