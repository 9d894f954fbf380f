/** What planning and bridging guarantee together, and what planning does not depend on. */
module PlanToTasks {
  import opened Values
  import opened Parser
  import opened Intents
  import Planner
  import Bridge

  // ---------- Link and flow statements over plain names ----------

  /** A name that no resolver claims and that is not a UUID. */
  predicate Unresolved(cfg: Planner.Config, name: string) {
    var n := Strip(name);
    && n != "" && cfg.uuid(n).None?
    && (cfg.resolver.Resolver? ==> cfg.resolver.resolve(n).None? && cfg.resolver.issue(n) != Some(Planner.AmbiguousName))
  }

  /** Entities, groups, chains and flows, nested freely. */
  predicate Linkable(cfg: Planner.Config, node: Ast)
    decreases node
  {
    match node
    case Entity(name) => Unresolved(cfg, name)
    case Group(items) => forall x :: x in items ==> Linkable(cfg, x)
    case TypeLink(l, r) => Linkable(cfg, l) && Linkable(cfg, r)
    case RelationLink(l, r) => Linkable(cfg, l) && Linkable(cfg, r)
    case Flow(l, r) => Linkable(cfg, l) && Linkable(cfg, r)
    case _ => false
  }

  /** The distinct names of a statement, as selectors. */
  function Names(node: Ast): set<Selector>
    decreases node
  {
    match node
    case Entity(name) => {ByName(Strip(name))}
    case Group(items) => NamesAll(items)
    case TypeLink(l, r) => Names(l) + Names(r)
    case RelationLink(l, r) => Names(l) + Names(r)
    case Flow(l, r) => Names(l) + Names(r)
    case _ => {}
  }

  function NamesAll(nodes: seq<Ast>): set<Selector>
    decreases nodes
  {
    if nodes == [] then {} else Names(nodes[0]) + NamesAll(nodes[1..])
  }

  lemma {:induction false} NamesAllAppend(a: seq<Ast>, b: seq<Ast>)
    ensures NamesAll(a + b) == NamesAll(a) + NamesAll(b)
    decreases |a|
  {
    hide Names;
    if a == [] {
      assert a + b == b;
    } else {
      NamesAllAppend(a[1..], b);
      assert (a + b)[1..] == a[1..] + b;
    }
  }

  lemma {:induction false} NamesOfSnoc(nodes: seq<Ast>)
    requires nodes != []
    ensures NamesAll(nodes) == NamesAll(nodes[..|nodes| - 1]) + Names(nodes[|nodes| - 1])
  {
    var last := nodes[|nodes| - 1];
    assert nodes == nodes[..|nodes| - 1] + [last];
    NamesAllAppend(nodes[..|nodes| - 1], [last]);
    assert NamesAll([last]) == Names(last) + NamesAll([]);
  }

  lemma {:induction false} FlattenKeeps(cfg: Planner.Config, linkType: LinkType, node: Ast)
    requires Linkable(cfg, node)
    ensures forall x :: x in Planner.Flatten(linkType, node) ==> Linkable(cfg, x)
    ensures NamesAll(Planner.Flatten(linkType, node)) == Names(node)
    decreases node
  {
    hide Unresolved;
    if Planner.IsChain(linkType, node) {
      FlattenKeeps(cfg, linkType, node.left);
      FlattenKeeps(cfg, linkType, node.right);
      NamesAllAppend(Planner.Flatten(linkType, node.left), Planner.Flatten(linkType, node.right));
    } else {
      assert NamesAll([node]) == Names(node) + NamesAll([]);
    }
  }

  // ---------- Upserts come first, once ----------

  type Known = set<Selector>

  /** One intent is in order when it upserts a new name or links two known ones. */
  predicate InOrder(known: Known, intent: Intent) {
    match intent
    case UpsertNode(node, metadata) => node.ByName? && node !in known && metadata == map[]
    case CreateLink(s, t, _, metadata) => s.ByName? && t.ByName? && s in known && t in known && metadata == map[]
    case FlowLink(s, t) => s.ByName? && t.ByName? && s in known && t in known
    case _ => false
  }

  function Learn(known: Known, intent: Intent): Known {
    if intent.UpsertNode? then known + {intent.node} else known
  }

  function LearnAll(known: Known, intents: seq<Intent>): Known {
    if intents == [] then known else Learn(LearnAll(known, intents[..|intents| - 1]), intents[|intents| - 1])
  }

  /** Every intent is in order after those before it. */
  predicate Sequenced(known: Known, intents: seq<Intent>) {
    intents == [] ||
    (Sequenced(known, intents[..|intents| - 1]) && InOrder(LearnAll(known, intents[..|intents| - 1]), intents[|intents| - 1]))
  }

  lemma {:induction false} SequencedAppend(known: Known, a: seq<Intent>, b: seq<Intent>)
    requires Sequenced(known, a) && Sequenced(LearnAll(known, a), b)
    ensures Sequenced(known, a + b) && LearnAll(known, a + b) == LearnAll(LearnAll(known, a), b)
    decreases |b|
  {
    hide InOrder;
    if b == [] {
      assert a + b == a;
    } else {
      var init := b[..|b| - 1];
      SequencedAppend(known, a, init);
      assert (a + b)[..|a + b| - 1] == a + init;
    }
  }

  /** Links between known names are in order and teach nothing. */
  lemma {:induction false} LinksFromInOrder(known: Known, source: Selector, targets: seq<Selector>, linkType: LinkType, n: nat)
    requires n <= |targets| && source.ByName? && source in known
    requires forall t :: t in targets ==> t.ByName? && t in known
    ensures Sequenced(known, Planner.LinksFrom(source, targets, linkType)[..n])
    ensures LearnAll(known, Planner.LinksFrom(source, targets, linkType)[..n]) == known
    decreases n
  {
    var links := Planner.LinksFrom(source, targets, linkType);
    if n > 0 {
      LinksFromInOrder(known, source, targets, linkType, n - 1);
      assert links[..n][..n - 1] == links[..n - 1];
      assert targets[n - 1] in targets;
    }
  }

  lemma {:induction false} LinksInOrder(known: Known, sources: seq<Selector>, targets: seq<Selector>, linkType: LinkType)
    requires forall s :: s in sources ==> s.ByName? && s in known
    requires forall t :: t in targets ==> t.ByName? && t in known
    ensures Sequenced(known, Planner.Links(sources, targets, linkType))
    ensures LearnAll(known, Planner.Links(sources, targets, linkType)) == known
    decreases |sources|
  {
    hide InOrder, Planner.LinksFrom;
    if sources != [] {
      var init, last := sources[..|sources| - 1], sources[|sources| - 1];
      LinksInOrder(known, init, targets, linkType);
      var row := Planner.LinksFrom(last, targets, linkType);
      LinksFromInOrder(known, last, targets, linkType, |row|);
      assert row[..|row|] == row;
      SequencedAppend(known, Planner.Links(init, targets, linkType), row);
    }
  }

  // ---------- Compilation keeps the order ----------

  /** What compiling a linkable node yields. */
  predicate Good(node: set<Selector>, planned: Known, c: Planner.Compiled, after: Known) {
    && c.errors == []
    && (forall s :: s in c.selectors ==> s.ByName? && s in after)
    && Sequenced(planned, c.intents) && LearnAll(planned, c.intents) == after
    && after == planned + node
  }

  /** What compiling a list of linkable nodes one after the other yields. */
  predicate GoodAll(names: set<Selector>, planned: Known, operands: seq<Planner.Compiled>, after: Known) {
    && Planner.AllErrors(operands) == []
    && (forall k, s :: 0 <= k < |operands| && s in operands[k].selectors ==> s.ByName? && s in after)
    && Sequenced(planned, Planner.AllIntents(operands)) && LearnAll(planned, Planner.AllIntents(operands)) == after
    && after == planned + names
  }

  lemma {:induction false} GoodEntity(cfg: Planner.Config, name: string, planned: Known)
    requires Unresolved(cfg, name)
    ensures var (c, after) := Planner.CompileOperand(cfg, Entity(name), true, planned);
            Good({ByName(Strip(name))}, planned, c, after)
    ensures Planner.CompileStatement(cfg, Entity(name), planned) == Planner.CompileOperand(cfg, Entity(name), true, planned)
  {
    hide Strip;
    var selector := ByName(Strip(name));
    var up := [UpsertNode(selector, map[])];
    EmptyIsSequenced(planned);
    assert up[..|up| - 1] == [];
    assert LearnAll(planned, up) == planned + {selector};
    assert selector !in planned ==> Sequenced(planned, up);
    assert selector in planned ==> planned + {selector} == planned;
  }

  lemma {:induction false} GoodAppend(n1: set<Selector>, n2: set<Selector>, planned: Known, mid: Known, after: Known,
                                      before: seq<Planner.Compiled>, c: Planner.Compiled)
    requires GoodAll(n1, planned, before, mid) && Good(n2, mid, c, after)
    ensures GoodAll(n1 + n2, planned, before + [c], after)
  {
    hide Sequenced, LearnAll;
    var all := before + [c];
    assert all[..|all| - 1] == before;
    assert Planner.AllErrors(all) == Planner.AllErrors(before) + c.errors;
    assert Planner.AllIntents(all) == Planner.AllIntents(before) + c.intents;
    SequencedAppend(planned, Planner.AllIntents(before), c.intents);
    forall k, s | 0 <= k < |all| && s in all[k].selectors ensures s.ByName? && s in after {
      if k < |before| { assert s in before[k].selectors; }
    }
  }

  lemma {:induction false} ChainLinksInOrder(known: Known, operands: seq<Planner.Compiled>, linkType: LinkType)
    requires forall k, s :: 0 <= k < |operands| && s in operands[k].selectors ==> s.ByName? && s in known
    ensures Sequenced(known, Planner.ChainLinks(operands, linkType))
    ensures LearnAll(known, Planner.ChainLinks(operands, linkType)) == known
    decreases |operands|
  {
    hide InOrder, Planner.Links;
    var n := |operands|;
    if n >= 2 {
      ChainLinksInOrder(known, operands[..n - 1], linkType);
      LinksInOrder(known, operands[n - 2].selectors, operands[n - 1].selectors, linkType);
      SequencedAppend(known, Planner.ChainLinks(operands[..n - 1], linkType),
                      Planner.Links(operands[n - 2].selectors, operands[n - 1].selectors, linkType));
    }
  }

  lemma {:induction false} ChainedIsGood(names: set<Selector>, planned: Known, operands: seq<Planner.Compiled>, after: Known, linkType: LinkType)
    requires operands != [] && GoodAll(names, planned, operands, after)
    ensures Good(names, planned, Planner.Chained(operands, linkType), after)
  {
    hide Sequenced, LearnAll, Planner.ChainLinks, Planner.AllIntents;
    ChainLinksInOrder(after, operands, linkType);
    SequencedAppend(planned, Planner.AllIntents(operands), Planner.ChainLinks(operands, linkType));
  }

  lemma {:induction false} GroupIsGood(names: set<Selector>, planned: Known, operands: seq<Planner.Compiled>, after: Known)
    requires GoodAll(names, planned, operands, after)
    ensures Good(names, planned, Planner.Compiled(Planner.AllSelectors(operands), Planner.AllIntents(operands), Planner.AllErrors(operands)), after)
  {
    hide Sequenced, LearnAll, Planner.AllIntents, Planner.AllErrors;
    SelectorsOf(operands, |operands|);
    assert operands[..|operands|] == operands;
  }

  lemma {:induction false} SelectorsOf(operands: seq<Planner.Compiled>, n: nat)
    requires n <= |operands|
    ensures forall s :: s in Planner.AllSelectors(operands[..n]) ==> exists k :: 0 <= k < |operands| && s in operands[k].selectors
    decreases n
  {
    if n > 0 {
      SelectorsOf(operands, n - 1);
      assert operands[..n][..n - 1] == operands[..n - 1];
    }
  }

  lemma {:induction false} FlowIsGood(n1: set<Selector>, n2: set<Selector>, planned: Known, mid: Known, after: Known,
                                      s: Planner.Compiled, t: Planner.Compiled)
    requires Good(n1, planned, s, mid) && Good(n2, mid, t, after)
    ensures Good(n1 + n2, planned,
                 Planner.Compiled(t.selectors, s.intents + t.intents + Planner.Links(s.selectors, t.selectors, FlowLinkType), []), after)
  {
    hide Sequenced, LearnAll, Planner.Links;
    SequencedAppend(planned, s.intents, t.intents);
    LinksInOrder(after, s.selectors, t.selectors, FlowLinkType);
    SequencedAppend(planned, s.intents + t.intents, Planner.Links(s.selectors, t.selectors, FlowLinkType));
  }

  lemma {:induction false} OperandIsGood(cfg: Planner.Config, node: Ast, planned: Known)
    requires Linkable(cfg, node)
    ensures var (c, after) := Planner.CompileOperand(cfg, node, true, planned); Good(Names(node), planned, c, after)
    decreases Planner.Size(node), 1
  {
    hide Good, GoodAll, Unresolved, Planner.CompileAll, Planner.CompileStatement, Planner.Chained, Planner.Flatten;
    match node
    case Entity(name) =>
      GoodEntity(cfg, name, planned);
    case Group(items) =>
      AllAreGood(cfg, items, planned);
      var (operands, after) := Planner.CompileAll(cfg, items, true, planned);
      GroupIsGood(NamesAll(items), planned, operands, after);
    case RelationLink(_, _) =>
      ChainIsGood(cfg, RelationLinkType, node, planned);
    case TypeLink(_, _) =>
      ChainIsGood(cfg, TypeLinkType, node, planned);
    case Flow(_, _) =>
      StatementIsGood(cfg, node, planned);
    case _ =>
  }

  lemma {:induction false} ChainIsGood(cfg: Planner.Config, linkType: LinkType, node: Ast, planned: Known)
    requires Linkable(cfg, node) && Planner.IsChain(linkType, node)
    ensures var (operands, after) := Planner.CompileAll(cfg, Planner.Flatten(linkType, node), true, planned);
            Good(Names(node), planned, Planner.Chained(operands, linkType), after)
    decreases Planner.Size(node), 0
  {
    hide Good, GoodAll, Linkable, Planner.CompileAll, Planner.Chained, Names;
    var nodes := Planner.Flatten(linkType, node);
    FlattenKeeps(cfg, linkType, node);
    AllAreGood(cfg, nodes, planned);
    var (operands, after) := Planner.CompileAll(cfg, nodes, true, planned);
    ChainedIsGood(Names(node), planned, operands, after, linkType);
  }

  lemma {:induction false} AllAreGood(cfg: Planner.Config, nodes: seq<Ast>, planned: Known)
    requires forall x :: x in nodes ==> Linkable(cfg, x)
    ensures var (operands, after) := Planner.CompileAll(cfg, nodes, true, planned);
            GoodAll(NamesAll(nodes), planned, operands, after)
    decreases Planner.SizeAll(nodes), 3, |nodes|
  {
    hide Good, Linkable, Planner.CompileOperand, Names, Sequenced;
    if nodes == [] {
      assert Sequenced(planned, []) by { EmptyIsSequenced(planned); }
    } else {
      var last := |nodes| - 1;
      Planner.SizeAllAppend(nodes[..last], [nodes[last]]);
      assert nodes == nodes[..last] + [nodes[last]];
      assert Planner.SizeAll([nodes[last]]) == Planner.Size(nodes[last]);
      AllAreGood(cfg, nodes[..last], planned);
      var (before, mid) := Planner.CompileAll(cfg, nodes[..last], true, planned);
      assert nodes[last] in nodes;
      OperandIsGood(cfg, nodes[last], mid);
      var (c, after) := Planner.CompileOperand(cfg, nodes[last], true, mid);
      NamesOfSnoc(nodes);
      hide GoodAll;
      GoodAppend(NamesAll(nodes[..last]), Names(nodes[last]), planned, mid, after, before, c);
    }
  }

  lemma EmptyIsSequenced(known: Known)
    ensures Sequenced(known, []) && LearnAll(known, []) == known
  {
  }

  lemma {:induction false} StatementIsGood(cfg: Planner.Config, node: Ast, planned: Known)
    requires Linkable(cfg, node)
    ensures var (c, after) := Planner.CompileStatement(cfg, node, planned); Good(Names(node), planned, c, after)
    decreases Planner.Size(node), if Planner.IsStatementNode(node) then 0 else 2
  {
    hide Unresolved, Planner.CompileOperand;
    match node
    case Entity(name) =>
      GoodEntity(cfg, name, planned);
    case Flow(source, target) =>
      OperandIsGood(cfg, source, planned);
      var (s, mid) := Planner.CompileOperand(cfg, source, true, planned);
      OperandIsGood(cfg, target, mid);
      var (t, after) := Planner.CompileOperand(cfg, target, true, mid);
      FlowIsGood(Names(source), Names(target), planned, mid, after, s, t);
    case Group(_) =>
      OperandIsGood(cfg, node, planned);
    case TypeLink(_, _) =>
      OperandIsGood(cfg, node, planned);
    case RelationLink(_, _) =>
      OperandIsGood(cfg, node, planned);
    case _ =>
  }

  // ---------- The bridge on sequenced intents ----------

  function Translate(intent: Intent): Task {
    match intent
    case UpsertNode(node, metadata) => Ingest(node.value, metadata)
    case CreateLink(_, _, linkType, metadata) => Link(linkType, metadata)
    case _ => Link(FlowLinkType, map[])
  }

  function TranslateAll(intents: seq<Intent>): (r: seq<Task>)
    ensures |r| == |intents|
  {
    seq(|intents|, i requires 0 <= i < |intents| => Translate(intents[i]))
  }

  function ValuesOf(known: Known): set<string> {
    set s | s in known :: s.value
  }

  lemma {:induction false} BridgeFollows(uuid: string -> Option<string>, intents: seq<Intent>)
    requires Sequenced({}, intents)
    ensures Bridge.Fold(uuid, Bridge.State([], [], {}), intents) ==
            Bridge.State(TranslateAll(intents), [], ValuesOf(LearnAll({}, intents)))
    ensures forall s :: s in LearnAll({}, intents) ==> s.ByName?
    decreases |intents|
  {
    if intents != [] {
      var init, last := intents[..|intents| - 1], intents[|intents| - 1];
      BridgeFollows(uuid, init);
      assert TranslateAll(intents) == TranslateAll(init) + [Translate(last)];
      BridgeStepFollows(uuid, TranslateAll(init), LearnAll({}, init), last);
    }
  }

  lemma {:induction false} BridgeStepFollows(uuid: string -> Option<string>, tasks: seq<Task>, known: Known, intent: Intent)
    requires InOrder(known, intent) && forall s :: s in known ==> s.ByName?
    ensures Bridge.Step(uuid, Bridge.State(tasks, [], ValuesOf(known)), intent) ==
            Bridge.State(tasks + [Translate(intent)], [], ValuesOf(Learn(known, intent)))
  {
    if intent.UpsertNode? {
      assert ValuesOf(known + {intent.node}) == ValuesOf(known) + {intent.node.value};
    }
  }

  /** The positions of an intent list: no name is upserted twice, and links come after the upserts of both ends. */
  lemma {:induction false} SequencedPositions(intents: seq<Intent>, i: nat)
    requires Sequenced({}, intents) && i < |intents|
    ensures InOrder(LearnAll({}, intents[..i]), intents[i])
    decreases |intents|
  {
    hide InOrder;
    var last := |intents| - 1;
    if i < last {
      SequencedPositions(intents[..last], i);
      assert intents[..last][..i] == intents[..i];
    }
  }

  lemma {:induction false} LearnedWhere(intents: seq<Intent>, s: Selector)
    ensures s in LearnAll({}, intents) <==> exists j :: 0 <= j < |intents| && intents[j].UpsertNode? && intents[j].node == s
    decreases |intents|
  {
    if intents != [] {
      var init := intents[..|intents| - 1];
      LearnedWhere(init, s);
      assert forall j :: 0 <= j < |init| ==> init[j] == intents[j];
    }
  }

  // ---------- Main results ----------

  /** The task that ingests a name stands before position `i`. */
  predicate IngestedBefore(tasks: seq<Task>, i: nat, s: Selector) {
    exists j :: 0 <= j < i && j < |tasks| && tasks[j] == Ingest(s.value, map[])
  }

  lemma {:induction false} PlanSucceeds(cfg: Planner.Config, uuid: string -> Option<string>, ast: Ast) returns (intents: seq<Intent>)
    requires Linkable(cfg, ast)
    ensures Planner.PlanAst(cfg, ast) == Planner.Envelope(intents)
    ensures Bridge.ToTasks(uuid, intents) == Bridge.Tasks(TranslateAll(intents))
    ensures Sequenced({}, intents) && LearnAll({}, intents) == Names(ast)
  {
    hide Linkable, Planner.CompileStatement, Sequenced, LearnAll, Names;
    StatementIsGood(cfg, ast, {});
    intents := Planner.CompileStatement(cfg, ast, {}).0.intents;
    BridgeFollows(uuid, intents);
    assert {} + Names(ast) == Names(ast);
  }

  /** Planning and bridging never fail, and the tasks are the intents one by one: INGEST for upserts, LINK for links. */
  lemma {:induction false} PlanThenBridge(cfg: Planner.Config, uuid: string -> Option<string>, ast: Ast)
    requires Linkable(cfg, ast)
    ensures Planner.PlanAst(cfg, ast).Envelope?
    ensures var intents := Planner.PlanAst(cfg, ast).intents; var r := Bridge.ToTasks(uuid, intents);
            && r.Tasks? && |r.tasks| == |intents|
            && (forall i :: 0 <= i < |intents| ==>
                  match intents[i]
                  case UpsertNode(n, _) => r.tasks[i] == Ingest(n.value, map[])
                  case CreateLink(_, _, linkType, _) => r.tasks[i] == Link(linkType, map[])
                  case FlowLink(_, _) => r.tasks[i] == Link(FlowLinkType, map[])
                  case _ => false)
  {
    hide Linkable, Planner.PlanAst, Bridge.ToTasks;
    var intents := PlanSucceeds(cfg, uuid, ast);
    forall i | 0 <= i < |intents| ensures InOrder(LearnAll({}, intents[..i]), intents[i]) {
      SequencedPositions(intents, i);
    }
  }

  /** Each distinct name is ingested exactly once, and nothing else is. */
  lemma {:induction false} EachNameIngestedOnce(cfg: Planner.Config, uuid: string -> Option<string>, ast: Ast, name: string)
    requires Linkable(cfg, ast)
    requires Planner.PlanAst(cfg, ast).Envelope? && Bridge.ToTasks(uuid, Planner.PlanAst(cfg, ast).intents).Tasks?
    ensures var tasks := Bridge.ToTasks(uuid, Planner.PlanAst(cfg, ast).intents).tasks;
            && (ByName(name) in Names(ast) <==> exists i :: 0 <= i < |tasks| && tasks[i] == Ingest(name, map[]))
            && (forall i, j :: 0 <= i < j < |tasks| && tasks[i] == Ingest(name, map[]) ==> tasks[j] != Ingest(name, map[]))
  {
    hide Linkable, Planner.PlanAst, Bridge.ToTasks, Names, Sequenced;
    var intents := PlanSucceeds(cfg, uuid, ast);
    var tasks := TranslateAll(intents);
    LearnedWhere(intents, ByName(name));
    forall i | 0 <= i < |tasks|
      ensures tasks[i] == Ingest(name, map[]) <==> intents[i].UpsertNode? && intents[i].node == ByName(name)
    {
      SequencedPositions(intents, i);
    }
    forall i, j | 0 <= i < j < |tasks| && tasks[i] == Ingest(name, map[]) ensures tasks[j] != Ingest(name, map[]) {
      SequencedPositions(intents, j);
      LearnedWhere(intents[..j], ByName(name));
      assert intents[..j][i] == intents[i];
    }
  }

  /** A LINK stands behind the INGESTs of both its ends. */
  lemma {:induction false} LinksFollowIngests(cfg: Planner.Config, uuid: string -> Option<string>, ast: Ast, i: nat)
    requires Linkable(cfg, ast)
    requires Planner.PlanAst(cfg, ast).Envelope? && Bridge.ToTasks(uuid, Planner.PlanAst(cfg, ast).intents).Tasks?
    requires i < |Planner.PlanAst(cfg, ast).intents|
    requires Planner.PlanAst(cfg, ast).intents[i].CreateLink? || Planner.PlanAst(cfg, ast).intents[i].FlowLink?
    ensures var intent := Planner.PlanAst(cfg, ast).intents[i];
            var tasks := Bridge.ToTasks(uuid, Planner.PlanAst(cfg, ast).intents).tasks;
            IngestedBefore(tasks, i, intent.source) && IngestedBefore(tasks, i, intent.target)
  {
    hide Linkable, Planner.PlanAst, Bridge.ToTasks, Names, Sequenced;
    var intents := PlanSucceeds(cfg, uuid, ast);
    SequencedPositions(intents, i);
    FindIngest(intents, i, intents[i].source);
    FindIngest(intents, i, intents[i].target);
  }

  lemma {:induction false} FindIngest(intents: seq<Intent>, i: nat, s: Selector)
    requires Sequenced({}, intents) && i <= |intents| && s in LearnAll({}, intents[..i])
    ensures IngestedBefore(TranslateAll(intents), i, s)
  {
    hide Sequenced;
    LearnedWhere(intents[..i], s);
    var j :| 0 <= j < i && intents[..i][j].UpsertNode? && intents[..i][j].node == s;
    SequencedPositions(intents, j);
    assert TranslateAll(intents)[j] == Ingest(s.value, map[]);
  }
}
