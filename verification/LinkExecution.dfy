/**
 What executing the tasks of a link or flow statement links.  Links between names travel as bare LINK
 tasks, and the executor joins the two rows ingested last, whatever the link was planned between.
 */
module LinkExecution {
  import opened Values
  import opened Parser
  import opened Intents
  import opened PlanToTasks
  import opened PlanMeaning
  import Planner
  import Bridge

  datatype Made = Made(source: string, target: string, linkType: LinkType)

  /** The rows ingested so far, by name, and the links made; a LINK without two different rows to join is refused. */
  datatype Run = Going(context: seq<string>, made: seq<Made>) | Refused

  function Execute(r: Run, task: Task): Run {
    match r
    case Refused => Refused
    case Going(context, made) =>
      match task
      case Ingest(name, _) => Going(context + [name], made)
      case Link(linkType, _) =>
        var n := |context|;
        if n < 2 || context[n - 2] == context[n - 1] then Refused
        else Going(context, made + [Made(context[n - 2], context[n - 1], linkType)])
      case _ => r
  }

  function ExecuteAll(tasks: seq<Task>): Run {
    if tasks == [] then Going([], []) else Execute(ExecuteAll(tasks[..|tasks| - 1]), tasks[|tasks| - 1])
  }

  // ---------- What was planned ----------

  predicate IsLink(intent: Intent) {
    intent.CreateLink? || intent.FlowLink?
  }

  function MadeOf(intent: Intent): Made
    requires IsLink(intent)
  {
    Made(intent.source.value, intent.target.value, if intent.CreateLink? then intent.linkType else FlowLinkType)
  }

  /** The links in the order they are planned. */
  function Wanted(intents: seq<Intent>): seq<Made> {
    if intents == [] then [] else
      var last := intents[|intents| - 1];
      Wanted(intents[..|intents| - 1]) + (if IsLink(last) then [MadeOf(last)] else [])
  }

  /** The upserted names in order. */
  function Upserted(intents: seq<Intent>): seq<string> {
    if intents == [] then [] else
      var last := intents[|intents| - 1];
      Upserted(intents[..|intents| - 1]) + (if last.UpsertNode? then [last.node.value] else [])
  }

  /** The two names upserted last are the given ones. */
  predicate LastTwo(names: seq<string>, source: string, target: string) {
    |names| >= 2 && names[|names| - 2] == source && names[|names| - 1] == target
  }

  /** Every link joins the two names upserted last before it. */
  predicate Adjacent(intents: seq<Intent>) {
    forall i :: 0 <= i < |intents| && IsLink(intents[i]) ==> LastTwo(Upserted(intents[..i]), MadeOf(intents[i]).source, MadeOf(intents[i]).target)
  }

  // ---------- Execution step by step ----------

  predicate Distinct(names: seq<string>) {
    forall i, j :: 0 <= i < j < |names| ==> names[i] != names[j]
  }

  lemma {:induction false} UpsertedIsLearned(intents: seq<Intent>, name: string)
    requires Sequenced({}, intents)
    ensures name in Upserted(intents) <==> ByName(name) in LearnAll({}, intents)
    decreases |intents|
  {
    if intents != [] {
      UpsertedIsLearned(intents[..|intents| - 1], name);
    }
  }

  lemma {:induction false} UpsertedOnce(intents: seq<Intent>)
    requires Sequenced({}, intents)
    ensures Distinct(Upserted(intents))
    decreases |intents|
  {
    if intents != [] {
      var init, last := intents[..|intents| - 1], intents[|intents| - 1];
      UpsertedOnce(init);
      if last.UpsertNode? { UpsertedIsLearned(init, last.node.value); }
    }
  }

  lemma {:induction false} AdjacentNext(intents: seq<Intent>)
    requires intents != []
    ensures var init, last := intents[..|intents| - 1], intents[|intents| - 1];
            Adjacent(intents) <==> Adjacent(init) && (IsLink(last) ==> LastTwo(Upserted(init), MadeOf(last).source, MadeOf(last).target))
  {
    hide Upserted, LastTwo;
    var init := intents[..|intents| - 1];
    assert forall i :: 0 <= i < |init| ==> init[i] == intents[i] && init[..i] == intents[..i];
  }

  /**
   As long as nothing is refused, the context is the upserted names, one link is made per planned one,
   and the made links are the planned ones iff every planned link joins the two names upserted last.
   */
  lemma {:induction false} ExecuteFollows(intents: seq<Intent>)
    requires Sequenced({}, intents)
    ensures var r := ExecuteAll(TranslateAll(intents));
            && (r.Going? ==> r.context == Upserted(intents) && |r.made| == |Wanted(intents)| && (r.made == Wanted(intents) <==> Adjacent(intents)))
            && (r.Refused? ==> !Adjacent(intents))
    decreases |intents|
  {
    hide Adjacent, Sequenced;
    if intents == [] {
      assert Adjacent([]) by { NothingIsAdjacent(); }
    } else {
      var init, last := intents[..|intents| - 1], intents[|intents| - 1];
      SequencedInit(intents);
      ExecuteFollows(init);
      AdjacentNext(intents);
      UpsertedOnce(init);
      assert TranslateAll(intents) == TranslateAll(init) + [Translate(last)];
      assert ExecuteAll(TranslateAll(intents)) == Execute(ExecuteAll(TranslateAll(init)), Translate(last));
      hide Upserted, Wanted, ExecuteAll;
      StepFollows(ExecuteAll(TranslateAll(init)), init, last);
    }
  }

  lemma NothingIsAdjacent()
    ensures Adjacent([])
  {
  }

  lemma SequencedInit(intents: seq<Intent>)
    requires Sequenced({}, intents) && intents != []
    ensures Sequenced({}, intents[..|intents| - 1]) && InOrder(LearnAll({}, intents[..|intents| - 1]), intents[|intents| - 1])
  {
  }

  lemma {:induction false} StepFollows(r: Run, init: seq<Intent>, last: Intent)
    requires InOrder(LearnAll({}, init), last) && Distinct(Upserted(init))
    requires r.Going? ==> r.context == Upserted(init) && |r.made| == |Wanted(init)|
    ensures var t := Execute(r, Translate(last));
            var all := init + [last];
            && (r.Refused? ==> t.Refused?)
            && (r.Going? && t.Going? ==> t.context == Upserted(all) && |t.made| == |Wanted(all)|)
            && (r.Going? && t.Going? ==>
                  (t.made == Wanted(all) <==>
                     r.made == Wanted(init) && (IsLink(last) ==> LastTwo(Upserted(init), MadeOf(last).source, MadeOf(last).target))))
            && (r.Going? && t.Refused? ==> IsLink(last) && !LastTwo(Upserted(init), MadeOf(last).source, MadeOf(last).target))
  {
    assert (init + [last])[..|init|] == init;
    assert Upserted(init + [last]) == Upserted(init) + (if last.UpsertNode? then [last.node.value] else []);
    assert Wanted(init + [last]) == Wanted(init) + (if IsLink(last) then [MadeOf(last)] else []);
    hide Upserted, Wanted, LearnAll;
    if r.Going? && IsLink(last) && |r.context| >= 2 {
      var n := |r.context|;
      assert r.context[n - 2] != r.context[n - 1];
      var made := Made(r.context[n - 2], r.context[n - 1], MadeOf(last).linkType);
      assert r.made + [made] == Wanted(init) + [MadeOf(last)] <==> r.made == Wanted(init) && made == MadeOf(last) by {
        if r.made + [made] == Wanted(init) + [MadeOf(last)] {
          assert (r.made + [made])[..|r.made|] == r.made && (Wanted(init) + [MadeOf(last)])[..|r.made|] == Wanted(init);
          assert (r.made + [made])[|r.made|] == made;
        }
      }
    }
  }

  // ---------- Main results ----------

  /**
   Executing the tasks of a link or flow statement makes the planned links, all of them and no others, iff
   every planned link joins the two names upserted last before it.
   */
  lemma {:induction false} LinksMadeAsPlannedIff(cfg: Planner.Config, uuid: string -> Option<string>, ast: Ast)
    requires Linkable(cfg, ast)
    requires Planner.PlanAst(cfg, ast).Envelope? && Bridge.ToTasks(uuid, Planner.PlanAst(cfg, ast).intents).Tasks?
    ensures var intents := Planner.PlanAst(cfg, ast).intents;
            var r := ExecuteAll(Bridge.ToTasks(uuid, intents).tasks);
            r.Going? && r.made == Wanted(intents) <==> Adjacent(intents)
  {
    hide Linkable, Planner.PlanAst, Bridge.ToTasks, Names, Sequenced, ExecuteAll, Wanted, Adjacent, Upserted;
    var intents := PlanSucceeds(cfg, uuid, ast);
    ExecuteFollows(intents);
  }

  /** A chain of different new names. */
  predicate NameChain(cfg: Planner.Config, linkType: LinkType, node: Ast) {
    && linkType != FlowLinkType && Planner.IsChain(linkType, node)
    && var names := Planner.Flatten(linkType, node);
       && (forall i :: 0 <= i < |names| ==> names[i].Entity? && Unresolved(cfg, names[i].name))
       && Distinct(TrimmedNames(names))
  }

  lemma {:induction false} ChainIsLinkable(cfg: Planner.Config, linkType: LinkType, node: Ast)
    requires forall x :: x in Planner.Flatten(linkType, node) ==> x.Entity? && Unresolved(cfg, x.name)
    ensures Linkable(cfg, node)
    decreases node
  {
    hide Unresolved;
    if Planner.IsChain(linkType, node) {
      var l, r := Planner.Flatten(linkType, node.left), Planner.Flatten(linkType, node.right);
      assert Planner.Flatten(linkType, node) == l + r;
      ChainIsLinkable(cfg, linkType, node.left);
      ChainIsLinkable(cfg, linkType, node.right);
    } else {
      assert node in Planner.Flatten(linkType, node);
    }
  }

  lemma {:induction false} ChainIsLong(linkType: LinkType, node: Ast)
    requires Planner.IsChain(linkType, node)
    ensures |Planner.Flatten(linkType, node)| >= 2
  {
    assert Planner.Flatten(linkType, node) == Planner.Flatten(linkType, node.left) + Planner.Flatten(linkType, node.right);
  }

  function Named(name: string): Planner.Compiled {
    Planner.Compiled([ByName(name)], [UpsertNode(ByName(name), map[])], [])
  }

  /** The trimmed names of a list of entities. */
  function TrimmedNames(nodes: seq<Ast>): (r: seq<string>)
    requires forall i :: 0 <= i < |nodes| ==> nodes[i].Entity?
    ensures |r| == |nodes|
  {
    seq(|nodes|, i requires 0 <= i < |nodes| => Strip(nodes[i].name))
  }

  lemma {:induction false} NamesCompile(cfg: Planner.Config, nodes: seq<Ast>, n: nat)
    requires n <= |nodes| && forall i :: 0 <= i < |nodes| ==> nodes[i].Entity? && Unresolved(cfg, nodes[i].name)
    requires Distinct(TrimmedNames(nodes))
    ensures var (operands, planned) := Planner.CompileAll(cfg, nodes[..n], true, {});
            && (forall i :: 0 <= i < n ==> operands[i] == Named(TrimmedNames(nodes)[i]))
            && planned == set i | 0 <= i < n :: ByName(TrimmedNames(nodes)[i])
    decreases n
  {
    hide Strip, Unresolved;
    if n > 0 {
      assert nodes[..n][..n - 1] == nodes[..n - 1];
      NamesCompile(cfg, nodes, n - 1);
      var (before, mid) := Planner.CompileAll(cfg, nodes[..n - 1], true, {});
      var me := nodes[n - 1].name;
      var names := TrimmedNames(nodes);
      assert names[n - 1] == Strip(me) && forall i :: 0 <= i < n - 1 ==> names[i] != names[n - 1];
      assert ByName(Strip(me)) !in mid;
      NewName(cfg, me, mid);
      assert Entity(me) == nodes[n - 1];
      assert Planner.CompileAll(cfg, nodes[..n], true, {}) == (before + [Named(Strip(me))], mid + {ByName(Strip(me))});
    }
  }

  lemma NewName(cfg: Planner.Config, name: string, planned: Planner.Planned)
    requires Unresolved(cfg, name) && ByName(Strip(name)) !in planned
    ensures Planner.CompileOperand(cfg, Entity(name), true, planned) == (Named(Strip(name)), planned + {ByName(Strip(name))})
  {
    hide Strip;
  }

  /** All names come before all links, each link between neighbours. */
  predicate NamesThenLinks(intents: seq<Intent>, names: seq<string>, linkType: LinkType) {
    var n := |names|;
    && n > 0 && |intents| == n + (n - 1)
    && (forall i :: 0 <= i < n ==> intents[i] == UpsertNode(ByName(names[i]), map[]))
    && (forall k :: n <= k < |intents| ==> intents[k] == CreateLink(ByName(names[k - n]), ByName(names[k - n + 1]), linkType, map[]))
  }

  lemma {:induction false} ChainOfOnes(operands: seq<Planner.Compiled>, names: seq<string>, linkType: LinkType)
    requires |operands| == |names| > 0 && linkType != FlowLinkType && forall i :: 0 <= i < |names| ==> operands[i] == Named(names[i])
    ensures Planner.Chained(operands, linkType).errors == []
    ensures NamesThenLinks(Planner.Chained(operands, linkType).intents, names, linkType)
  {
    hide Planner.Chained, Contributed, LinksBefore;
    var n := |names|;
    var intents := Planner.Chained(operands, linkType).intents;
    ChainOwnIntents(operands, linkType);
    OnesContribute(operands, n);
    OnesLink(operands, n - 1);
    forall i | 0 <= i < n ensures intents[i] == UpsertNode(ByName(names[i]), map[]) {
      OnesContribute(operands, i);
      assert IntentAt(intents, Contributed(operands, i) + 0, operands[i].intents[0]);
    }
    forall k | n <= k < n + (n - 1) ensures intents[k] == CreateLink(ByName(names[k - n]), ByName(names[k - n + 1]), linkType, map[]) {
      OneLinkAt(operands, names, linkType, k - n);
    }
  }

  lemma OneLinkAt(operands: seq<Planner.Compiled>, names: seq<string>, linkType: LinkType, i: nat)
    requires |operands| == |names| && i + 1 < |names| && linkType != FlowLinkType
    requires forall k :: 0 <= k < |names| ==> operands[k] == Named(names[k])
    ensures IntentAt(Planner.Chained(operands, linkType).intents, |names| + i, CreateLink(ByName(names[i]), ByName(names[i + 1]), linkType, map[]))
  {
    hide Planner.Chained, Contributed, LinksBefore, IntentAt;
    OnesContribute(operands, |names|);
    OnesLink(operands, i);
    ChainLinkMeans(operands, linkType, i, 0, 0);
  }

  lemma {:induction false} ChainPlan(cfg: Planner.Config, linkType: LinkType, node: Ast)
    requires NameChain(cfg, linkType, node)
    ensures Planner.PlanAst(cfg, node).Envelope?
    ensures NamesThenLinks(Planner.PlanAst(cfg, node).intents, TrimmedNames(Planner.Flatten(linkType, node)), linkType)
  {
    hide Strip, Planner.Flatten, Unresolved, Planner.Chained, NamesThenLinks, Planner.CompileAll;
    var nodes := Planner.Flatten(linkType, node);
    assert nodes[..|nodes|] == nodes;
    NamesCompile(cfg, nodes, |nodes|);
    var operands := Planner.CompileAll(cfg, nodes, true, {}).0;
    assert Planner.CompileStatement(cfg, node, {}).0 == Planner.Chained(operands, linkType);
    ChainOfOnes(operands, TrimmedNames(nodes), linkType);
  }

  lemma {:induction false} OnesContribute(operands: seq<Planner.Compiled>, n: nat)
    requires n <= |operands| && forall i :: 0 <= i < |operands| ==> |operands[i].intents| == 1
    ensures Contributed(operands, n) == n
  {
    if n > 0 { OnesContribute(operands, n - 1); }
  }

  lemma {:induction false} OnesLink(operands: seq<Planner.Compiled>, n: nat)
    requires n < |operands| && forall i :: 0 <= i < |operands| ==> |operands[i].selectors| == 1
    ensures LinksBefore(operands, n) == n
  {
    if n > 0 { OnesLink(operands, n - 1); }
  }

  lemma {:induction false} UpsertsThenLinks(intents: seq<Intent>, names: seq<string>, k: nat)
    requires |names| <= |intents| && k <= |intents|
    requires forall i :: 0 <= i < |names| ==> intents[i] == UpsertNode(ByName(names[i]), map[])
    requires forall i :: |names| <= i < |intents| ==> IsLink(intents[i])
    ensures Upserted(intents[..k]) == names[..if k < |names| then k else |names|]
    decreases k
  {
    if k > 0 {
      assert intents[..k][..k - 1] == intents[..k - 1];
      UpsertsThenLinks(intents, names, k - 1);
    }
  }

  /** A chain of different new names is linked as planned iff it has two names; a longer one links its last two over and over. */
  lemma {:induction false} NameChainMadeAsPlannedIff(cfg: Planner.Config, uuid: string -> Option<string>, linkType: LinkType, node: Ast)
    requires NameChain(cfg, linkType, node)
    ensures Planner.PlanAst(cfg, node).Envelope? && Bridge.ToTasks(uuid, Planner.PlanAst(cfg, node).intents).Tasks?
    ensures var intents := Planner.PlanAst(cfg, node).intents;
            var r := ExecuteAll(Bridge.ToTasks(uuid, intents).tasks);
            r.Going? && r.made == Wanted(intents) <==> |Planner.Flatten(linkType, node)| == 2
  {
    hide Linkable, Planner.PlanAst, Bridge.ToTasks, ExecuteAll, Wanted, Strip, Unresolved, Planner.Flatten, NamesThenLinks, Adjacent;
    var nodes := Planner.Flatten(linkType, node);
    assert forall x :: x in nodes ==> exists i :: 0 <= i < |nodes| && nodes[i] == x;
    ChainIsLinkable(cfg, linkType, node);
    ChainIsLong(linkType, node);
    ChainPlan(cfg, linkType, node);
    hide NameChain;
    PlanThenBridge(cfg, uuid, node);
    LinksMadeAsPlannedIff(cfg, uuid, node);
    AdjacentInChain(Planner.PlanAst(cfg, node).intents, TrimmedNames(nodes), linkType) by { ChainIsDistinct(cfg, linkType, node); }
  }

  function Again(made: Made, times: nat): (r: seq<Made>)
    ensures |r| == times && forall i :: 0 <= i < times ==> r[i] == made
  {
    seq(times, i => made)
  }

  lemma ExecuteNext(intents: seq<Intent>, k: nat)
    requires 0 < k <= |intents|
    ensures ExecuteAll(TranslateAll(intents[..k])) == Execute(ExecuteAll(TranslateAll(intents[..k - 1])), Translate(intents[k - 1]))
  {
    hide Execute, Translate;
    assert intents[..k][..k - 1] == intents[..k - 1];
    assert TranslateAll(intents[..k]) == TranslateAll(intents[..k - 1]) + [Translate(intents[k - 1])];
  }

  /** After `k` intents: first the names, then the last two of them linked again and again. */
  function ChainRun(names: seq<string>, linkType: LinkType, k: nat): Run
    requires |names| >= 2
  {
    var n := |names|;
    if k <= n then Going(names[..k], []) else Going(names, Again(Made(names[n - 2], names[n - 1], linkType), k - n))
  }

  lemma ChainRunNext(names: seq<string>, linkType: LinkType, k: nat)
    requires |names| >= 2 && Distinct(names)
    ensures k < |names| ==> Execute(ChainRun(names, linkType, k), Ingest(names[k], map[])) == ChainRun(names, linkType, k + 1)
    ensures k >= |names| ==> Execute(ChainRun(names, linkType, k), Link(linkType, map[])) == ChainRun(names, linkType, k + 1)
  {
    var n := |names|;
    assert names[..n] == names;
    if k < n {
      assert names[..k] + [names[k]] == names[..k + 1];
    } else {
      var made := Made(names[n - 2], names[n - 1], linkType);
      assert Again(made, k - n) + [made] == Again(made, k + 1 - n);
      assert names[n - 2] != names[n - 1];
    }
  }

  lemma {:induction false} ExecuteNames(intents: seq<Intent>, names: seq<string>, linkType: LinkType, k: nat)
    requires NamesThenLinks(intents, names, linkType) && |names| >= 2 && Distinct(names) && k <= |intents|
    ensures ExecuteAll(TranslateAll(intents[..k])) == ChainRun(names, linkType, k)
    decreases k
  {
    hide Execute, Distinct, TranslateAll;
    if k > 0 {
      ExecuteNames(intents, names, linkType, k - 1);
      ExecuteNext(intents, k);
      ChainRunNext(names, linkType, k - 1);
      hide ExecuteAll, ChainRun;
    }
  }

  /** Of a chain of new names, whatever its length, only the last two are linked, once per planned link. */
  lemma {:induction false} NameChainLinksItsLastTwo(cfg: Planner.Config, uuid: string -> Option<string>, linkType: LinkType, node: Ast)
    requires NameChain(cfg, linkType, node)
    ensures Planner.PlanAst(cfg, node).Envelope? && Bridge.ToTasks(uuid, Planner.PlanAst(cfg, node).intents).Tasks?
    ensures var names := TrimmedNames(Planner.Flatten(linkType, node));
            var n := |names|;
            var r := ExecuteAll(Bridge.ToTasks(uuid, Planner.PlanAst(cfg, node).intents).tasks);
            n >= 2 && r == Going(names, Again(Made(names[n - 2], names[n - 1], linkType), n - 1))
  {
    hide Linkable, Planner.PlanAst, Bridge.ToTasks, ExecuteAll, Strip, Unresolved, Planner.Flatten, Sequenced, Names, LearnAll, TranslateAll;
    var nodes := Planner.Flatten(linkType, node);
    assert forall x :: x in nodes ==> exists i :: 0 <= i < |nodes| && nodes[i] == x;
    ChainIsLinkable(cfg, linkType, node);
    ChainIsLong(linkType, node);
    ChainPlan(cfg, linkType, node);
    ChainIsDistinct(cfg, linkType, node);
    hide NameChain, NamesThenLinks, Distinct;
    var intents := PlanSucceeds(cfg, uuid, node);
    var names := TrimmedNames(nodes);
    ExecuteNames(intents, names, linkType, |intents|);
    assert intents[..|intents|] == intents;
  }

  lemma ChainIsDistinct(cfg: Planner.Config, linkType: LinkType, node: Ast)
    requires NameChain(cfg, linkType, node)
    ensures Distinct(TrimmedNames(Planner.Flatten(linkType, node)))
  {
    hide Strip, Planner.Flatten, Unresolved;
  }

  lemma {:induction false} AdjacentInChain(intents: seq<Intent>, names: seq<string>, linkType: LinkType)
    requires |names| >= 2 && NamesThenLinks(intents, names, linkType) && Distinct(names)
    ensures Adjacent(intents) <==> |names| == 2
  {
    hide Upserted;
    var n := |names|;
    forall i | n <= i < |intents| ensures IsLink(intents[i]) && Upserted(intents[..i]) == names {
      UpsertsThenLinks(intents, names, i);
      assert names[..n] == names;
    }
    if n > 2 {
      assert IsLink(intents[n]) && MadeOf(intents[n]).source == names[0] && names[n - 2] != names[0];
      assert !LastTwo(Upserted(intents[..n]), MadeOf(intents[n]).source, MadeOf(intents[n]).target);
    }
  }
}
