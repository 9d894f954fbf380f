/** Plans and tasks position by position: which link joins what to what, in which direction and where. */
module PlanMeaning {
  import opened Values
  import opened Parser
  import opened Intents
  import opened Planner
  import opened Reassociation
  import Bridge

  // ---------- Chains ----------

  /** How many intents the first `i` operands contribute themselves. */
  function Contributed(operands: seq<Compiled>, i: nat): nat
    requires i <= |operands|
  {
    if i == 0 then 0 else Contributed(operands, i - 1) + |operands[i - 1].intents|
  }

  /** How many links there are between the first `i` adjacent pairs of operands. */
  function LinksBefore(operands: seq<Compiled>, i: nat): nat
    requires i < |operands|
  {
    if i == 0 then 0 else LinksBefore(operands, i - 1) + |operands[i - 1].selectors| * |operands[i].selectors|
  }

  lemma {:induction false} AllIntentsAt(operands: seq<Compiled>, n: nat, i: nat, x: nat)
    requires i < n <= |operands| && x < |operands[i].intents|
    ensures |AllIntents(operands[..n])| == Contributed(operands, n)
    ensures Contributed(operands, i) + x < Contributed(operands, n)
    ensures AllIntents(operands[..n])[Contributed(operands, i) + x] == operands[i].intents[x]
    decreases n
  {
    assert operands[..n][..n - 1] == operands[..n - 1];
    AllIntentsLength(operands, n - 1);
    if i < n - 1 { AllIntentsAt(operands, n - 1, i, x); }
  }

  lemma {:induction false} AllIntentsLength(operands: seq<Compiled>, n: nat)
    requires n <= |operands|
    ensures |AllIntents(operands[..n])| == Contributed(operands, n)
    decreases n
  {
    if n > 0 {
      assert operands[..n][..n - 1] == operands[..n - 1];
      AllIntentsLength(operands, n - 1);
    }
  }

  /** Row by row, the place of the pair of the `x`-th source and the `y`-th target. */
  function Place(x: nat, targets: nat, y: nat): nat {
    x * targets + y
  }

  /** The intent at `k` is the link of the two selectors. */
  predicate LinksAt(intents: seq<Intent>, k: nat, s: Selector, t: Selector, linkType: LinkType) {
    k < |intents| && intents[k] == if linkType == FlowLinkType then FlowLink(s, t) else CreateLink(s, t, linkType, map[])
  }

  lemma LinkAt(sources: seq<Selector>, targets: seq<Selector>, linkType: LinkType, x: nat, y: nat)
    requires x < |sources| && y < |targets|
    ensures LinksAt(Links(sources, targets, linkType), Place(x, |targets|, y), sources[x], targets[y], linkType)
  {
    hide Links;
    LinkPosition(sources, targets, linkType, x, y);
  }

  lemma LinksAtOffset(before: seq<Intent>, links: seq<Intent>, after: seq<Intent>, k: nat, s: Selector, t: Selector, linkType: LinkType)
    requires LinksAt(links, k, s, t, linkType)
    ensures LinksAt(before + links + after, |before| + k, s, t, linkType) && LinksAt(before + links, |before| + k, s, t, linkType)
    ensures LinksAt(links + after, k, s, t, linkType)
  {
  }

  lemma ChainLinksNext(operands: seq<Compiled>, linkType: LinkType, n: nat)
    requires 0 < n < |operands|
    ensures ChainLinks(operands[..n + 1], linkType) ==
            ChainLinks(operands[..n], linkType) + Links(operands[n - 1].selectors, operands[n].selectors, linkType)
    ensures |ChainLinks(operands[..1], linkType)| == 0
  {
    hide Links;
    assert operands[..n + 1][..n] == operands[..n];
  }

  lemma {:induction false} ChainLinksLength(operands: seq<Compiled>, linkType: LinkType, n: nat)
    requires n < |operands|
    ensures |ChainLinks(operands[..n + 1], linkType)| == LinksBefore(operands, n)
    decreases n
  {
    hide ChainLinks;
    if n > 0 {
      ChainLinksNext(operands, linkType, n);
      ChainLinksLength(operands, linkType, n - 1);
    } else {
      NoLinksYet(operands, linkType);
    }
  }

  lemma NoLinksYet(operands: seq<Compiled>, linkType: LinkType)
    requires operands != []
    ensures ChainLinks(operands[..1], linkType) == []
  {
  }

  lemma {:induction false} ChainLinkAt(operands: seq<Compiled>, linkType: LinkType, n: nat, i: nat, x: nat, y: nat)
    requires i < n < |operands| && x < |operands[i].selectors| && y < |operands[i + 1].selectors|
    ensures LinksAt(ChainLinks(operands[..n + 1], linkType), LinksBefore(operands, i) + Place(x, |operands[i + 1].selectors|, y),
                    operands[i].selectors[x], operands[i + 1].selectors[y], linkType)
    decreases n
  {
    hide Links, LinksAt, Place, ChainLinks, LinksBefore;
    ChainLinksNext(operands, linkType, n);
    var before := ChainLinks(operands[..n], linkType);
    var row := Links(operands[n - 1].selectors, operands[n].selectors, linkType);
    var s, t := operands[i].selectors[x], operands[i + 1].selectors[y];
    var place := Place(x, |operands[i + 1].selectors|, y);
    if i < n - 1 {
      ChainLinkAt(operands, linkType, n - 1, i, x, y);
      LinksAtOffset([], before, row, LinksBefore(operands, i) + place, s, t, linkType);
    } else {
      ChainLinksLength(operands, linkType, n - 1);
      LinkAt(operands[i].selectors, operands[i + 1].selectors, linkType, x, y);
      LinksAtOffset(before, row, [], place, s, t, linkType);
    }
  }

  /** A chain without errors first plans what its operands plan, in their order, and nothing besides that and its links. */
  lemma {:induction false} ChainOwnIntents(operands: seq<Compiled>, linkType: LinkType)
    requires operands != [] && forall i :: 0 <= i < |operands| ==> operands[i].errors == []
    ensures var c := Chained(operands, linkType);
            var last := |operands| - 1;
            && c.errors == [] && |c.intents| == Contributed(operands, |operands|) + LinksBefore(operands, last)
            && c.selectors == (if linkType == RelationLinkType then operands[last] else operands[0]).selectors
    ensures forall i: nat, x: nat :: i < |operands| && x < |operands[i].intents| ==>
              IntentAt(Chained(operands, linkType).intents, Contributed(operands, i) + x, operands[i].intents[x])
  {
    hide AllErrors, ChainLinks, AllIntents, Contributed, LinksBefore;
    var n := |operands|;
    ChainParts(operands, linkType);
    forall i: nat, x: nat | i < n && x < |operands[i].intents|
      ensures IntentAt(Chained(operands, linkType).intents, Contributed(operands, i) + x, operands[i].intents[x]) {
      AllIntentsAt(operands, n, i, x);
      assert operands[..n] == operands;
    }
  }

  predicate IntentAt(intents: seq<Intent>, k: nat, intent: Intent) {
    k < |intents| && intents[k] == intent
  }

  lemma {:induction false} ChainParts(operands: seq<Compiled>, linkType: LinkType)
    requires operands != [] && forall i :: 0 <= i < |operands| ==> operands[i].errors == []
    ensures var c := Chained(operands, linkType);
            && c.errors == [] && c.intents == AllIntents(operands) + ChainLinks(operands, linkType)
            && |AllIntents(operands)| == Contributed(operands, |operands|)
            && |ChainLinks(operands, linkType)| == LinksBefore(operands, |operands| - 1)
  {
    hide AllErrors, ChainLinks, AllIntents, Contributed, LinksBefore;
    NoErrors(operands, |operands|);
    AllIntentsLength(operands, |operands|);
    ChainLinksLength(operands, linkType, |operands| - 1);
    assert operands[..|operands|] == operands;
  }

  /**
   Behind those, operand by operand from left to right, comes one link from every selector of an operand to
   every selector of the next, the sources outermost.
   */
  lemma {:induction false} ChainLinkMeans(operands: seq<Compiled>, linkType: LinkType, i: nat, x: nat, y: nat)
    requires operands != [] && linkType != FlowLinkType && forall i :: 0 <= i < |operands| ==> operands[i].errors == []
    requires i + 1 < |operands| && x < |operands[i].selectors| && y < |operands[i + 1].selectors|
    ensures var k := Contributed(operands, |operands|) + LinksBefore(operands, i) + Place(x, |operands[i + 1].selectors|, y);
            IntentAt(Chained(operands, linkType).intents, k, CreateLink(operands[i].selectors[x], operands[i + 1].selectors[y], linkType, map[]))
  {
    hide AllErrors, ChainLinks, AllIntents, Contributed, LinksBefore, Chained, Place;
    ChainParts(operands, linkType);
    ChainLinkAt(operands, linkType, |operands| - 1, i, x, y);
    assert operands[..|operands|] == operands;
    LinksAtOffset(AllIntents(operands), ChainLinks(operands, linkType), [], LinksBefore(operands, i) + Place(x, |operands[i + 1].selectors|, y),
                  operands[i].selectors[x], operands[i + 1].selectors[y], linkType);
  }

  lemma {:induction false} NoErrors(operands: seq<Compiled>, n: nat)
    requires n <= |operands| && forall i :: 0 <= i < |operands| ==> operands[i].errors == []
    ensures AllErrors(operands[..n]) == []
    decreases n
  {
    if n > 0 {
      assert operands[..n][..n - 1] == operands[..n - 1];
      NoErrors(operands, n - 1);
    }
  }

  /** How many selectors, or issues, the first `i` operands have. */
  function SelectorsBefore(operands: seq<Compiled>, i: nat): nat
    requires i <= |operands|
  {
    if i == 0 then 0 else SelectorsBefore(operands, i - 1) + |operands[i - 1].selectors|
  }

  function IssuesBefore(operands: seq<Compiled>, i: nat): nat
    requires i <= |operands|
  {
    if i == 0 then 0 else IssuesBefore(operands, i - 1) + |operands[i - 1].errors|
  }

  lemma {:induction false} AllSelectorsLength(operands: seq<Compiled>, n: nat)
    requires n <= |operands|
    ensures |AllSelectors(operands[..n])| == SelectorsBefore(operands, n)
    decreases n
  {
    if n > 0 {
      assert operands[..n][..n - 1] == operands[..n - 1];
      AllSelectorsLength(operands, n - 1);
    }
  }

  lemma {:induction false} AllSelectorsAt(operands: seq<Compiled>, n: nat, i: nat, x: nat)
    requires i < n <= |operands| && x < |operands[i].selectors|
    ensures |AllSelectors(operands[..n])| == SelectorsBefore(operands, n) && SelectorsBefore(operands, i) + x < SelectorsBefore(operands, n)
    ensures AllSelectors(operands[..n])[SelectorsBefore(operands, i) + x] == operands[i].selectors[x]
    decreases n
  {
    assert operands[..n][..n - 1] == operands[..n - 1];
    AllSelectorsLength(operands, n - 1);
    if i < n - 1 { AllSelectorsAt(operands, n - 1, i, x); }
  }

  lemma {:induction false} AllErrorsLength(operands: seq<Compiled>, n: nat)
    requires n <= |operands|
    ensures |AllErrors(operands[..n])| == IssuesBefore(operands, n)
    decreases n
  {
    if n > 0 {
      assert operands[..n][..n - 1] == operands[..n - 1];
      AllErrorsLength(operands, n - 1);
    }
  }

  lemma {:induction false} AllErrorsAt(operands: seq<Compiled>, n: nat, i: nat, x: nat)
    requires i < n <= |operands| && x < |operands[i].errors|
    ensures |AllErrors(operands[..n])| == IssuesBefore(operands, n) && IssuesBefore(operands, i) + x < IssuesBefore(operands, n)
    ensures AllErrors(operands[..n])[IssuesBefore(operands, i) + x] == operands[i].errors[x]
    decreases n
  {
    assert operands[..n][..n - 1] == operands[..n - 1];
    AllErrorsLength(operands, n - 1);
    if i < n - 1 { AllErrorsAt(operands, n - 1, i, x); }
  }

  /** A group stands for all selectors of its items, in their order, and reports all their issues, in their order. */
  lemma {:induction false} GroupMeans(cfg: Config, items: seq<Ast>, create: bool, planned: Planned, i: nat, x: nat)
    requires i < |items|
    ensures var operands := CompileAll(cfg, items, create, planned).0;
            var c := CompileOperand(cfg, Group(items), create, planned).0;
            && |c.selectors| == SelectorsBefore(operands, |items|) && |c.errors| == IssuesBefore(operands, |items|)
            && (x < |operands[i].selectors| ==>
                  SelectorsBefore(operands, i) + x < |c.selectors| && c.selectors[SelectorsBefore(operands, i) + x] == operands[i].selectors[x])
            && (x < |operands[i].errors| ==>
                  IssuesBefore(operands, i) + x < |c.errors| && c.errors[IssuesBefore(operands, i) + x] == operands[i].errors[x])
  {
    hide CompileAll, AllSelectors, AllErrors, AllIntents;
    var operands := CompileAll(cfg, items, create, planned).0;
    assert operands[..|items|] == operands;
    AllSelectorsLength(operands, |items|);
    AllErrorsLength(operands, |items|);
    if x < |operands[i].selectors| { AllSelectorsAt(operands, |items|, i, x); }
    if x < |operands[i].errors| { AllErrorsAt(operands, |items|, i, x); }
  }

  // ---------- Statements ----------

  /** `s -> t` plans the source, then the target, then one flow from every selector of the source to every one of the target. */
  lemma {:induction false} FlowMeans(cfg: Config, source: Ast, target: Ast, planned: Planned)
    requires var (s, mid) := CompileOperand(cfg, source, true, planned);
             s.errors == [] && CompileOperand(cfg, target, true, mid).0.errors == []
    ensures var (s, mid) := CompileOperand(cfg, source, true, planned);
            var t := CompileOperand(cfg, target, true, mid).0;
            var c := CompileStatement(cfg, Flow(source, target), planned).0;
            && c.errors == [] && c.selectors == t.selectors && s.intents + t.intents <= c.intents
            && |c.intents| == |s.intents| + |t.intents| + |s.selectors| * |t.selectors|
            && forall x: nat, y: nat :: x < |s.selectors| && y < |t.selectors| ==>
                 LinksAt(c.intents, |s.intents| + |t.intents| + Place(x, |t.selectors|, y), s.selectors[x], t.selectors[y], FlowLinkType)
  {
    hide CompileOperand, Links, LinksAt, Place;
    var (s, mid) := CompileOperand(cfg, source, true, planned);
    var t := CompileOperand(cfg, target, true, mid).0;
    var links := Links(s.selectors, t.selectors, FlowLinkType);
    forall x: nat, y: nat | x < |s.selectors| && y < |t.selectors|
      ensures LinksAt(s.intents + t.intents + links, |s.intents| + |t.intents| + Place(x, |t.selectors|, y), s.selectors[x], t.selectors[y], FlowLinkType) {
      LinkAt(s.selectors, t.selectors, FlowLinkType, x, y);
      LinksAtOffset(s.intents + t.intents, links, [], Place(x, |t.selectors|, y), s.selectors[x], t.selectors[y], FlowLinkType);
    }
  }

  /** `- t` plans one extinguishing per selector of the target and nothing else. */
  lemma {:induction false} ExtinguishMeans(cfg: Config, target: Ast, planned: Planned)
    requires CompileOperand(cfg, target, false, planned).0.errors == []
    ensures var t := CompileOperand(cfg, target, false, planned).0;
            var c := CompileStatement(cfg, Ast.Extinguish(target), planned).0;
            && c.errors == [] && |c.intents| == |t.selectors|
            && forall i :: 0 <= i < |t.selectors| ==> c.intents[i] == ExtinguishNode(t.selectors[i])
  {
    hide CompileOperand;
  }

  /** An unresolved name is planned to be upserted when it is new, and is known from then on. */
  lemma {:induction false} NameMeans(cfg: Config, name: string, planned: Planned)
    requires cfg.resolver == NoResolver && cfg.uuid(Strip(name)).None? && Strip(name) != ""
    ensures var me := ByName(Strip(name));
            var (c, after) := CompileOperand(cfg, Entity(name), true, planned);
            && c.errors == [] && c.selectors == [me] && after == planned + {me}
            && c.intents == (if me in planned then [] else [UpsertNode(me, map[])])
            && CompileOperand(cfg, Entity(name), false, planned) == (Compiled([me], [], []), planned)
  {
    hide Strip;
  }

  /** Which selector a name stands for: what the resolver says, else the id it reads as, else the name. */
  lemma {:induction false} ResolvedMeans(cfg: Config, name: string, create: bool, planned: Planned)
    ensures var n := Strip(name);
            var (r, after) := ResolveEntity(cfg, name, create, planned);
            var found := if cfg.resolver.Resolver? then cfg.resolver.resolve(n) else None;
            var issue := if cfg.resolver.Resolver? then cfg.resolver.issue(n) else None;
            && (r.errors != [] <==> n == "" || (found.None? && (issue == Some(AmbiguousName) || (issue == Some(NotFound) && !create))))
            && (r.errors == [] && found.Some? ==> r.selector == found.value)
            && (r.errors == [] && found.None? && cfg.uuid(n).Some? ==> r.selector == ById(cfg.uuid(n).value))
            && (r.errors == [] && found.None? && cfg.uuid(n).None? ==> r.selector == ByName(n))
            && (r.intents != [] <==> r.errors == [] && found.None? && cfg.uuid(n).None? && create && ByName(n) !in planned)
            && (r.intents != [] ==> r.intents == [UpsertNode(ByName(n), map[])] && after == planned + {ByName(n)})
            && (r.intents == [] ==> after == planned)
  {
    hide Strip;
  }

  /** What an assignment plans: the upsert its name may need, then the value for the field. */
  lemma {:induction false} AssignmentMeans(cfg: Config, entity: string, field: string, content: Ast, planned: Planned)
    ensures var r := ResolveEntity(cfg, entity, true, planned).0;
            var c := CompileStatement(cfg, Assignment(entity, field, content), planned).0;
            && (r.errors != [] ==> c.errors == r.errors)
            && (r.errors == [] && AssignValue(content).None? ==> c.errors == [InvalidAssignValue])
            && (r.errors == [] && AssignValue(content).Some? ==>
                  c.errors == [] && c.intents == r.intents + [AssignAttribute(r.selector, field, AssignValue(content).value)])
            && (content.Literal? ==> AssignValue(content) == Some(TextValue(content.value)))
            && (content.Entity? ==> AssignValue(content) == Some(EntityValue(content.name)))
            && (content.Group? && AssignValue(content).Some? ==>
                  var v := AssignValue(content).value;
                  v.ListValue? && |v.values| == |content.items|
                  && forall i :: 0 <= i < |content.items| ==> AssignValue(content.items[i]) == Some(v.values[i]))
  {
    hide ResolveEntity, AssignValue;
    AssignValueMeans(content);
  }

  lemma {:induction false} AssignValueMeans(content: Ast)
    ensures content.Literal? ==> AssignValue(content) == Some(TextValue(content.value))
    ensures content.Entity? ==> AssignValue(content) == Some(EntityValue(content.name))
    ensures content.Group? && AssignValue(content).Some? ==>
              var v := AssignValue(content).value;
              v.ListValue? && |v.values| == |content.items|
              && forall i :: 0 <= i < |content.items| ==> AssignValue(content.items[i]) == Some(v.values[i])
  {
    if content.Group? { AssignValuesMean(content.items); }
  }

  lemma {:induction false} AssignValuesMean(nodes: seq<Ast>)
    ensures var vs := AssignValues(nodes);
            vs.Some? ==> |vs.value| == |nodes| && forall i :: 0 <= i < |nodes| ==> AssignValue(nodes[i]) == Some(vs.value[i])
    decreases nodes
  {
    hide AssignValue;
    if nodes != [] {
      AssignValuesMean(nodes[1..]);
      var vs := AssignValues(nodes);
      if vs.Some? {
        forall i | 0 <= i < |nodes| ensures AssignValue(nodes[i]) == Some(vs.value[i]) {
          if i > 0 { assert nodes[i] == nodes[1..][i - 1]; }
        }
      }
    }
  }

  /** Two new names joined by one operator: both are upserted, left first, and linked from left to right. */
  lemma {:induction false} TwoNames(cfg: Config, a: string, b: string)
    requires cfg.resolver == NoResolver && Strip(a) != "" && Strip(b) != "" && Strip(a) != Strip(b)
    requires cfg.uuid(Strip(a)).None? && cfg.uuid(Strip(b)).None?
    ensures var s, t := ByName(Strip(a)), ByName(Strip(b));
            var ups := [UpsertNode(s, map[]), UpsertNode(t, map[])];
            && PlanAst(cfg, RelationLink(Entity(a), Entity(b))) == Envelope(ups + [CreateLink(s, t, RelationLinkType, map[])])
            && PlanAst(cfg, TypeLink(Entity(a), Entity(b))) == Envelope(ups + [CreateLink(s, t, TypeLinkType, map[])])
            && PlanAst(cfg, Flow(Entity(a), Entity(b))) == Envelope(ups + [FlowLink(s, t)])
  {
    hide Strip, CompileOperand, CompileStatement, Chained;
    var s, t := ByName(Strip(a)), ByName(Strip(b));
    NameMeans(cfg, a, {});
    NameMeans(cfg, b, {s});
    assert {} + {s} == {s};
    var first, second := Compiled([s], [UpsertNode(s, map[])], []), Compiled([t], [UpsertNode(t, map[])], []);
    CompilePair(cfg, Entity(a), Entity(b));
    TwoOperands(first, second, RelationLinkType);
    TwoOperands(first, second, TypeLinkType);
    OperandIsChained(cfg, RelationLink(Entity(a), Entity(b)), RelationLinkType);
    OperandIsChained(cfg, TypeLink(Entity(a), Entity(b)), TypeLinkType);
    FlowIsLinked(cfg, Entity(a), Entity(b), first, second);
    var ups := [UpsertNode(s, map[]), UpsertNode(t, map[])];
    assert first.intents + second.intents == ups;
  }

  lemma {:induction false} CompilePair(cfg: Config, a: Ast, b: Ast)
    ensures var (c, mid) := CompileOperand(cfg, a, true, {}); CompileAll(cfg, [a, b], true, {}).0 == [c, CompileOperand(cfg, b, true, mid).0]
  {
    hide CompileOperand;
    assert [a, b][..1] == [a] && [a][..0] == [];
    assert CompileAll(cfg, [a], true, {}).0 == [CompileOperand(cfg, a, true, {}).0];
  }

  lemma {:induction false} FlowIsLinked(cfg: Config, a: Ast, b: Ast, s: Compiled, t: Compiled)
    requires var (c, mid) := CompileOperand(cfg, a, true, {}); c == s && CompileOperand(cfg, b, true, mid).0 == t
    requires s.errors == [] && t.errors == [] && |s.selectors| == 1 && |t.selectors| == 1
    ensures var c := CompileStatement(cfg, Flow(a, b), {}).0;
            c.errors == [] && c.intents == s.intents + t.intents + [FlowLink(s.selectors[0], t.selectors[0])]
  {
    hide CompileOperand;
    assert s.selectors[..0] == [] && s.selectors == [s.selectors[0]];
    assert Links(s.selectors, t.selectors, FlowLinkType) == [FlowLink(s.selectors[0], t.selectors[0])];
  }

  lemma {:induction false} OperandIsChained(cfg: Config, node: Ast, linkType: LinkType)
    requires IsChain(linkType, node) && node.left.Entity? && node.right.Entity?
    ensures CompileStatement(cfg, node, {}).0 == Chained(CompileAll(cfg, [node.left, node.right], true, {}).0, linkType)
  {
    hide CompileAll, Chained;
    assert Flatten(linkType, node) == [node.left] + [node.right];
    hide Flatten;
    assert [node.left] + [node.right] == [node.left, node.right];
  }

  lemma {:induction false} TwoOperands(a: Compiled, b: Compiled, linkType: LinkType)
    requires a.errors == [] && b.errors == [] && |a.selectors| == 1 && |b.selectors| == 1 && linkType != FlowLinkType
    ensures Chained([a, b], linkType).errors == []
    ensures Chained([a, b], linkType).intents == a.intents + b.intents + [CreateLink(a.selectors[0], b.selectors[0], linkType, map[])]
  {
    hide Links;
    assert [a, b][..1] == [a] && [a][..0] == [];
    assert AllErrors([a]) == AllErrors([a][..0]) + a.errors && AllIntents([a]) == a.intents;
    assert ChainLinks([a], linkType) == [];
    OneLink(a.selectors[0], b.selectors[0], linkType);
    assert a.selectors == [a.selectors[0]] && b.selectors == [b.selectors[0]];
  }

  lemma OneLink(s: Selector, t: Selector, linkType: LinkType)
    requires linkType != FlowLinkType
    ensures Links([s], [t], linkType) == [CreateLink(s, t, linkType, map[])]
  {
    assert [s][..0] == [];
  }

  // ---------- Tasks ----------

  /** A selector the bridge accepts: any name, or an id that reads as one. */
  predicate Readable(uuid: string -> Option<string>, s: Selector) {
    s.ById? ==> uuid(s.value).Some?
  }

  /** An intent the bridge has a task for; a link needs two names or two ids. */
  predicate Bridgeable(uuid: string -> Option<string>, intent: Intent)
    decreases intent
  {
    match intent
    case Bulk(intents) => forall x :: x in intents ==> Bridgeable(uuid, x)
    case UpsertNode(node, _) => Readable(uuid, node)
    case AssignAttribute(target, _, _) => Readable(uuid, target)
    case CreateLink(s, t, _, _) => Readable(uuid, s) && Readable(uuid, t) && (s.ByName? <==> t.ByName?)
    case FlowLink(s, t) => Readable(uuid, s) && Readable(uuid, t) && (s.ByName? <==> t.ByName?)
    case ExtinguishNode(target) => Readable(uuid, target)
    case _ => true
  }

  lemma {:induction false} StepFailsIff(uuid: string -> Option<string>, s: Bridge.State, intent: Intent)
    ensures |s.errors| <= |Bridge.Step(uuid, s, intent).errors|
    ensures |s.errors| == |Bridge.Step(uuid, s, intent).errors| <==> Bridgeable(uuid, intent)
    decreases intent, 1
  {
    if intent.Bulk? { FoldFailsIff(uuid, s, intent.intents); }
  }

  lemma {:induction false} FoldFailsIff(uuid: string -> Option<string>, s: Bridge.State, intents: seq<Intent>)
    ensures |s.errors| <= |Bridge.Fold(uuid, s, intents).errors|
    ensures |s.errors| == |Bridge.Fold(uuid, s, intents).errors| <==> forall x :: x in intents ==> Bridgeable(uuid, x)
    decreases intents, 0
  {
    hide Bridgeable, Bridge.Step;
    if intents != [] {
      var init, last := intents[..|intents| - 1], intents[|intents| - 1];
      assert intents == init + [last];
      FoldFailsIff(uuid, s, init);
      StepFailsIff(uuid, Bridge.Fold(uuid, s, init), last);
    }
  }

  /** Tasks come out iff every intent, however deeply nested, can be bridged; one that cannot suppresses them all. */
  lemma {:induction false} TasksIffBridgeable(uuid: string -> Option<string>, intents: seq<Intent>)
    ensures Bridge.ToTasks(uuid, intents).Tasks? <==> forall x :: x in intents ==> Bridgeable(uuid, x)
  {
    hide Bridgeable, Bridge.Fold;
    FoldFailsIff(uuid, Bridge.State([], [], {}), intents);
  }

  /** A link of two ids becomes one task with the canonical ids of its source and its target, in this order. */
  lemma {:induction false} LinkOfIdsMeans(uuid: string -> Option<string>, s: Bridge.State, a: string, b: string, linkType: LinkType, metadata: Metadata)
    requires uuid(a).Some? && uuid(b).Some?
    ensures Bridge.Step(uuid, s, CreateLink(ById(a), ById(b), linkType, metadata)) ==
            Bridge.State(s.tasks + [LinkIds(uuid(a).value, uuid(b).value, linkType, metadata)], s.errors, s.known)
    ensures Bridge.Step(uuid, s, FlowLink(ById(a), ById(b))) ==
            Bridge.State(s.tasks + [LinkIds(uuid(a).value, uuid(b).value, FlowLinkType, map[])], s.errors, s.known)
  {
  }

  /** A link of two names first ingests both, source first, unless both are known; both are known afterwards. */
  lemma {:induction false} LinkOfNamesMeans(uuid: string -> Option<string>, s: Bridge.State, a: string, b: string, linkType: LinkType, metadata: Metadata)
    ensures var t := Bridge.Step(uuid, s, CreateLink(ByName(a), ByName(b), linkType, metadata));
            && t.errors == s.errors && t.known == s.known + {a, b}
            && t.tasks == s.tasks + (if a in s.known && b in s.known then [] else [Ingest(a, map[]), Ingest(b, map[])]) + [Link(linkType, metadata)]
  {
  }

  /** What the other intents on names and ids become. */
  lemma {:induction false} OtherTasksMean(uuid: string -> Option<string>, s: Bridge.State, name: string, id: string, canonical: string,
                                          metadata: Metadata, field: string, value: AssignedValue)
    requires uuid(id) == Some(canonical)
    ensures Bridge.Step(uuid, s, UpsertNode(ByName(name), metadata)) == Bridge.State(s.tasks + [Ingest(name, metadata)], s.errors, s.known + {name})
    ensures Bridge.Step(uuid, s, UpsertNode(ById(id), metadata)).tasks == s.tasks + (if metadata == map[] then [] else [UpdateAsteroid(canonical, metadata)])
    ensures Bridge.Step(uuid, s, AssignAttribute(ByName(name), field, value)) ==
            Bridge.State(s.tasks + [IngestAssigned(name, field, value)], s.errors, s.known + {name})
    ensures Bridge.Step(uuid, s, AssignAttribute(ById(id), field, value)).tasks == s.tasks + [UpdateAssigned(canonical, field, value)]
    ensures Bridge.Step(uuid, s, ExtinguishNode(ByName(name))).tasks == s.tasks + [Delete(name)]
    ensures Bridge.Step(uuid, s, ExtinguishNode(ById(id))).tasks == s.tasks + [Task.Extinguish(canonical)]
  {
  }

  /** Commands on patterns and atoms are handed on as they are. */
  lemma CommandTasksMean(uuid: string -> Option<string>, s: Bridge.State, text: string, condition: Option<string>, atom: string,
                         field: string, formula: string, operator: string, threshold: Json, action: string)
    ensures Bridge.Step(uuid, s, SelectNodes(text, condition)).tasks == s.tasks + [Select(text, condition)]
    ensures Bridge.Step(uuid, s, SetFormula(atom, field, formula)).tasks == s.tasks + [Formula(atom, field, formula)]
    ensures Bridge.Step(uuid, s, AddGuardian(atom, field, operator, threshold, action)).tasks ==
            s.tasks + [Guardian(atom, field, operator, threshold, action)]
  {
  }

  /** Each unreadable id of an intent is reported, behind what was reported before, and a mixed link as such. */
  lemma IssuesMean(uuid: string -> Option<string>, s: Bridge.State, a: string, b: string, name: string, linkType: LinkType, metadata: Metadata,
                   field: string, value: AssignedValue)
    requires uuid(a).None?
    ensures Bridge.Step(uuid, s, UpsertNode(ById(a), metadata)) == s.(errors := s.errors + [Bridge.InvalidSelectorId])
    ensures Bridge.Step(uuid, s, AssignAttribute(ById(a), field, value)) == s.(errors := s.errors + [Bridge.InvalidSelectorId])
    ensures Bridge.Step(uuid, s, ExtinguishNode(ById(a))) == s.(errors := s.errors + [Bridge.InvalidSelectorId])
    ensures Bridge.Step(uuid, s, CreateLink(ById(a), ById(b), linkType, metadata)) ==
            s.(errors := s.errors + if uuid(b).None? then [Bridge.InvalidSelectorId, Bridge.InvalidSelectorId] else [Bridge.InvalidSelectorId])
    ensures Bridge.Step(uuid, s, CreateLink(ByName(name), ById(b), linkType, metadata)) == s.(errors := s.errors + [Bridge.MixedSelectorLink])
  {
  }
}
