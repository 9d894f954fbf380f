/** From syntax trees to intents: entities are upserted once, chains link adjacent operands. */
module Planner {
  import opened Values
  import opened Parser
  import opened Intents

  datatype IssueCode =
    | EmptyEntityName | AmbiguousName | NotFound | UnsupportedReference | UnsupportedLiteral | InvalidAssignValue

  /** A resolver answers for names; `issue` explains why a name was not resolved. */
  datatype Resolver =
    | NoResolver
    | Resolver(resolve: string -> Option<Selector>, issue: string -> Option<IssueCode>)

  /** `uuid` stands for the UUID constructor: the canonical text of a name that reads as one. */
  datatype Config = Config(resolver: Resolver, uuid: string -> Option<string>)

  datatype Compiled = Compiled(selectors: seq<Selector>, intents: seq<Intent>, errors: seq<IssueCode>)

  type Planned = set<Selector>

  // ---------- Flattening ----------

  function Size(node: Ast): nat
    ensures Size(node) > 0
    decreases node
  {
    match node
    case Group(items) => 1 + SizeAll(items)
    case TypeLink(l, r) => 1 + Size(l) + Size(r)
    case RelationLink(l, r) => 1 + Size(l) + Size(r)
    case Flow(l, r) => 1 + Size(l) + Size(r)
    case Assignment(_, _, content) => 1 + Size(content)
    case Extinguish(t) => 1 + Size(t)
    case _ => 1
  }

  function SizeAll(nodes: seq<Ast>): nat
    decreases nodes
  {
    if nodes == [] then 0 else Size(nodes[0]) + SizeAll(nodes[1..])
  }

  lemma {:induction false} SizeAllAppend(a: seq<Ast>, b: seq<Ast>)
    ensures SizeAll(a + b) == SizeAll(a) + SizeAll(b)
    decreases |a|
  {
    if a == [] {
      assert a + b == b;
    } else {
      SizeAllAppend(a[1..], b);
      assert (a + b)[1..] == a[1..] + b;
    }
  }

  predicate IsChain(linkType: LinkType, node: Ast) {
    (linkType == RelationLinkType && node.RelationLink?) || (linkType == TypeLinkType && node.TypeLink?)
  }

  /** The operands of a chain of one operator, left to right. */
  function Flatten(linkType: LinkType, node: Ast): (r: seq<Ast>)
    ensures r != []
    ensures SizeAll(r) <= Size(node)
    ensures IsChain(linkType, node) ==> SizeAll(r) < Size(node)
    decreases node
  {
    if IsChain(linkType, node) then
      SizeAllAppend(Flatten(linkType, node.left), Flatten(linkType, node.right));
      Flatten(linkType, node.left) + Flatten(linkType, node.right)
    else
      assert SizeAll([node]) == Size(node);
      [node]
  }

  // ---------- Compilation ----------

  datatype Resolved = Resolved(selector: Selector, intents: seq<Intent>, errors: seq<IssueCode>)

  function ResolveEntity(cfg: Config, name: string, create: bool, planned: Planned): (Resolved, Planned) {
    var normalized := Strip(name);
    var byName := ByName(normalized);
    if normalized == "" then (Resolved(ByName(""), [], [EmptyEntityName]), planned)
    else if cfg.resolver.Resolver? && cfg.resolver.resolve(normalized).Some? then
      (Resolved(cfg.resolver.resolve(normalized).value, [], []), planned)
    else if cfg.resolver.Resolver? && cfg.resolver.issue(normalized) == Some(AmbiguousName) then
      (Resolved(byName, [], [AmbiguousName]), planned)
    else if cfg.resolver.Resolver? && cfg.resolver.issue(normalized) == Some(NotFound) && !create then
      (Resolved(byName, [], [NotFound]), planned)
    else if cfg.uuid(normalized).Some? then (Resolved(ById(cfg.uuid(normalized).value), [], []), planned)
    else if !create || byName in planned then (Resolved(byName, [], []), planned)
    else (Resolved(byName, [UpsertNode(byName, map[])], []), planned + {byName})
  }

  function AssignValue(node: Ast): Option<AssignedValue>
    decreases node
  {
    match node
    case Literal(text) => Some(TextValue(text))
    case Entity(name) => Some(EntityValue(name))
    case Group(items) =>
      (match AssignValues(items)
       case Some(values) => Some(ListValue(values))
       case None => None)
    case _ => None
  }

  function AssignValues(nodes: seq<Ast>): Option<seq<AssignedValue>>
    decreases nodes
  {
    if nodes == [] then Some([]) else
      match (AssignValue(nodes[0]), AssignValues(nodes[1..]))
      case (Some(v), Some(vs)) => Some([v] + vs)
      case _ => None
  }

  /** One link from `source` to every target. */
  function LinksFrom(source: Selector, targets: seq<Selector>, linkType: LinkType): (r: seq<Intent>)
    ensures |r| == |targets|
  {
    seq(|targets|, i requires 0 <= i < |targets| =>
      if linkType == FlowLinkType then FlowLink(source, targets[i]) else CreateLink(source, targets[i], linkType, map[]))
  }

  /** Every source to every target, sources outermost. */
  function Links(sources: seq<Selector>, targets: seq<Selector>, linkType: LinkType): (r: seq<Intent>)
    ensures |r| == |sources| * |targets|
  {
    if sources == [] then [] else
      var r := Links(sources[..|sources| - 1], targets, linkType) + LinksFrom(sources[|sources| - 1], targets, linkType);
      assert |sources| * |targets| == (|sources| - 1) * |targets| + |targets|;
      r
  }

  /** The links between each operand and the next. */
  function ChainLinks(operands: seq<Compiled>, linkType: LinkType): seq<Intent> {
    if |operands| < 2 then [] else
      var n := |operands|;
      ChainLinks(operands[..n - 1], linkType) + Links(operands[n - 2].selectors, operands[n - 1].selectors, linkType)
  }

  function AllIntents(operands: seq<Compiled>): seq<Intent> {
    if operands == [] then [] else AllIntents(operands[..|operands| - 1]) + operands[|operands| - 1].intents
  }

  function AllErrors(operands: seq<Compiled>): seq<IssueCode> {
    if operands == [] then [] else AllErrors(operands[..|operands| - 1]) + operands[|operands| - 1].errors
  }

  function AllSelectors(operands: seq<Compiled>): seq<Selector> {
    if operands == [] then [] else AllSelectors(operands[..|operands| - 1]) + operands[|operands| - 1].selectors
  }

  /** A chain hands on the selectors of its last operand for '+', of its first for ':'. */
  function Chained(operands: seq<Compiled>, linkType: LinkType): Compiled
    requires operands != []
  {
    if AllErrors(operands) != [] then Compiled([], AllIntents(operands), AllErrors(operands))
    else
      var kept := if linkType == RelationLinkType then operands[|operands| - 1] else operands[0];
      Compiled(kept.selectors, AllIntents(operands) + ChainLinks(operands, linkType), [])
  }

  function Extinguishes(selectors: seq<Selector>): seq<Intent> {
    seq(|selectors|, i requires 0 <= i < |selectors| => ExtinguishNode(selectors[i]))
  }

  predicate IsStatementNode(node: Ast) {
    node.Assignment? || node.Flow? || node.Extinguish?
  }

  function CompileStatement(cfg: Config, node: Ast, planned: Planned): (Compiled, Planned)
    decreases Size(node), if IsStatementNode(node) then 0 else 2
  {
    match node
    case Assignment(entity, field, content) =>
      var (r, after) := ResolveEntity(cfg, entity, true, planned);
      if r.errors != [] then (Compiled([], r.intents, r.errors), after) else
        (match AssignValue(content)
         case None => (Compiled([], r.intents, [InvalidAssignValue]), after)
         case Some(v) => (Compiled([r.selector], r.intents + [AssignAttribute(r.selector, field, v)], []), after))
    case Flow(source, target) =>
      var (s, mid) := CompileOperand(cfg, source, true, planned);
      if s.errors != [] then (s, mid) else
        var (t, after) := CompileOperand(cfg, target, true, mid);
        if t.errors != [] then (t, after) else
          (Compiled(t.selectors, s.intents + t.intents + Links(s.selectors, t.selectors, FlowLinkType), []), after)
    case Extinguish(target) =>
      var (t, after) := CompileOperand(cfg, target, false, planned);
      if t.errors != [] then (t, after) else (Compiled(t.selectors, Extinguishes(t.selectors), []), after)
    case Entity(name) =>
      var selector := ByName(Strip(name));
      if Strip(name) == "" then (Compiled([], [], [EmptyEntityName]), planned)
      else if selector in planned then (Compiled([selector], [], []), planned)
      else (Compiled([selector], [UpsertNode(selector, map[])], []), planned + {selector})
    case _ => CompileOperand(cfg, node, true, planned)
  }

  function CompileOperand(cfg: Config, node: Ast, create: bool, planned: Planned): (Compiled, Planned)
    decreases Size(node), 1
  {
    match node
    case Entity(name) =>
      var (r, after) := ResolveEntity(cfg, name, create, planned);
      (Compiled([r.selector], r.intents, r.errors), after)
    case Group(items) =>
      var (operands, after) := CompileAll(cfg, items, create, planned);
      (Compiled(AllSelectors(operands), AllIntents(operands), AllErrors(operands)), after)
    case RelationLink(_, _) =>
      var (operands, after) := CompileAll(cfg, Flatten(RelationLinkType, node), create, planned);
      (Chained(operands, RelationLinkType), after)
    case TypeLink(_, _) =>
      var (operands, after) := CompileAll(cfg, Flatten(TypeLinkType, node), create, planned);
      (Chained(operands, TypeLinkType), after)
    case Reference(_, _) => (Compiled([], [], [UnsupportedReference]), planned)
    case Literal(_) => (Compiled([], [], [UnsupportedLiteral]), planned)
    case _ => CompileStatement(cfg, node, planned)
  }

  function CompileAll(cfg: Config, nodes: seq<Ast>, create: bool, planned: Planned): (r: (seq<Compiled>, Planned))
    ensures |r.0| == |nodes|
    decreases SizeAll(nodes), 3, |nodes|
  {
    if nodes == [] then ([], planned) else
      var last := |nodes| - 1;
      SizeAllAppend(nodes[..last], [nodes[last]]);
      assert nodes == nodes[..last] + [nodes[last]];
      assert SizeAll([nodes[last]]) == Size(nodes[last]);
      var (before, mid) := CompileAll(cfg, nodes[..last], create, planned);
      var (c, after) := CompileOperand(cfg, nodes[last], create, mid);
      (before + [c], after)
  }

  datatype Plan = Envelope(intents: seq<Intent>) | Issues(errors: seq<IssueCode>)

  function PlanAst(cfg: Config, ast: Ast): Plan {
    var c := CompileStatement(cfg, ast, {}).0;
    if c.errors != [] then Issues(c.errors) else Envelope(c.intents)
  }

  // ---------- The planner object ----------

  class Service {
    const cfg: Config
    var plannedUpserts: Planned

    constructor (cfg: Config)
      ensures this.cfg == cfg && plannedUpserts == {}
    {
      this.cfg := cfg;
      plannedUpserts := {};
    }

    method Resolve(name: string, create: bool) returns (r: Resolved)
      modifies this
      ensures (r, plannedUpserts) == ResolveEntity(cfg, name, create, old(plannedUpserts))
    {
      hide Strip;
      var normalized := Strip(name);
      if normalized == "" {
        return Resolved(ByName(""), [], [EmptyEntityName]);
      }
      if cfg.resolver.Resolver? {
        var resolved := cfg.resolver.resolve(normalized);
        if resolved.Some? {
          return Resolved(resolved.value, [], []);
        }
        var issue := cfg.resolver.issue(normalized);
        if issue == Some(AmbiguousName) {
          return Resolved(ByName(normalized), [], [AmbiguousName]);
        }
        if issue == Some(NotFound) && !create {
          return Resolved(ByName(normalized), [], [NotFound]);
        }
      }
      var uuid := cfg.uuid(normalized);
      if uuid.Some? {
        return Resolved(ById(uuid.value), [], []);
      }
      var selector := ByName(normalized);
      if !create || selector in plannedUpserts {
        return Resolved(selector, [], []);
      }
      plannedUpserts := plannedUpserts + {selector};
      return Resolved(selector, [UpsertNode(selector, map[])], []);
    }

    method CompileStatementNode(node: Ast) returns (c: Compiled)
      modifies this
      ensures (c, plannedUpserts) == CompileStatement(cfg, node, old(plannedUpserts))
      decreases Size(node), if IsStatementNode(node) then 0 else 2
    {
      hide CompileOperand, ResolveEntity, Strip, AssignValue;
      match node
      case Assignment(entity, field, content) =>
        var r := Resolve(entity, true);
        if r.errors != [] {
          return Compiled([], r.intents, r.errors);
        }
        var value := AssignValue(content);
        if value.None? {
          return Compiled([], r.intents, [InvalidAssignValue]);
        }
        return Compiled([r.selector], r.intents + [AssignAttribute(r.selector, field, value.value)], []);
      case Flow(source, target) =>
        var s := CompileOperandNode(source, true);
        if s.errors != [] { return s; }
        var t := CompileOperandNode(target, true);
        if t.errors != [] { return t; }
        var links := LinkPairs(s.selectors, t.selectors, FlowLinkType);
        return Compiled(t.selectors, s.intents + t.intents + links, []);
      case Extinguish(target) =>
        var t := CompileOperandNode(target, false);
        if t.errors != [] { return t; }
        return Compiled(t.selectors, Extinguishes(t.selectors), []);
      case Entity(name) =>
        if Strip(name) == "" {
          return Compiled([], [], [EmptyEntityName]);
        }
        var selector := ByName(Strip(name));
        if selector in plannedUpserts {
          return Compiled([selector], [], []);
        }
        plannedUpserts := plannedUpserts + {selector};
        return Compiled([selector], [UpsertNode(selector, map[])], []);
      case _ =>
        c := CompileOperandNode(node, true);
    }

    method CompileOperandNode(node: Ast, create: bool) returns (c: Compiled)
      modifies this
      ensures (c, plannedUpserts) == CompileOperand(cfg, node, create, old(plannedUpserts))
      decreases Size(node), 1
    {
      hide CompileStatement, ResolveEntity, CompileAll, Chained;
      match node
      case Entity(name) =>
        var r := Resolve(name, create);
        return Compiled([r.selector], r.intents, r.errors);
      case Group(items) =>
        var operands := CompileOperands(items, create);
        return Compiled(AllSelectors(operands), AllIntents(operands), AllErrors(operands));
      case RelationLink(_, _) =>
        var operands := CompileOperands(Flatten(RelationLinkType, node), create);
        c := CompileChain(operands, RelationLinkType);
      case TypeLink(_, _) =>
        var operands := CompileOperands(Flatten(TypeLinkType, node), create);
        c := CompileChain(operands, TypeLinkType);
      case Reference(_, _) =>
        return Compiled([], [], [UnsupportedReference]);
      case Literal(_) =>
        return Compiled([], [], [UnsupportedLiteral]);
      case _ =>
        c := CompileStatementNode(node);
    }

    method CompileOperands(nodes: seq<Ast>, create: bool) returns (operands: seq<Compiled>)
      modifies this
      ensures (operands, plannedUpserts) == CompileAll(cfg, nodes, create, old(plannedUpserts))
      ensures |operands| == |nodes|
      decreases SizeAll(nodes), 3
    {
      hide CompileOperand;
      operands := [];
      for i := 0 to |nodes|
        invariant (operands, plannedUpserts) == CompileAll(cfg, nodes[..i], create, old(plannedUpserts))
      {
        assert nodes[..i + 1][..i] == nodes[..i];
        PrefixSize(nodes, i);
        var c := CompileOperandNode(nodes[i], create);
        operands := operands + [c];
      }
      assert nodes[..|nodes|] == nodes;
    }

    method CompileChain(operands: seq<Compiled>, linkType: LinkType) returns (c: Compiled)
      requires operands != []
      ensures c == Chained(operands, linkType)
    {
      hide Links, AllErrors;
      var intents: seq<Intent> := [];
      var errors: seq<IssueCode> := AllErrors(operands);
      for i := 0 to |operands|
        invariant intents == AllIntents(operands[..i])
      {
        assert operands[..i + 1][..i] == operands[..i];
        intents := intents + operands[i].intents;
      }
      assert operands[..|operands|] == operands;
      if errors != [] {
        return Compiled([], intents, errors);
      }
      ghost var upserts := intents;
      for i := 0 to |operands| - 1
        invariant intents == upserts + ChainLinks(operands[..i + 1], linkType)
      {
        assert operands[..i + 2][..i + 1] == operands[..i + 1];
        var links := LinkPairs(operands[i].selectors, operands[i + 1].selectors, linkType);
        ghost var before := ChainLinks(operands[..i + 1], linkType);
        assert upserts + (before + links) == (upserts + before) + links;
        intents := intents + links;
      }
      return Compiled(if linkType == RelationLinkType then operands[|operands| - 1].selectors else operands[0].selectors, intents, []);
    }

    method LinkPairs(sources: seq<Selector>, targets: seq<Selector>, linkType: LinkType) returns (links: seq<Intent>)
      ensures links == Links(sources, targets, linkType)
    {
      links := [];
      for i := 0 to |sources|
        invariant links == Links(sources[..i], targets, linkType)
      {
        assert sources[..i + 1][..i] == sources[..i];
        ghost var before := links;
        for j := 0 to |targets|
          invariant links == before + LinksFrom(sources[i], targets, linkType)[..j]
        {
          var link := if linkType == FlowLinkType then FlowLink(sources[i], targets[j])
                      else CreateLink(sources[i], targets[j], linkType, map[]);
          links := links + [link];
        }
      }
      assert sources[..|sources|] == sources;
    }

    method PlanTree(ast: Ast) returns (plan: Plan)
      modifies this
      ensures plan == PlanAst(cfg, ast)
    {
      hide CompileStatement;
      plannedUpserts := {};
      var c := CompileStatementNode(ast);
      return if c.errors != [] then Issues(c.errors) else Envelope(c.intents);
    }
  }

  lemma {:induction false} PrefixSize(nodes: seq<Ast>, i: nat)
    requires i < |nodes|
    ensures Size(nodes[i]) <= SizeAll(nodes)
  {
    assert nodes == nodes[..i] + (nodes[i..i + 1] + nodes[i + 1..]);
    SizeAllAppend(nodes[..i], nodes[i..i + 1] + nodes[i + 1..]);
    SizeAllAppend(nodes[i..i + 1], nodes[i + 1..]);
    assert nodes[i..i + 1] == [nodes[i]];
  }
}
