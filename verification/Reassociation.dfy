/** Planning sees a chain as the list of its operands: how `+` or `:` was associated cannot matter. */
module Reassociation {
  import opened Values
  import opened Parser
  import opened Intents
  import opened Planner

  /** Equal trees, except that chains of one operator may be associated differently, at any depth. */
  predicate SamePlan(a: Ast, b: Ast)
    decreases Size(a), 0
  {
    match a
    case RelationLink(_, _) => b.RelationLink? && SameAll(Flatten(RelationLinkType, a), Flatten(RelationLinkType, b))
    case TypeLink(_, _) => b.TypeLink? && SameAll(Flatten(TypeLinkType, a), Flatten(TypeLinkType, b))
    case Group(items) => b.Group? && SameAll(items, b.items)
    case Flow(l, r) => b.Flow? && SamePlan(l, b.source) && SamePlan(r, b.target)
    case Extinguish(t) => b.Extinguish? && SamePlan(t, b.target)
    case _ => a == b
  }

  predicate SameAll(xs: seq<Ast>, ys: seq<Ast>)
    decreases SizeAll(xs), 1, |xs|
  {
    |xs| == |ys| &&
    (xs == [] ||
     var last := |xs| - 1;
     SnocSize(xs);
     SameAll(xs[..last], ys[..last]) && SamePlan(xs[last], ys[last]))
  }

  lemma {:induction false} SnocSize(nodes: seq<Ast>)
    requires nodes != []
    ensures SizeAll(nodes) == SizeAll(nodes[..|nodes| - 1]) + Size(nodes[|nodes| - 1])
  {
    var last := nodes[|nodes| - 1];
    SizeAllAppend(nodes[..|nodes| - 1], [last]);
    assert nodes == nodes[..|nodes| - 1] + [last];
    assert SizeAll([last]) == Size(last) + SizeAll([]);
  }

  lemma {:induction false} SamePlanReflexive(a: Ast)
    ensures SamePlan(a, a)
    decreases Size(a), 0
  {
    hide SameAll;
    match a
    case RelationLink(_, _) => SameAllReflexive(Flatten(RelationLinkType, a));
    case TypeLink(_, _) => SameAllReflexive(Flatten(TypeLinkType, a));
    case Group(items) => SameAllReflexive(items);
    case Flow(l, r) =>
      SamePlanReflexive(l);
      SamePlanReflexive(r);
    case Extinguish(t) => SamePlanReflexive(t);
    case _ =>
  }

  lemma {:induction false} SameAllReflexive(xs: seq<Ast>)
    ensures SameAll(xs, xs)
    decreases SizeAll(xs), 1, |xs|
  {
    hide SamePlan;
    if xs != [] {
      SnocSize(xs);
      SameAllReflexive(xs[..|xs| - 1]);
      SamePlanReflexive(xs[|xs| - 1]);
    }
  }

  /** Moving the parentheses of a three-operand chain is an instance, for either operator. */
  lemma {:induction false} RotationIsSamePlan(a: Ast, b: Ast, c: Ast)
    ensures SamePlan(RelationLink(RelationLink(a, b), c), RelationLink(a, RelationLink(b, c)))
    ensures SamePlan(TypeLink(TypeLink(a, b), c), TypeLink(a, TypeLink(b, c)))
  {
    hide SameAll;
    var r, t := RelationLinkType, TypeLinkType;
    FlattenRotates(a, b, c);
    SameAllReflexive(Flatten(r, RelationLink(RelationLink(a, b), c)));
    SameAllReflexive(Flatten(t, TypeLink(TypeLink(a, b), c)));
  }

  lemma {:induction false} FlattenRotates(a: Ast, b: Ast, c: Ast)
    ensures Flatten(RelationLinkType, RelationLink(RelationLink(a, b), c)) ==
            Flatten(RelationLinkType, RelationLink(a, RelationLink(b, c)))
    ensures Flatten(TypeLinkType, TypeLink(TypeLink(a, b), c)) ==
            Flatten(TypeLinkType, TypeLink(a, TypeLink(b, c)))
  {
    FlattenChain(RelationLinkType, RelationLink(a, b), c);
    FlattenChain(RelationLinkType, a, RelationLink(b, c));
    FlattenChain(RelationLinkType, a, b);
    FlattenChain(RelationLinkType, b, c);
    FlattenChain(TypeLinkType, TypeLink(a, b), c);
    FlattenChain(TypeLinkType, a, TypeLink(b, c));
    FlattenChain(TypeLinkType, a, b);
    FlattenChain(TypeLinkType, b, c);
    hide Flatten;
    SeqAssociative(Flatten(RelationLinkType, a), Flatten(RelationLinkType, b), Flatten(RelationLinkType, c));
    SeqAssociative(Flatten(TypeLinkType, a), Flatten(TypeLinkType, b), Flatten(TypeLinkType, c));
  }

  lemma SeqAssociative(x: seq<Ast>, y: seq<Ast>, z: seq<Ast>)
    ensures (x + y) + z == x + (y + z)
  {
  }

  lemma {:induction false} FlattenChain(linkType: LinkType, l: Ast, r: Ast)
    ensures linkType == RelationLinkType ==>
              Flatten(linkType, RelationLink(l, r)) == Flatten(linkType, l) + Flatten(linkType, r)
    ensures linkType == TypeLinkType ==>
              Flatten(linkType, TypeLink(l, r)) == Flatten(linkType, l) + Flatten(linkType, r)
  {
  }

  lemma {:induction false} OperandUnchanged(cfg: Config, a: Ast, b: Ast, create: bool, planned: Planned)
    requires SamePlan(a, b)
    ensures CompileOperand(cfg, a, create, planned) == CompileOperand(cfg, b, create, planned)
    decreases Size(a), 1
  {
    hide SameAll, CompileAll, CompileStatement, Flatten, ResolveEntity;
    match a
    case RelationLink(_, _) =>
      AllUnchanged(cfg, Flatten(RelationLinkType, a), Flatten(RelationLinkType, b), create, planned);
    case TypeLink(_, _) =>
      AllUnchanged(cfg, Flatten(TypeLinkType, a), Flatten(TypeLinkType, b), create, planned);
    case Group(items) =>
      AllUnchanged(cfg, items, b.items, create, planned);
    case Flow(_, _) =>
      StatementUnchanged(cfg, a, b, planned);
    case Extinguish(_) =>
      StatementUnchanged(cfg, a, b, planned);
    case _ =>
  }

  lemma {:induction false} AllUnchanged(cfg: Config, xs: seq<Ast>, ys: seq<Ast>, create: bool, planned: Planned)
    requires SameAll(xs, ys)
    ensures CompileAll(cfg, xs, create, planned) == CompileAll(cfg, ys, create, planned)
    decreases SizeAll(xs), 3, |xs|
  {
    hide SamePlan, CompileOperand;
    if xs != [] {
      var last := |xs| - 1;
      SnocSize(xs);
      AllUnchanged(cfg, xs[..last], ys[..last], create, planned);
      OperandUnchanged(cfg, xs[last], ys[last], create, CompileAll(cfg, xs[..last], create, planned).1);
    }
  }

  lemma {:induction false} StatementUnchanged(cfg: Config, a: Ast, b: Ast, planned: Planned)
    requires SamePlan(a, b)
    ensures CompileStatement(cfg, a, planned) == CompileStatement(cfg, b, planned)
    decreases Size(a), if IsStatementNode(a) then 0 else 2
  {
    hide SameAll, CompileOperand, Flatten, ResolveEntity, Links, Extinguishes;
    match a
    case Flow(l, r) =>
      OperandUnchanged(cfg, l, b.source, true, planned);
      OperandUnchanged(cfg, r, b.target, true, CompileOperand(cfg, l, true, planned).1);
    case Extinguish(t) =>
      OperandUnchanged(cfg, t, b.target, false, planned);
    case RelationLink(_, _) =>
      OperandUnchanged(cfg, a, b, true, planned);
    case TypeLink(_, _) =>
      OperandUnchanged(cfg, a, b, true, planned);
    case Group(_) =>
      OperandUnchanged(cfg, a, b, true, planned);
    case _ =>
  }

  /** Statements that differ only in the association of their chains have the same plan. */
  lemma {:induction false} PlanningIgnoresAssociation(cfg: Config, a: Ast, b: Ast)
    requires SamePlan(a, b)
    ensures PlanAst(cfg, a) == PlanAst(cfg, b)
  {
    StatementUnchanged(cfg, a, b, {});
  }

  // ---------- How many links, and which ----------

  /** The sum of |left| * |right| over adjacent operands. */
  function AdjacentPairs(operands: seq<Compiled>): nat {
    if |operands| < 2 then 0 else
      var n := |operands|;
      AdjacentPairs(operands[..n - 1]) + |operands[n - 2].selectors| * |operands[n - 1].selectors|
  }

  lemma {:induction false} ChainLinkCount(operands: seq<Compiled>, linkType: LinkType)
    ensures |ChainLinks(operands, linkType)| == AdjacentPairs(operands)
  {
    if |operands| >= 2 {
      ChainLinkCount(operands[..|operands| - 1], linkType);
    }
  }

  /** A chain adds exactly its links to what its operands contribute. */
  lemma {:induction false} ChainAddsItsLinks(operands: seq<Compiled>, linkType: LinkType)
    requires operands != [] && AllErrors(operands) == []
    ensures |Chained(operands, linkType).intents| == |AllIntents(operands)| + AdjacentPairs(operands)
    ensures AllIntents(operands) <= Chained(operands, linkType).intents
    ensures Chained(operands, linkType).selectors ==
            (if linkType == RelationLinkType then operands[|operands| - 1] else operands[0]).selectors
  {
    ChainLinkCount(operands, linkType);
  }

  predicate LinkBetween(intent: Intent, s: Selector, t: Selector, linkType: LinkType) {
    intent == if linkType == FlowLinkType then FlowLink(s, t) else CreateLink(s, t, linkType, map[])
  }

  /** The pairs come in row order: source `i` to target `j` is at position `i * |targets| + j`. */
  lemma {:induction false} LinkPosition(sources: seq<Selector>, targets: seq<Selector>, linkType: LinkType, i: nat, j: nat)
    requires i < |sources| && j < |targets|
    ensures i * |targets| + j < |Links(sources, targets, linkType)|
    ensures LinkBetween(Links(sources, targets, linkType)[i * |targets| + j], sources[i], targets[j], linkType)
    decreases |sources|
  {
    var last := |sources| - 1;
    var before := Links(sources[..last], targets, linkType);
    assert Links(sources, targets, linkType) == before + LinksFrom(sources[last], targets, linkType);
    if i < last {
      LinkPosition(sources[..last], targets, linkType, i, j);
      assert sources[..last][i] == sources[i];
    } else {
      assert |before| == last * |targets|;
    }
  }
}
