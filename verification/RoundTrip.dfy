/** Writing a syntax tree as text and parsing that text gives the tree back. */
module RoundTrip {
  import opened Values
  import opened Lexer
  import opened Parser
  import opened Syntax

  /** The tokens from `i` on read as `ls`, with at least one more token behind them. */
  ghost predicate Here(ts: Tokens, i: nat, ls: seq<Lexeme>) {
    i + |ls| < |ts| && forall j :: i <= j < i + |ls| ==> ts[j].lexeme == ls[j - i]
  }

  lemma {:induction false} HereLeavesOne(ts: Tokens, i: nat, ls: seq<Lexeme>)
    requires Here(ts, i, ls)
    ensures i + |ls| < |ts|
  {
  }

  lemma {:induction false} HereFirst(ts: Tokens, i: nat, l: Lexeme, rest: seq<Lexeme>)
    requires Here(ts, i, [l] + rest)
    ensures ts[i].lexeme == l && Here(ts, i + 1, rest) && i + 1 + |rest| < |ts|
  {
  }

  /** `a`, one operator and `b`. */
  lemma {:induction false} HereBinary(ts: Tokens, i: nat, a: seq<Lexeme>, l: Lexeme, b: seq<Lexeme>)
    requires Here(ts, i, a + [l] + b)
    ensures Here(ts, i, a) && ts[i + |a|].lexeme == l && Here(ts, i + |a| + 1, b) && i + |a| + 1 + |b| < |ts|
  {
  }

  /** A token that cannot extend the operand before it. */
  predicate EndsOperand(kind: TokenType) {
    !IsName(kind) && kind != Dot
  }

  // ---------- One production at a time ----------

  lemma {:induction false} UnaryStep(ts: Tokens, i: nat, j: nat, t: Ast)
    requires i + 1 < |ts| && Kind(ts, i) == Minus && ParseUnary(ts, i + 1) == Ok(t, j)
    ensures ParseUnary(ts, i) == Ok(Extinguish(t), j)
  {
  }

  lemma {:induction false} PrimaryIsUnary(ts: Tokens, i: nat)
    requires i < |ts| && Kind(ts, i) != Minus
    ensures ParseUnary(ts, i) == ParsePrimary(ts, i)
  {
  }

  lemma {:induction false} UnaryStartsType(ts: Tokens, i: nat, j: nat, n: Ast)
    requires i < |ts| && ParseUnary(ts, i) == Ok(n, j)
    ensures ParseType(ts, i) == TypeTail(ts, j, n)
  {
  }

  lemma {:induction false} TypeStep(ts: Tokens, i: nat, j: nat, n: Ast, r: Ast)
    requires i + 1 < |ts| && Kind(ts, i) == Colon && ParseUnary(ts, i + 1) == Ok(r, j)
    ensures TypeTail(ts, i, n) == TypeTail(ts, j, TypeLink(n, r))
  {
  }

  lemma {:induction false} TypeStops(ts: Tokens, i: nat, n: Ast)
    requires i < |ts| && Kind(ts, i) != Colon
    ensures TypeTail(ts, i, n) == Ok(n, i)
  {
  }

  lemma {:induction false} TypeStartsRelation(ts: Tokens, i: nat, j: nat, n: Ast)
    requires i < |ts| && ParseType(ts, i) == Ok(n, j)
    ensures ParseRelation(ts, i) == RelationTail(ts, j, n)
  {
  }

  lemma {:induction false} RelationStep(ts: Tokens, i: nat, j: nat, n: Ast, r: Ast)
    requires i + 1 < |ts| && Kind(ts, i) == Plus && ParseType(ts, i + 1) == Ok(r, j)
    ensures RelationTail(ts, i, n) == RelationTail(ts, j, RelationLink(n, r))
  {
  }

  lemma {:induction false} RelationStops(ts: Tokens, i: nat, n: Ast)
    requires i < |ts| && Kind(ts, i) != Plus
    ensures RelationTail(ts, i, n) == Ok(n, i)
  {
  }

  lemma {:induction false} ParenStep(ts: Tokens, i: nat, j: nat, n: Ast)
    requires i + 1 < |ts| && Kind(ts, i) == LParen && Kind(ts, i + 1) != RParen
    requires ParseRelation(ts, i + 1) == Ok(n, j) && Kind(ts, j) == RParen
    ensures ParsePrimary(ts, i) == Ok(n, j + 1)
  {
  }

  lemma {:induction false} GroupStep(ts: Tokens, i: nat, j: nat, first: Ast, k: nat, items: seq<Ast>)
    requires i + 1 < |ts| && Kind(ts, i) == LParen && Kind(ts, i + 1) != RParen
    requires ParseRelation(ts, i + 1) == Ok(first, j) && Kind(ts, j) == Comma
    requires GroupTail(ts, j + 1, [first]) == Ok(items, k) && Kind(ts, k) == RParen
    ensures ParsePrimary(ts, i) == Ok(Group(items), k + 1)
  {
  }

  lemma {:induction false} GroupTailStep(ts: Tokens, i: nat, j: nat, n: Ast, items: seq<Ast>)
    requires i < |ts| && ParseRelation(ts, i) == Ok(n, j) && j + 1 < |ts|
    ensures Kind(ts, j) == Comma ==> GroupTail(ts, i, items) == GroupTail(ts, j + 1, items + [n])
    ensures Kind(ts, j) != Comma ==> GroupTail(ts, i, items) == Ok(items + [n], j)
  {
  }

  /** The parser joins from the left, the surface form reads from the right. */
  lemma {:induction false} JoinedIsSpaced(ts: seq<Token>, words: seq<Lexeme>)
    requires |ts| == |words| && forall k :: 0 <= k < |ts| ==> ts[k].lexeme == words[k]
    ensures Joined(ts) == Spaced(words)
    decreases |ts|
  {
    if |ts| > 1 {
      var last := |ts| - 1;
      JoinedIsSpaced(ts[..last], words[..last]);
      SpacedAtEnd(words[..last], words[last]);
      assert words[..last] + [words[last]] == words;
    }
  }

  lemma {:induction false} SpacedAtEnd(words: seq<Lexeme>, w: Lexeme)
    requires words != []
    ensures Spaced(words + [w]) == Spaced(words) + " " + w.value
    decreases |words|
  {
    if |words| > 1 {
      SpacedAtEnd(words[1..], w);
      assert (words + [w])[1..] == words[1..] + [w];
    }
  }

  lemma {:induction false} NameEndsAt(ts: Tokens, i: nat, j: nat)
    requires i <= j < |ts| && !IsName(Kind(ts, j)) && forall k :: i <= k < j ==> IsName(Kind(ts, k))
    ensures NameEnd(ts, i) == j
    decreases j - i
  {
    if i < j { NameEndsAt(ts, i + 1, j); }
  }

  lemma {:induction false} WordsHere(ts: Tokens, i: nat, words: Words)
    requires Here(ts, i, words) && !IsName(Kind(ts, i + |words|))
    ensures NameEnd(ts, i) == i + |words| && Strip(Joined(ts[i..i + |words|])) == Spoken(words)
    ensures IsName(Kind(ts, i))
  {
    hide Strip, Joined, Spaced;
    var j := i + |words|;
    assert forall k :: i <= k < j ==> IsWord(words[k - i]) && ts[k].lexeme == words[k - i];
    NameEndsAt(ts, i, j);
    JoinedIsSpaced(ts[i..j], words);
  }

  lemma {:induction false} ReadName(ts: Tokens, i: nat, words: Words)
    requires Spoken(words) != "" && Here(ts, i, words) && EndsOperand(Kind(ts, i + |words|))
    ensures ParsePrimary(ts, i) == Ok(Entity(Spoken(words)), i + |words|)
  {
    hide Strip, Joined, Spoken, NameEnd;
    WordsHere(ts, i, words);
  }

  lemma {:induction false} ReadRef(ts: Tokens, i: nat, words: Words, field: Word)
    requires Spoken(words) != "" && Here(ts, i, words + [Mark(Dot)] + [field])
    ensures ParsePrimary(ts, i) == Ok(Reference(Spoken(words), field.value), i + |words| + 2)
  {
    hide Strip, Joined, Spoken, NameEnd;
    HereBinary(ts, i, words, Mark(Dot), [field]);
    WordsHere(ts, i, words);
    assert ts[i + |words| + 1].lexeme == field;
  }

  // ---------- Shapes of what is written ----------

  lemma {:induction false} FirstKind(e: Expr)
    ensures Written(e)[0].kind in {TokenType.String, TokenType.Atom, LParen, Minus}
    ensures Written(e)[0].kind == TokenType.Atom && |Written(e)| == 1 ==> ReadsAsLiteral(e)
    ensures !e.Negated? && !e.TypeExpr? && !e.RelationExpr? ==> Written(e)[0].kind != Minus
    ensures StartsQuoted(e) <==> Written(e)[0].kind == TokenType.String
    decreases e
  {
    match e
    case TypeExpr(l, _) => FirstKind(l);
    case RelationExpr(l, _) => FirstKind(l);
    case _ =>
  }

  lemma {:induction false} TupleShape(items: seq<Expr>)
    requires |items| >= 2
    ensures Written(Tuple(items)) == [Mark(LParen)] + (Written(items[0]) + [Mark(Comma)] + (WrittenItems(items[1..]) + [Mark(RParen)]))
    ensures Tree(Tuple(items)) == Group([Tree(items[0])] + Trees(items[1..]))
  {
    hide Tree;
    assert WrittenItems(items) == Written(items[0]) + [Mark(Comma)] + WrittenItems(items[1..]);
    assert Tree(Tuple(items)) == Group(Trees(items)) by { TreeOfTuple(items); }
    hide Written, WrittenItems;
    assert [Mark(LParen)] + (Written(items[0]) + [Mark(Comma)] + WrittenItems(items[1..])) + [Mark(RParen)] ==
           [Mark(LParen)] + (Written(items[0]) + [Mark(Comma)] + (WrittenItems(items[1..]) + [Mark(RParen)]));
  }

  lemma {:induction false} TreeOfTuple(items: seq<Expr>)
    ensures Tree(Tuple(items)) == Group(Trees(items))
  {
  }

  // ---------- Operands ----------

  lemma {:induction false} ReadPrimary(ts: Tokens, i: nat, e: Expr)
    requires Fits(e, 3) && Here(ts, i, Written(e)) && EndsOperand(Kind(ts, i + |Written(e)|))
    ensures ParsePrimary(ts, i) == Ok(Tree(e), i + |Written(e)|)
    decreases e, 0
  {
    hide Spoken, ParsePrimary, ParseRelation, GroupTail, Here;
    match e
    case Name(words) =>
      ReadName(ts, i, words);
    case Ref(words, field) =>
      ReadRef(ts, i, words, field);
    case Paren(inner) =>
      ReadParen(ts, i, inner);
    case Tuple(items) =>
      ReadTuple(ts, i, items);
    case _ =>
  }

  lemma {:induction false} ReadParen(ts: Tokens, i: nat, inner: Expr)
    requires Fits(inner, 0) && Here(ts, i, [Mark(LParen)] + Written(inner) + [Mark(RParen)])
    ensures ParsePrimary(ts, i) == Ok(Tree(inner), i + |Written(inner)| + 2)
    decreases inner, 5
  {
    hide Written, Fits, Tree, ParsePrimary, ParseRelation, Here;
    var w := Written(inner);
    HereBinary(ts, i, [Mark(LParen)] + w, Mark(RParen), []) by {
      assert [Mark(LParen)] + w + [Mark(RParen)] + [] == [Mark(LParen)] + w + [Mark(RParen)];
    }
    HereFirst(ts, i, Mark(LParen), w);
    ReadBefore(ts, i + 1, inner);
    ParenStep(ts, i, i + 1 + |w|, Tree(inner));
  }

  lemma {:induction false} ReadTuple(ts: Tokens, i: nat, items: seq<Expr>)
    requires |items| >= 2 && (forall x :: x in items ==> Fits(x, 0)) && Here(ts, i, Written(Tuple(items)))
    ensures ParsePrimary(ts, i) == Ok(Tree(Tuple(items)), i + |Written(Tuple(items))|)
    decreases items, 6
  {
    hide Written, WrittenItems, Fits, Tree, Trees, ParsePrimary, ParseRelation, GroupTail, Here;
    TupleShape(items);
    var w, tail := Written(items[0]), WrittenItems(items[1..]);
    assert items[0] in items && forall x :: x in items[1..] ==> x in items;
    HereFirst(ts, i, Mark(LParen), w + [Mark(Comma)] + (tail + [Mark(RParen)]));
    HereBinary(ts, i + 1, w, Mark(Comma), tail + [Mark(RParen)]);
    var k := i + 1 + |w| + 1;
    assert tail + [Mark(RParen)] == tail + [Mark(RParen)] + [];
    HereBinary(ts, k, tail, Mark(RParen), []);
    ReadBefore(ts, i + 1, items[0]);
    ReadTail(ts, k, items[1..], [Tree(items[0])]);
    GroupStep(ts, i, i + 1 + |w|, Tree(items[0]), k + |tail|, [Tree(items[0])] + Trees(items[1..]));
  }

  /** A whole expression in front of a comma, a closing parenthesis, an arrow, an assignment or the end. */
  lemma {:induction false} ReadBefore(ts: Tokens, i: nat, e: Expr)
    requires Fits(e, 0) && Here(ts, i, Written(e))
    requires Kind(ts, i + |Written(e)|) in {Comma, RParen, Arrow, TokenType.Assign, Eof}
    ensures ParseRelation(ts, i) == Ok(Tree(e), i + |Written(e)|)
    ensures Kind(ts, i) != RParen
    decreases e, 4
  {
    hide Fits, Tree, ParseRelation, RelationTail, Written, StartsQuoted;
    ReadRelation(ts, i, e);
    FirstKind(e);
    RelationStops(ts, i + |Written(e)|, Tree(e));
  }

  lemma {:induction false} ItemsShape(es: seq<Expr>)
    requires es != []
    ensures |es| == 1 ==> WrittenItems(es) == Written(es[0]) && Trees(es) == [Tree(es[0])]
    ensures |es| > 1 ==> WrittenItems(es) == Written(es[0]) + [Mark(Comma)] + WrittenItems(es[1..])
    ensures Trees(es) == [Tree(es[0])] + Trees(es[1..])
  {
    hide Written, Tree;
  }

  lemma {:induction false} ReadTail(ts: Tokens, i: nat, es: seq<Expr>, items: seq<Ast>)
    requires es != [] && (forall x :: x in es ==> Fits(x, 0)) && Here(ts, i, WrittenItems(es))
    requires Kind(ts, i + |WrittenItems(es)|) == RParen
    ensures GroupTail(ts, i, items) == Ok(items + Trees(es), i + |WrittenItems(es)|)
    decreases es, 5
  {
    hide ParseRelation, GroupTail, Fits, Tree, Written, Here, WrittenItems, Trees;
    ItemsShape(es);
    assert es[0] in es;
    var w := Written(es[0]);
    if |es| == 1 {
      ReadBefore(ts, i, es[0]);
      GroupTailStep(ts, i, i + |w|, Tree(es[0]), items);
    } else {
      var tail := WrittenItems(es[1..]);
      HereBinary(ts, i, w, Mark(Comma), tail);
      ReadBefore(ts, i, es[0]);
      GroupTailStep(ts, i, i + |w|, Tree(es[0]), items);
      assert forall x :: x in es[1..] ==> x in es;
      ReadTail(ts, i + |w| + 1, es[1..], items + [Tree(es[0])]);
      assert (items + [Tree(es[0])]) + Trees(es[1..]) == items + ([Tree(es[0])] + Trees(es[1..]));
    }
  }

  // ---------- Operators ----------

  lemma {:induction false} ReadUnary(ts: Tokens, i: nat, e: Expr)
    requires Fits(e, 2) && Here(ts, i, Written(e)) && EndsOperand(Kind(ts, i + |Written(e)|))
    ensures ParseUnary(ts, i) == Ok(Tree(e), i + |Written(e)|)
    decreases e, 1
  {
    hide Spoken, ParsePrimary, ParseUnary, EndsOperand;
    if e.Negated? {
      HereFirst(ts, i, Mark(Minus), Written(e.target));
      ReadUnary(ts, i + 1, e.target);
      UnaryStep(ts, i, i + |Written(e)|, Tree(e.target));
    } else {
      FirstKind(e);
      ReadPrimary(ts, i, e) by { FitsHigher(e, 2); }
      hide Fits, Tree, Written;
      PrimaryIsUnary(ts, i);
    }
  }

  /** An expression without an operator on top fits every position. */
  lemma {:induction false} FitsHigher(e: Expr, level: Level)
    requires Fits(e, level) && !e.TypeExpr? && !e.RelationExpr?
    ensures Fits(e, 2)
    ensures !e.Negated? ==> Fits(e, 3)
  {
    hide Spoken;
  }

  lemma {:induction false} ReadType(ts: Tokens, i: nat, e: Expr)
    requires Fits(e, 1) && Here(ts, i, Written(e)) && EndsOperand(Kind(ts, i + |Written(e)|))
    ensures ParseType(ts, i) == TypeTail(ts, i + |Written(e)|, Tree(e))
    decreases e, 2
  {
    hide Fits, Tree, Written, ParseUnary, ParseType, TypeTail, Here;
    FitsNoRelation(e);
    if e.TypeExpr? {
      var l, r := e.left, e.right;
      TypeShape(l, r);
      HereBinary(ts, i, Written(l), Mark(Colon), Written(r));
      ReadType(ts, i, l);
      ReadUnary(ts, i + |Written(l)| + 1, r);
      TypeStep(ts, i + |Written(l)|, i + |Written(e)|, Tree(l), Tree(r));
    } else {
      FitsHigher(e, 1);
      ReadUnary(ts, i, e);
      UnaryStartsType(ts, i, i + |Written(e)|, Tree(e));
    }
  }

  lemma {:induction false} ReadRelation(ts: Tokens, i: nat, e: Expr)
    requires Fits(e, 0) && Here(ts, i, Written(e))
    requires EndsOperand(Kind(ts, i + |Written(e)|)) && Kind(ts, i + |Written(e)|) != Colon
    ensures ParseRelation(ts, i) == RelationTail(ts, i + |Written(e)|, Tree(e))
    decreases e, 3
  {
    hide Fits, Tree, Written, ParseType, TypeTail, ParseRelation, RelationTail, Here;
    HereLeavesOne(ts, i, Written(e));
    if e.RelationExpr? {
      var l, r := e.left, e.right;
      RelationShape(l, r);
      HereBinary(ts, i, Written(l), Mark(Plus), Written(r));
      ReadRelation(ts, i, l);
      ReadType(ts, i + |Written(l)| + 1, r);
      TypeStops(ts, i + |Written(e)|, Tree(r));
      RelationStep(ts, i + |Written(l)|, i + |Written(e)|, Tree(l), Tree(r));
    } else {
      FitsAtType(e);
      ReadType(ts, i, e);
      TypeStops(ts, i + |Written(e)|, Tree(e));
      TypeStartsRelation(ts, i, i + |Written(e)|, Tree(e));
    }
  }

  lemma {:induction false} RelationShape(l: Expr, r: Expr)
    ensures Tree(RelationExpr(l, r)) == RelationLink(Tree(l), Tree(r))
    ensures Written(RelationExpr(l, r)) == Written(l) + [Mark(Plus)] + Written(r)
    ensures Fits(RelationExpr(l, r), 0) ==> Fits(l, 0) && Fits(r, 1)
  {
  }

  lemma {:induction false} TypeShape(l: Expr, r: Expr)
    ensures Tree(TypeExpr(l, r)) == TypeLink(Tree(l), Tree(r))
    ensures Written(TypeExpr(l, r)) == Written(l) + [Mark(Colon)] + Written(r)
    ensures Fits(TypeExpr(l, r), 1) ==> Fits(l, 1) && Fits(r, 2)
  {
  }

  lemma {:induction false} FitsNoRelation(e: Expr)
    ensures Fits(e, 1) ==> !e.RelationExpr?
  {
  }

  lemma {:induction false} FitsAtType(e: Expr)
    requires Fits(e, 0) && !e.RelationExpr?
    ensures Fits(e, 1)
  {
    hide Spoken;
  }

  // ---------- Statements ----------

  lemma {:induction false} AssignStep(ts: Tokens, target: Ast, j: nat, value: Ast, k: nat)
    requires ParseRelation(ts, 0) == Ok(target, j) && target.Reference? && Kind(ts, j) == TokenType.Assign
    requires ParseAssignedValue(ts, j + 1) == Ok(value, k) && Kind(ts, k) == Eof
    ensures ParseTokens(ts) == Ok(Assignment(target.entity, target.field, value), k + 1)
  {
    hide ParseRelation, ParseAssignedValue;
  }

  lemma {:induction false} FlowStep(ts: Tokens, source: Ast, j: nat, target: Ast, k: nat)
    requires ParseRelation(ts, 0) == Ok(source, j) && Kind(ts, j) == Arrow
    requires ParseRelation(ts, j + 1) == Ok(target, k) && Kind(ts, k) == Eof
    ensures ParseTokens(ts) == Ok(Flow(source, target), k + 1)
  {
    hide ParseRelation;
  }

  lemma {:induction false} PlainStep(ts: Tokens, node: Ast, j: nat)
    requires ParseRelation(ts, 0) == Ok(node, j) && Kind(ts, j) == Eof
    ensures ParseTokens(ts) == Ok(node, j + 1)
  {
    hide ParseRelation;
  }

  lemma {:induction false} ReadStatement(ts: Tokens, s: Statement)
    requires FitsStatement(s) && Here(ts, 0, WrittenStatement(s)) && |ts| == |WrittenStatement(s)| + 1
    ensures ParseTokens(ts) == Ok(StatementTree(s), |ts|)
  {
    hide Fits, Tree, Written, ParseRelation, ParseAssignedValue, ReadsAsLiteral, ParseTokens, Here;
    var end := |ts| - 1;
    match s
    case Plain(e) =>
      ReadBefore(ts, 0, e);
      PlainStep(ts, Tree(e), end);
    case Arrows(l, r) =>
      ReadPair(ts, l, Mark(Arrow), Written(r));
      ReadBefore(ts, |Written(l)| + 1, r);
      FlowStep(ts, Tree(l), |Written(l)|, Tree(r), end);
    case AssignsText(target, sign, text) =>
      ReadPair(ts, target, sign, [text]);
      ReadLiteral(ts, |Written(target)| + 1, text);
      AssignStep(ts, Tree(target), |Written(target)|, Literal(text.value), end);
    case AssignsExpr(target, sign, value) =>
      ReadPair(ts, target, sign, Written(value));
      ReadValue(ts, |Written(target)| + 1, value);
      AssignStep(ts, Tree(target), |Written(target)|, Tree(value), end);
  }

  /** What stands left of an arrow or an assignment sign. */
  lemma {:induction false} ReadPair(ts: Tokens, l: Expr, sign: Lexeme, rest: seq<Lexeme>)
    requires Fits(l, 0) && Here(ts, 0, Written(l) + [sign] + rest) && rest != [] && sign.kind in {Arrow, TokenType.Assign}
    ensures |Written(l)| + 1 + |rest| < |ts| && Kind(ts, |Written(l)|) == sign.kind
    ensures ParseRelation(ts, 0) == Ok(Tree(l), |Written(l)|)
    ensures Here(ts, |Written(l)| + 1, rest) && ts[|Written(l)| + 1].lexeme == rest[0]
  {
    hide Fits, Tree, Written, ParseRelation;
    HereBinary(ts, 0, Written(l), sign, rest);
    ReadBefore(ts, 0, l);
  }

  lemma {:induction false} ReadLiteral(ts: Tokens, i: nat, text: Word)
    requires i + 2 == |ts| && ts[i].lexeme == text
    ensures ParseAssignedValue(ts, i) == Ok(Literal(text.value), i + 1)
  {
  }

  lemma {:induction false} ReadValue(ts: Tokens, i: nat, value: Expr)
    requires Fits(value, 0) && !ReadsAsLiteral(value) && Here(ts, i, Written(value)) && i + |Written(value)| + 1 == |ts|
    ensures ParseAssignedValue(ts, i) == Ok(Tree(value), i + |Written(value)|)
  {
    hide Fits, Tree, Written, ParseRelation, StartsQuoted;
    FirstKind(value);
    ReadBefore(ts, i, value);
    assert ts[i].lexeme == Written(value)[0];
    if Kind(ts, i) == TokenType.Atom { LiteralNeedsEnd(ts, i, value); }
  }

  /** An atom in front of the end, a comma or a closing parenthesis is the whole expression. */
  lemma {:induction false} LiteralNeedsEnd(ts: Tokens, i: nat, value: Expr)
    requires !ReadsAsLiteral(value) && Here(ts, i, Written(value)) && Kind(ts, i) == TokenType.Atom
    requires i + |Written(value)| + 1 == |ts|
    ensures PeekNext(ts, i) !in {Eof, Comma, RParen}
  {
    FirstKind(value);
    SecondKind(value);
    hide Written, ReadsAsLiteral;
    assert ts[i].lexeme == Written(value)[0] && ts[i + 1].lexeme == Written(value)[1];
  }

  lemma {:induction false} SecondKind(e: Expr)
    requires Written(e)[0].kind == TokenType.Atom && |Written(e)| > 1
    ensures Written(e)[1].kind !in {Eof, Comma, RParen}
    decreases e
  {
    match e
    case TypeExpr(l, _) => FirstKind(l); if |Written(l)| > 1 { SecondKind(l); }
    case RelationExpr(l, _) => FirstKind(l); if |Written(l)| > 1 { SecondKind(l); }
    case _ =>
  }

  // ---------- Text ----------

  function Lexemes(ts: seq<Token>): (r: seq<Lexeme>)
    ensures |r| == |ts|
  {
    seq(|ts|, i requires 0 <= i < |ts| => ts[i].lexeme)
  }

  lemma {:induction false} LexGap(text: string, i: nat, gap: string)
    requires At(text, i, gap) && Blank(gap)
    ensures LexFrom(text, i) == LexFrom(text, i + |gap|)
    decreases |gap|
  {
    hide LexFrom;
    if gap != "" {
      AtHas(text, i, gap, 0);
      assert gap == [gap[0]] + gap[1..];
      AtSplit(text, i, [gap[0]], gap[1..]);
      LexUnfold(text, i);
      LexGap(text, i + 1, gap[1..]);
    }
  }

  /** What stands behind a lexeme lets the lexer stop there. */
  predicate Follows(text: string, l: Lexeme, k: nat) {
    match l.kind
    case Atom => k >= |text| || StopsAtom(text, k)
    case Minus => k < |text| ==> text[k] != '>'
    case Colon => k < |text| ==> text[k] != '='
    case _ => true
  }

  lemma {:induction false} LexString(text: string, i: nat, value: string)
    requires At(text, i, Spelling(Quoted(value)))
    ensures i < |text|
    ensures var end := i + |Spelling(Quoted(value))|;
            Dispatch(text, i) == Turn(Some(Token(Quoted(value), i, end)), None, end)
  {
    hide Escape, Unquote, Dispatch, At, Spelling;
    var inner := Escape(value, '"') + ['"'];
    QuotedSpelling(value);
    AtSplit(text, i, ['"'], inner);
    AtHas(text, i, ['"'], 0);
    UnquoteInvertsEscape(text, i + 1, value, '"');
    DispatchString(text, i, value, i + |Spelling(Quoted(value))|);
  }

  lemma {:induction false} QuotedSpelling(value: string)
    ensures Spelling(Quoted(value)) == ['"'] + (Escape(value, '"') + ['"'])
  {
    hide Escape;
  }

  lemma {:induction false} DispatchString(text: string, i: nat, value: string, end: nat)
    requires i < |text| && text[i] == '"' && Unquote(text, i + 1, '"') == Some((value, end))
    ensures Dispatch(text, i) == Turn(Some(Token(Quoted(value), i, end)), None, end)
  {
    hide Unquote, AtomEnd;
  }

  lemma {:induction false} LexMark(text: string, i: nat, l: Lexeme)
    requires l.kind !in {TokenType.Atom, TokenType.String, Eof} && Writable(l)
    requires At(text, i, l.value) && Follows(text, l, i + |l.value|)
    ensures i < |text|
    ensures var end := i + |l.value|;
            Dispatch(text, i) == Turn(Some(Token(l, i, end)), None, end)
  {
    AtHas(text, i, l.value, 0);
    AtHas(text, i, l.value, |l.value| - 1);
    hide AtomEnd, Unquote;
  }

  lemma {:induction false} AtomEndsAt(text: string, i: nat, k: nat)
    requires i <= k <= |text| && (k == |text| || StopsAtom(text, k)) && forall m :: i <= m < k ==> !StopsAtom(text, m)
    ensures AtomEnd(text, i) == k
    decreases k - i
  {
    hide StopsAtom;
    if i < k { AtomEndsAt(text, i + 1, k); }
  }

  lemma {:induction false} LexAtom(text: string, i: nat, v: string)
    requires IsAtomText(v) && At(text, i, v) && Follows(text, Lexeme(TokenType.Atom, v), i + |v|)
    ensures i < |text|
    ensures Dispatch(text, i) == Turn(Some(Token(Lexeme(TokenType.Atom, v), i, i + |v|)), None, i + |v|)
  {
    var k := i + |v|;
    forall m | i <= m < k ensures !StopsAtom(text, m) {
      AtHas(text, i, v, m - i);
      assert !StopsAtom(v, m - i);
      if m + 1 < k { AtHas(text, i, v, m + 1 - i); }
    }
    AtomEndsAt(text, i, k);
    AtHas(text, i, v, 0);
    AtomsAreMaximal(text, i);
    hide AtomEnd, Unquote, StopsAtom;
  }

  /** The first character of what follows a lexeme in a text that keeps lexemes apart. */
  lemma {:induction false} TextFollows(text: string, k: nat, l: Lexeme, ls: seq<Lexeme>, gaps: seq<string>)
    requires Gaps(gaps, |ls|) && (forall x :: x in ls ==> Writable(x))
    requires At(text, k, Text(ls, gaps)) && k + |Text(ls, gaps)| == |text|
    requires ls != [] && Clings(l, ls[0]) ==> gaps[0] != ""
    ensures Follows(text, l, k)
  {
    if gaps[0] != "" {
      assert Text(ls, gaps) != "" && Text(ls, gaps)[0] == gaps[0][0] && IsSpace(gaps[0][0]);
      AtHas(text, k, Text(ls, gaps), 0);
    } else if ls != [] {
      assert ls[0] in ls;
      assert Text(ls, gaps) == Spelling(ls[0]) + Text(ls[1..], gaps[1..]);
      AtSplit(text, k, Spelling(ls[0]), Text(ls[1..], gaps[1..]));
      hide Text, Gaps;
      LexemeFollows(text, k, l, ls[0]);
    }
  }

  lemma {:induction false} LexemeFollows(text: string, k: nat, l: Lexeme, next: Lexeme)
    requires Writable(next) && At(text, k, Spelling(next)) && !Clings(l, next)
    ensures Follows(text, l, k)
  {
    hide Escape;
    AtHas(text, k, Spelling(next), 0);
    if |Spelling(next)| > 1 { AtHas(text, k, Spelling(next), 1); }
    if next.kind == TokenType.Atom {
      assert !StopsAtom(next.value, 0);
      assert next.value[0] == '>' ==> StartsWith(next.value, ">");
    }
  }

  lemma {:induction false} LexText(text: string, i: nat, ls: seq<Lexeme>, gaps: seq<string>)
    requires Separated(ls, gaps) && (forall l :: l in ls ==> Writable(l))
    requires At(text, i, Text(ls, gaps)) && i + |Text(ls, gaps)| == |text|
    ensures LexFrom(text, i).errors == []
    ensures Lexemes(LexFrom(text, i).tokens) == ls + [Lexeme(Eof, "")]
    decreases |ls|
  {
    hide LexFrom, Dispatch, Spelling, Writable, At, Blank, Clings;
    if ls == [] {
      LexGap(text, i, gaps[0]);
      LexEnd(text);
    } else {
      var rest := Text(ls[1..], gaps[1..]);
      AtSplit(text, i, gaps[0], Spelling(ls[0]) + rest);
      LexGap(text, i, gaps[0]);
      var j := i + |gaps[0]|;
      AtSplit(text, j, Spelling(ls[0]), rest);
      var k := j + |Spelling(ls[0])|;
      assert forall l :: l in ls[1..] ==> l in ls;
      SeparatedRest(ls, gaps);
      TextFollows(text, k, ls[0], ls[1..], gaps[1..]);
      assert ls[0] in ls;
      LexOne(text, j, ls[0]);
      LexUnfold(text, j);
      LexText(text, k, ls[1..], gaps[1..]);
      LexemesCons(Token(ls[0], j, k), LexFrom(text, k).tokens, ls);
    }
  }

  lemma {:induction false} SeparatedRest(ls: seq<Lexeme>, gaps: seq<string>)
    requires ls != [] && Separated(ls, gaps)
    ensures Separated(ls[1..], gaps[1..])
    ensures |ls| > 1 && Clings(ls[0], ls[1]) ==> gaps[1] != ""
  {
    hide Clings, Blank;
    forall k | 0 < k < |ls[1..]| && Clings(ls[1..][k - 1], ls[1..][k]) ensures gaps[1..][k] != "" {
      assert ls[1..][k - 1] == ls[(k + 1) - 1] && ls[1..][k] == ls[k + 1];
    }
    if |ls| > 1 { assert ls[1 - 1] == ls[0]; }
  }

  lemma {:induction false} LexemesCons(t: Token, ts: seq<Token>, ls: seq<Lexeme>)
    requires ls != [] && t.lexeme == ls[0] && Lexemes(ts) == ls[1..] + [Lexeme(Eof, "")]
    ensures Lexemes([t] + ts) == ls + [Lexeme(Eof, "")]
  {
    assert Lexemes([t] + ts) == [ls[0]] + Lexemes(ts);
  }

  lemma {:induction false} LexOne(text: string, j: nat, l: Lexeme)
    requires Writable(l) && At(text, j, Spelling(l)) && Follows(text, l, j + |Spelling(l)|)
    ensures j < |text|
    ensures var k := j + |Spelling(l)|; Dispatch(text, j) == Turn(Some(Token(l, j, k)), None, k)
  {
    hide Dispatch, At, Follows, IsAtomText;
    if l.kind == TokenType.String {
      LexString(text, j, l.value);
    } else if l.kind == TokenType.Atom {
      LexAtom(text, j, l.value);
    } else {
      LexMark(text, j, l);
    }
  }

  lemma {:induction false} StripEmptyIsBlank(s: string)
    requires Strip(s) == ""
    ensures Blank(s)
  {
    StripLeftSkipsBlank(s);
    var left := StripLeft(s);
    if left != "" { StripRightKeepsFirst(left); }
  }

  lemma {:induction false} StripLeftSkipsBlank(s: string)
    ensures Blank(s[..|s| - |StripLeft(s)|])
    decreases |s|
  {
    if s != [] && IsSpace(s[0]) {
      StripLeftSkipsBlank(s[1..]);
      var n := |s| - |StripLeft(s)|;
      assert s[..n] == [s[0]] + s[1..][..n - 1];
    }
  }

  lemma {:induction false} StripRightKeepsFirst(s: string)
    requires s != "" && !IsSpace(s[0])
    ensures StripRight(s) != ""
    decreases |s|
  {
    if IsSpace(s[|s| - 1]) { StripRightKeepsFirst(s[..|s| - 1]); }
  }

  /** Reading what was written, for every surface form and every spacing that keeps its lexemes apart. */
  lemma {:induction false} ParseWritten(s: Statement, gaps: seq<string>)
    requires FitsStatement(s) && Separated(WrittenStatement(s), gaps) && forall l :: l in WrittenStatement(s) ==> Writable(l)
    ensures Parse(Text(WrittenStatement(s), gaps)) == Accepted(StatementTree(s))
  {
    hide LexFrom, FitsStatement, WrittenStatement, ParseTokens, Text, Blank, Strip, Clings, Writable;
    var ls := WrittenStatement(s);
    var text := Text(ls, gaps);
    assert At(text, 0, text);
    LexText(text, 0, ls, gaps);
    ParseLexed(text, s);
  }

  /** A text that lexes to a surface form is accepted as its tree. */
  lemma {:induction false} ParseLexed(text: string, s: Statement)
    requires FitsStatement(s) && LexFrom(text, 0).errors == []
    requires Lexemes(LexFrom(text, 0).tokens) == WrittenStatement(s) + [Lexeme(Eof, "")]
    ensures Parse(text) == Accepted(StatementTree(s))
  {
    hide LexFrom, FitsStatement, WrittenStatement, ParseTokens, Strip;
    EofComesLast(text, 0);
    StatementNonempty(s);
    var ts: Tokens := LexFrom(text, 0).tokens;
    LexemesHere(ts, WrittenStatement(s));
    ReadStatement(ts, s);
    TokensMeanInk(text);
  }

  /** A text with a token besides the end marker is not blank. */
  lemma {:induction false} TokensMeanInk(text: string)
    requires |LexFrom(text, 0).tokens| > 1
    ensures Strip(text) != ""
  {
    hide LexFrom, Strip;
    if Strip(text) == "" {
      StripEmptyIsBlank(text);
      assert At(text, 0, text);
      LexGap(text, 0, text);
      LexEnd(text);
    }
  }

  lemma {:induction false} StatementNonempty(s: Statement)
    ensures WrittenStatement(s) != []
  {
  }

  lemma {:induction false} LexemesHere(ts: Tokens, ls: seq<Lexeme>)
    requires Lexemes(ts) == ls + [Lexeme(Eof, "")]
    ensures Here(ts, 0, ls) && |ts| == |ls| + 1
  {
    forall k | 0 <= k < |ls| ensures ts[k].lexeme == ls[k] {
      assert Lexemes(ts)[k] == ls[k];
    }
  }

  // ---------- The writer's own forms ----------

  /** Strings and operator symbols, which need no gaps. */
  predicate Quotes(ls: seq<Lexeme>) {
    forall l :: l in ls ==> l.kind == TokenType.String || (l.kind !in {TokenType.Atom, Eof} && l == Mark(l.kind))
  }

  lemma QuotesNeedNoGaps(ls: seq<Lexeme>, gaps: seq<string>)
    requires Quotes(ls) && Gaps(gaps, |ls|)
    ensures Separated(ls, gaps) && forall l :: l in ls ==> Writable(l)
  {
    hide Blank;
    forall k | 0 < k < |ls| ensures !Clings(ls[k - 1], ls[k]) {
      assert ls[k] in ls;
    }
  }

  lemma {:induction false} QuotesJoin(a: seq<Lexeme>, kind: TokenType, b: seq<Lexeme>)
    requires Quotes(a) && Quotes(b) && kind !in {TokenType.Atom, TokenType.String, Eof}
    ensures Quotes(a + [Mark(kind)] + b) && Quotes([Mark(kind)] + b) && Quotes(a + [Mark(kind)])
  {
  }

  lemma {:induction false} ParenQuotes(need: bool, e: Expr)
    requires Quotes(Written(e))
    ensures Quotes(Written(ParenIf(need, e)))
  {
  }

  lemma {:induction false} OperatorQuotes(l: Expr, r: Expr)
    requires Quotes(Written(l)) && Quotes(Written(r))
    ensures Quotes(Written(TypeExpr(l, r))) && Quotes(Written(RelationExpr(l, r))) && Quotes(Written(Negated(l)))
  {
    hide Quotes;
    QuotesJoin(Written(l), Colon, Written(r));
    QuotesJoin(Written(l), Plus, Written(r));
    QuotesJoin(Written(l), Minus, Written(l));
  }

  lemma {:induction false} TupleQuotes(es: seq<Expr>)
    requires Quotes(WrittenItems(es))
    ensures Quotes(Written(Tuple(es)))
  {
    assert Written(Tuple(es)) == [Mark(LParen)] + WrittenItems(es) + [Mark(RParen)];
    hide Written, WrittenItems;
  }

  lemma {:induction false} WriteQuotes(ast: Ast, level: Level, extra: Ast -> bool)
    requires WellFormed(ast)
    ensures Quotes(Written(Write(ast, level, extra)))
    decreases ast
  {
    hide Quotes, ParenIf, Written, WrittenItems;
    match ast
    case Entity(name) =>
      NameQuotes(name, "");
      ParenQuotes(extra(ast), QuotedName(name));
    case Reference(entity, field) =>
      NameQuotes(entity, field);
      ParenQuotes(extra(ast), QuotedRef(entity, field));
    case Group(items) =>
      WriteAllQuotes(items, extra);
      TupleQuotes(WriteAll(items, extra));
      ParenQuotes(extra(ast), Tuple(WriteAll(items, extra)));
    case TypeLink(l, r) =>
      WriteQuotes(l, 1, extra);
      WriteQuotes(r, 2, extra);
      OperatorQuotes(Write(l, 1, extra), Write(r, 2, extra));
      ParenQuotes(level > 1 || extra(ast), TypeExpr(Write(l, 1, extra), Write(r, 2, extra)));
    case RelationLink(l, r) =>
      WriteQuotes(l, 0, extra);
      WriteQuotes(r, 1, extra);
      OperatorQuotes(Write(l, 0, extra), Write(r, 1, extra));
      ParenQuotes(level > 0 || extra(ast), RelationExpr(Write(l, 0, extra), Write(r, 1, extra)));
    case Extinguish(t) =>
      WriteQuotes(t, 2, extra);
      OperatorQuotes(Write(t, 2, extra), Write(t, 2, extra));
      ParenQuotes(level > 2 || extra(ast), Negated(Write(t, 2, extra)));
    case _ =>
  }

  lemma NoQuotes()
    ensures Quotes([])
  {
  }

  lemma NameQuotes(name: string, field: string)
    ensures Quotes(Written(QuotedName(name))) && Quotes(Written(QuotedRef(name, field)))
  {
  }

  lemma {:induction false} WriteAllQuotes(asts: seq<Ast>, extra: Ast -> bool)
    requires forall x :: x in asts ==> WellFormed(x)
    ensures Quotes(WrittenItems(WriteAll(asts, extra)))
    decreases asts
  {
    hide WellFormed, Write, Quotes, Written;
    if asts == [] {
      NoQuotes();
    } else {
      assert asts[0] in asts;
      WriteQuotes(asts[0], 0, extra);
      WriteAllQuotes(asts[1..], extra);
      var es := WriteAll(asts, extra);
      assert es[1..] == WriteAll(asts[1..], extra);
      QuotesJoin(Written(es[0]), Comma, WrittenItems(es[1..]));
    }
  }

  lemma {:induction false} AssignmentQuotes(entity: string, field: string, content: Ast, extra: Ast -> bool)
    requires WellFormedStatement(Assignment(entity, field, content))
    ensures Quotes(WrittenStatement(WriteStatement(Assignment(entity, field, content), extra)))
  {
    hide Quotes, Write, Written, WellFormed, ParenIf, ReadsAsLiteral, IsEntityName, Mark;
    NameQuotes(entity, field);
    var target := Written(QuotedRef(entity, field));
    if content.Literal? {
      OneQuote(content.value);
      QuotesJoin(target, TokenType.Assign, [Quoted(content.value)]);
    } else {
      WriteQuotes(content, 0, extra);
      var e := Write(content, 0, extra);
      ParenQuotes(ReadsAsLiteral(e), e);
      QuotesJoin(target, TokenType.Assign, Written(ParenIf(ReadsAsLiteral(e), e)));
    }
  }

  lemma {:induction false} WriteStatementQuotes(ast: Ast, extra: Ast -> bool)
    requires WellFormedStatement(ast)
    ensures Quotes(WrittenStatement(WriteStatement(ast, extra)))
  {
    hide Quotes, Write, Written, WellFormed, IsEntityName, Mark;
    match ast
    case Flow(source, target) =>
      WriteQuotes(source, 0, extra);
      WriteQuotes(target, 0, extra);
      QuotesJoin(Written(Write(source, 0, extra)), Arrow, Written(Write(target, 0, extra)));
    case Assignment(entity, field, content) =>
      AssignmentQuotes(entity, field, content, extra);
    case Literal(_) =>
      WellFormedHasNoLiteral(ast);
    case _ =>
      WriteQuotes(ast, 0, extra);
  }

  lemma OneQuote(value: string)
    ensures Quotes([Quoted(value)])
  {
  }

  /** The text round trip for every syntax tree, every choice of extra parentheses and every spacing. */
  lemma {:induction false} TextRoundTrip(ast: Ast, extra: Ast -> bool, gaps: seq<string>)
    requires WellFormedStatement(ast)
    requires Gaps(gaps, |WrittenStatement(WriteStatement(ast, extra))|)
    ensures Parse(Text(WrittenStatement(WriteStatement(ast, extra)), gaps)) == Accepted(ast)
  {
    hide WriteStatement, WrittenStatement, Quotes;
    WriteStatementFits(ast, extra);
    WriteStatementQuotes(ast, extra);
    QuotesNeedNoGaps(WrittenStatement(WriteStatement(ast, extra)), gaps);
    ParseWritten(WriteStatement(ast, extra), gaps);
  }
}
