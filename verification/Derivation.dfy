/** The converse of the round trip: a text is accepted only as a tree that its tokens spell. */
module Derivation {
  import opened Values
  import opened Lexer
  import opened Parser
  import opened Syntax
  import RoundTrip

  /** Operator tokens carry their own symbol. */
  predicate Marked(l: Lexeme) {
    l.kind !in {TokenType.Atom, TokenType.String} ==> l == Mark(l.kind) || l == Lexeme(TokenType.Assign, "=")
  }

  predicate AllMarked(ts: seq<Token>) {
    forall k :: 0 <= k < |ts| ==> Marked(ts[k].lexeme)
  }

  lemma DispatchMarks(text: string, i: nat)
    requires i < |text|
    ensures Dispatch(text, i).token.Some? ==> Marked(Dispatch(text, i).token.value.lexeme)
  {
    hide AtomEnd, Unquote;
  }

  lemma {:induction false} LexMarks(text: string, i: nat)
    requires i <= |text|
    ensures AllMarked(LexFrom(text, i).tokens)
    decreases |text| - i
  {
    hide LexFrom, Dispatch, Marked;
    if i < |text| {
      LexUnfold(text, i);
      DispatchMarks(text, i);
      LexMarks(text, Dispatch(text, i).next);
    } else {
      LexEnd(text);
      assert Marked(Lexeme(Eof, "")) by { EofIsMarked(); }
    }
  }

  lemma EofIsMarked()
    ensures Marked(Lexeme(Eof, ""))
  {
  }

  // ---------- Spelling a tree ----------

  function Span(ts: Tokens, i: nat, j: nat): seq<Lexeme>
    requires i <= j <= |ts|
  {
    RoundTrip.Lexemes(ts[i..j])
  }

  /** The tokens from `i` up to `j` are a way of writing the tree that may stand at the level. */
  ghost predicate Spells(ts: Tokens, i: nat, j: nat, level: Level, ast: Ast)
    requires i <= j <= |ts|
  {
    exists e :: Fits(e, level) && Tree(e) == ast && Written(e) == Span(ts, i, j)
  }

  ghost predicate SpellsItems(ts: Tokens, i: nat, j: nat, asts: seq<Ast>)
    requires i <= j <= |ts|
  {
    exists es :: es != [] && (forall x :: x in es ==> Fits(x, 0)) && Trees(es) == asts && WrittenItems(es) == Span(ts, i, j)
  }

  lemma SpanJoin(ts: Tokens, i: nat, m: nat, j: nat)
    requires i <= m < j <= |ts|
    ensures Span(ts, i, j) == Span(ts, i, m) + [ts[m].lexeme] + Span(ts, m + 1, j)
    ensures Span(ts, i, i) == [] && Span(ts, m, m + 1) == [ts[m].lexeme]
  {
  }

  lemma MarkAt(ts: Tokens, i: nat)
    requires i < |ts| && AllMarked(ts) && Kind(ts, i) !in {TokenType.Atom, TokenType.String, TokenType.Assign}
    ensures ts[i].lexeme == Mark(Kind(ts, i))
  {
  }

  lemma {:induction false} FitsLower(e: Expr, level: Level, lower: Level)
    requires Fits(e, level) && lower <= level
    ensures Fits(e, lower)
  {
    hide Spoken;
  }

  lemma SpellsLower(ts: Tokens, i: nat, j: nat, level: Level, lower: Level, ast: Ast)
    requires i <= j <= |ts| && Spells(ts, i, j, level, ast) && lower <= level
    ensures Spells(ts, i, j, lower, ast)
  {
    hide Fits, Tree, Written;
    var e :| Fits(e, level) && Tree(e) == ast && Written(e) == Span(ts, i, j);
    FitsLower(e, level, lower);
  }

  lemma SpelledType(ts: Tokens, i: nat, m: nat, j: nat, l: Ast, r: Ast)
    requires i <= m < j <= |ts| && ts[m].lexeme == Mark(Colon) && Spells(ts, i, m, 1, l) && Spells(ts, m + 1, j, 2, r)
    ensures Spells(ts, i, j, 1, TypeLink(l, r))
  {
    hide Fits, Tree, Written, Span;
    var a :| Fits(a, 1) && Tree(a) == l && Written(a) == Span(ts, i, m);
    var b :| Fits(b, 2) && Tree(b) == r && Written(b) == Span(ts, m + 1, j);
    SpanJoin(ts, i, m, j);
    var e := TypeExpr(a, b);
    assert Fits(e, 1) && Tree(e) == TypeLink(l, r) && Written(e) == Span(ts, i, j) by { OperatorParts(a, b); }
  }

  lemma SpelledRelation(ts: Tokens, i: nat, m: nat, j: nat, l: Ast, r: Ast)
    requires i <= m < j <= |ts| && ts[m].lexeme == Mark(Plus) && Spells(ts, i, m, 0, l) && Spells(ts, m + 1, j, 1, r)
    ensures Spells(ts, i, j, 0, RelationLink(l, r))
  {
    hide Fits, Tree, Written, Span;
    var a :| Fits(a, 0) && Tree(a) == l && Written(a) == Span(ts, i, m);
    var b :| Fits(b, 1) && Tree(b) == r && Written(b) == Span(ts, m + 1, j);
    SpanJoin(ts, i, m, j);
    var e := RelationExpr(a, b);
    assert Fits(e, 0) && Tree(e) == RelationLink(l, r) && Written(e) == Span(ts, i, j) by { OperatorParts(a, b); }
  }

  lemma {:induction false} OperatorParts(a: Expr, b: Expr)
    ensures Fits(a, 1) && Fits(b, 2) ==> Fits(TypeExpr(a, b), 1)
    ensures Fits(a, 0) && Fits(b, 1) ==> Fits(RelationExpr(a, b), 0)
    ensures Fits(a, 2) ==> Fits(Negated(a), 2)
    ensures Fits(a, 0) ==> Fits(Paren(a), 3)
    ensures Tree(TypeExpr(a, b)) == TypeLink(Tree(a), Tree(b)) && Tree(RelationExpr(a, b)) == RelationLink(Tree(a), Tree(b))
    ensures Tree(Negated(a)) == Extinguish(Tree(a)) && Tree(Paren(a)) == Tree(a)
    ensures Written(TypeExpr(a, b)) == Written(a) + [Mark(Colon)] + Written(b)
    ensures Written(RelationExpr(a, b)) == Written(a) + [Mark(Plus)] + Written(b)
    ensures Written(Negated(a)) == [Mark(Minus)] + Written(a)
    ensures Written(Paren(a)) == [Mark(LParen)] + Written(a) + [Mark(RParen)]
  {
  }

  lemma SpelledNegated(ts: Tokens, i: nat, j: nat, t: Ast)
    requires i < j <= |ts| && ts[i].lexeme == Mark(Minus) && Spells(ts, i + 1, j, 2, t)
    ensures Spells(ts, i, j, 2, Extinguish(t))
  {
    hide Fits, Tree, Written, Span;
    var a :| Fits(a, 2) && Tree(a) == t && Written(a) == Span(ts, i + 1, j);
    SpanJoin(ts, i, i, j);
    var e := Negated(a);
    assert Fits(e, 2) && Tree(e) == Extinguish(t) && Written(e) == Span(ts, i, j) by { OperatorParts(a, a); }
  }

  lemma SpelledParen(ts: Tokens, i: nat, j: nat, ast: Ast)
    requires i < j < |ts| && ts[i].lexeme == Mark(LParen) && ts[j].lexeme == Mark(RParen) && Spells(ts, i + 1, j, 0, ast)
    ensures Spells(ts, i, j + 1, 3, ast)
  {
    hide Fits, Tree, Written, Span;
    var a :| Fits(a, 0) && Tree(a) == ast && Written(a) == Span(ts, i + 1, j);
    SpanJoin(ts, i, i, j);
    SpanJoin(ts, i, j, j + 1);
    SpanEmpty(ts, j + 1);
    var e := Paren(a);
    assert Fits(e, 3) && Tree(e) == ast && Written(e) == Span(ts, i, j + 1) by { OperatorParts(a, a); }
  }

  lemma SpanEmpty(ts: Tokens, i: nat)
    requires i <= |ts|
    ensures Span(ts, i, i) == []
  {
  }

  lemma SpelledTuple(ts: Tokens, i: nat, j: nat, asts: seq<Ast>)
    requires i < j < |ts| && ts[i].lexeme == Mark(LParen) && ts[j].lexeme == Mark(RParen)
    requires SpellsItems(ts, i + 1, j, asts) && |asts| >= 2
    ensures Spells(ts, i, j + 1, 3, Group(asts))
  {
    hide Fits, Tree, Written, WrittenItems, Span;
    var es :| es != [] && (forall x :: x in es ==> Fits(x, 0)) && Trees(es) == asts && WrittenItems(es) == Span(ts, i + 1, j);
    SpanJoin(ts, i, i, j);
    SpanJoin(ts, i, j, j + 1);
    SpanEmpty(ts, j + 1);
    var e := Tuple(es);
    assert Fits(e, 3) && Tree(e) == Group(asts) && Written(e) == Span(ts, i, j + 1) by { TupleParts(es); }
  }

  lemma {:induction false} TupleParts(es: seq<Expr>)
    requires |es| >= 2 && forall x :: x in es ==> Fits(x, 0)
    ensures Fits(Tuple(es), 3) && Tree(Tuple(es)) == Group(Trees(es))
    ensures Written(Tuple(es)) == [Mark(LParen)] + WrittenItems(es) + [Mark(RParen)]
  {
  }

  lemma {:induction false} ItemsAppend(es: seq<Expr>, e: Expr)
    requires es != []
    ensures Trees(es + [e]) == Trees(es) + [Tree(e)]
    ensures WrittenItems(es + [e]) == WrittenItems(es) + [Mark(Comma)] + Written(e)
    decreases |es|
  {
    hide Tree, Written;
    assert (es + [e])[1..] == es[1..] + [e];
    if |es| > 1 {
      ItemsAppend(es[1..], e);
    } else {
      assert es[1..] + [e] == [e] && [e][1..] == [];
      assert Trees([e]) == [Tree(e)];
    }
  }

  lemma SpelledItem(ts: Tokens, i: nat, j: nat, ast: Ast)
    requires i <= j <= |ts| && Spells(ts, i, j, 0, ast)
    ensures SpellsItems(ts, i, j, [ast])
  {
    hide Fits, Tree, Written, Span;
    var e :| Fits(e, 0) && Tree(e) == ast && Written(e) == Span(ts, i, j);
    assert Trees([e]) == [ast] && WrittenItems([e]) == Span(ts, i, j) by { assert [e][1..] == []; }
  }

  lemma SpelledItems(ts: Tokens, i: nat, m: nat, j: nat, asts: seq<Ast>, ast: Ast)
    requires i <= m < j <= |ts| && ts[m].lexeme == Mark(Comma) && SpellsItems(ts, i, m, asts) && Spells(ts, m + 1, j, 0, ast)
    ensures SpellsItems(ts, i, j, asts + [ast])
  {
    hide Fits, Tree, Written, WrittenItems, Span, Trees;
    var es :| es != [] && (forall x :: x in es ==> Fits(x, 0)) && Trees(es) == asts && WrittenItems(es) == Span(ts, i, m);
    var e :| Fits(e, 0) && Tree(e) == ast && Written(e) == Span(ts, m + 1, j);
    ItemsAppend(es, e);
    SpanJoin(ts, i, m, j);
    assert forall x :: x in es + [e] ==> Fits(x, 0);
    assert Trees(es + [e]) == asts + [ast] && WrittenItems(es + [e]) == Span(ts, i, j);
  }

  // ---------- What each production accepts ----------

  lemma {:induction false} NamesUpTo(ts: Tokens, i: nat)
    requires i < |ts|
    ensures forall k :: i <= k < NameEnd(ts, i) ==> IsName(Kind(ts, k))
    decreases |ts| - i
  {
    if IsName(Kind(ts, i)) { NamesUpTo(ts, i + 1); }
  }

  lemma {:induction false} EntitySpelled(ts: Tokens, i: nat)
    requires i < |ts| && IsName(Kind(ts, i)) && AllMarked(ts)
    ensures var r := ParseEntity(ts, i); r.Ok? ==> Spells(ts, i, r.next, 3, r.node)
  {
    hide Strip, Joined, Spaced, NameEnd, Marked;
    var j := NameEnd(ts, i);
    NamesUpTo(ts, i);
    assert forall k :: 0 <= k < j - i ==> IsWord(Span(ts, i, j)[k]) by {
      assert forall k :: 0 <= k < j - i ==> Span(ts, i, j)[k] == ts[i + k].lexeme && IsName(Kind(ts, i + k));
    }
    var words: Words := Span(ts, i, j);
    RoundTrip.JoinedIsSpaced(ts[i..j], words);
    var r := ParseEntity(ts, i);
    if r.Ok? {
      if Kind(ts, j) == Dot {
        MarkAt(ts, j);
        RefSpelled(ts, i, j, words);
      } else {
        NameSpelled(ts, i, j, words);
      }
    }
  }

  lemma NameSpelled(ts: Tokens, i: nat, j: nat, words: Words)
    requires i <= j <= |ts| && words == Span(ts, i, j) && Spoken(words) != ""
    ensures Spells(ts, i, j, 3, Entity(Spoken(words)))
  {
    hide Spoken, Span;
    var e := Name(words);
    assert Fits(e, 3) && Tree(e) == Entity(Spoken(words)) && Written(e) == Span(ts, i, j);
  }

  lemma RefSpelled(ts: Tokens, i: nat, j: nat, words: Words)
    requires i <= j && j + 2 <= |ts| && words == Span(ts, i, j) && Spoken(words) != ""
    requires ts[j].lexeme == Mark(Dot) && IsWord(ts[j + 1].lexeme)
    ensures Spells(ts, i, j + 2, 3, Reference(Spoken(words), ts[j + 1].lexeme.value))
  {
    hide Spoken, Span;
    SpanJoin(ts, i, j, j + 2);
    SpanJoin(ts, i, j + 1, j + 2);
    var e := Ref(words, ts[j + 1].lexeme);
    assert Fits(e, 3) && Tree(e) == Reference(Spoken(words), ts[j + 1].lexeme.value) && Written(e) == Span(ts, i, j + 2);
  }

  lemma {:induction false} PrimarySpelled(ts: Tokens, i: nat)
    requires i < |ts| && AllMarked(ts)
    ensures var r := ParsePrimary(ts, i); r.Ok? ==> Spells(ts, i, r.next, 3, r.node)
    decreases |ts| - i, 0
  {
    hide ParseGroup, ParseEntity, Spells, AllMarked;
    if Kind(ts, i) == LParen {
      GroupSpelled(ts, i);
    } else if IsName(Kind(ts, i)) {
      EntitySpelled(ts, i);
    }
  }

  lemma {:induction false} UnarySpelled(ts: Tokens, i: nat)
    requires i < |ts| && AllMarked(ts)
    ensures var r := ParseUnary(ts, i); r.Ok? ==> Spells(ts, i, r.next, 2, r.node)
    decreases |ts| - i, 1
  {
    hide ParsePrimary, Spells, AllMarked;
    if Kind(ts, i) == Minus {
      UnarySpelled(ts, i + 1);
      MarkAt(ts, i);
      var r := ParseUnary(ts, i + 1);
      if r.Ok? { SpelledNegated(ts, i, r.next, r.node); }
    } else {
      PrimarySpelled(ts, i);
      var r := ParsePrimary(ts, i);
      if r.Ok? { SpellsLower(ts, i, r.next, 3, 2, r.node); }
    }
  }

  lemma {:induction false} TypeSpelled(ts: Tokens, i: nat)
    requires i < |ts| && AllMarked(ts)
    ensures var r := ParseType(ts, i); r.Ok? ==> Spells(ts, i, r.next, 1, r.node)
    decreases |ts| - i, 2
  {
    hide ParseUnary, TypeTail, Spells, AllMarked;
    UnarySpelled(ts, i);
    var r := ParseUnary(ts, i);
    if r.Ok? {
      SpellsLower(ts, i, r.next, 2, 1, r.node);
      TypeTailSpelled(ts, i, r.next, r.node);
    }
  }

  lemma {:induction false} TypeTailSpelled(ts: Tokens, start: nat, i: nat, node: Ast)
    requires start < i < |ts| && AllMarked(ts) && Spells(ts, start, i, 1, node)
    ensures var r := TypeTail(ts, i, node); r.Ok? ==> Spells(ts, start, r.next, 1, r.node)
    decreases |ts| - i, 2
  {
    hide ParseUnary, Spells, AllMarked;
    if Kind(ts, i) == Colon {
      UnarySpelled(ts, i + 1);
      MarkAt(ts, i);
      var r := ParseUnary(ts, i + 1);
      if r.Ok? {
        SpelledType(ts, start, i, r.next, node, r.node);
        TypeTailSpelled(ts, start, r.next, TypeLink(node, r.node));
      }
    }
  }

  lemma {:induction false} RelationSpelled(ts: Tokens, i: nat)
    requires i < |ts| && AllMarked(ts)
    ensures var r := ParseRelation(ts, i); r.Ok? ==> Spells(ts, i, r.next, 0, r.node)
    decreases |ts| - i, 3
  {
    hide ParseType, RelationTail, Spells, AllMarked;
    TypeSpelled(ts, i);
    var r := ParseType(ts, i);
    if r.Ok? {
      SpellsLower(ts, i, r.next, 1, 0, r.node);
      RelationTailSpelled(ts, i, r.next, r.node);
    }
  }

  lemma {:induction false} RelationTailSpelled(ts: Tokens, start: nat, i: nat, node: Ast)
    requires start < i < |ts| && AllMarked(ts) && Spells(ts, start, i, 0, node)
    ensures var r := RelationTail(ts, i, node); r.Ok? ==> Spells(ts, start, r.next, 0, r.node)
    decreases |ts| - i, 3
  {
    hide ParseType, Spells, AllMarked;
    if Kind(ts, i) == Plus {
      TypeSpelled(ts, i + 1);
      MarkAt(ts, i);
      var r := ParseType(ts, i + 1);
      if r.Ok? {
        SpelledRelation(ts, start, i, r.next, node, r.node);
        RelationTailSpelled(ts, start, r.next, RelationLink(node, r.node));
      }
    }
  }

  lemma {:induction false} GroupSpelled(ts: Tokens, i: nat)
    requires i + 1 < |ts| && AllMarked(ts) && Kind(ts, i) == LParen
    ensures var r := ParseGroup(ts, i + 1); r.Ok? ==> Spells(ts, i, r.next, 3, r.node)
    decreases |ts| - i - 1, 5
  {
    hide ParseRelation, GroupTail, Spells, SpellsItems, AllMarked;
    MarkAt(ts, i);
    if Kind(ts, i + 1) != RParen {
      RelationSpelled(ts, i + 1);
      var r := ParseRelation(ts, i + 1);
      if r.Ok? && Kind(ts, r.next) == Comma {
        SpelledItem(ts, i + 1, r.next, r.node);
        GroupTailSpelled(ts, i + 1, r.next, [r.node]);
        var rest := GroupTail(ts, r.next + 1, [r.node]);
        if rest.Ok? && Kind(ts, rest.next) == RParen {
          MarkAt(ts, rest.next);
          SpelledTuple(ts, i, rest.next, rest.node);
        }
      } else if r.Ok? && Kind(ts, r.next) == RParen {
        MarkAt(ts, r.next);
        SpelledParen(ts, i, r.next, r.node);
      }
    }
  }

  /** Behind the comma at `m`. */
  lemma {:induction false} GroupTailSpelled(ts: Tokens, start: nat, m: nat, items: seq<Ast>)
    requires start <= m && m + 1 < |ts| && AllMarked(ts) && Kind(ts, m) == Comma && items != [] && SpellsItems(ts, start, m, items)
    ensures var r := GroupTail(ts, m + 1, items); r.Ok? ==> |r.node| >= 2 && SpellsItems(ts, start, r.next, r.node)
    decreases |ts| - m - 1, 4
  {
    hide ParseRelation, Spells, SpellsItems, AllMarked;
    MarkAt(ts, m);
    RelationSpelled(ts, m + 1);
    var r := ParseRelation(ts, m + 1);
    if r.Ok? {
      SpelledItems(ts, start, m, r.next, items, r.node);
      if Kind(ts, r.next) == Comma {
        GroupTailSpelled(ts, start, r.next, items + [r.node]);
      }
    }
  }

  // ---------- Statements ----------

  /** The tokens before the end marker are a way of writing the statement's tree. */
  ghost predicate SpellsStatement(ts: seq<Token>, ast: Ast) {
    exists s :: FitsStatement(s) && StatementTree(s) == ast && RoundTrip.Lexemes(ts) == WrittenStatement(s) + [Lexeme(Eof, "")]
  }

  lemma WholeSpan(ts: Tokens, j: nat)
    requires j == |ts| - 1 && AllMarked(ts)
    ensures RoundTrip.Lexemes(ts) == Span(ts, 0, j) + [Lexeme(Eof, "")]
  {
    assert Kind(ts, j) == Eof;
    assert Marked(ts[j].lexeme);
  }

  lemma {:induction false} PlainSpelled(ts: Tokens, j: nat, ast: Ast)
    requires j == |ts| - 1 && AllMarked(ts) && Spells(ts, 0, j, 0, ast)
    ensures SpellsStatement(ts, ast)
  {
    hide Fits, Tree, Written, Span;
    var e :| Fits(e, 0) && Tree(e) == ast && Written(e) == Span(ts, 0, j);
    WholeSpan(ts, j);
    assert FitsStatement(Plain(e)) && StatementTree(Plain(e)) == ast && WrittenStatement(Plain(e)) == Span(ts, 0, j);
  }

  lemma {:induction false} FlowSpelled(ts: Tokens, m: nat, j: nat, source: Ast, target: Ast)
    requires m < j == |ts| - 1 && AllMarked(ts) && ts[m].lexeme == Mark(Arrow)
    requires Spells(ts, 0, m, 0, source) && Spells(ts, m + 1, j, 0, target)
    ensures SpellsStatement(ts, Flow(source, target))
  {
    hide Fits, Tree, Written, Span;
    var a :| Fits(a, 0) && Tree(a) == source && Written(a) == Span(ts, 0, m);
    var b :| Fits(b, 0) && Tree(b) == target && Written(b) == Span(ts, m + 1, j);
    WholeSpan(ts, j);
    SpanJoin(ts, 0, m, j);
    var s := Arrows(a, b);
    assert FitsStatement(s) && StatementTree(s) == Flow(source, target) && WrittenStatement(s) == Span(ts, 0, j);
  }

  lemma {:induction false} AssignmentSpelled(ts: Tokens, m: nat, target: Ast)
    requires m + 1 < |ts| && AllMarked(ts) && Kind(ts, m) == TokenType.Assign && Spells(ts, 0, m, 0, target) && target.Reference?
    ensures var r := ParseAssignedValue(ts, m + 1);
            r.Ok? && r.next == |ts| - 1 ==> SpellsStatement(ts, Assignment(target.entity, target.field, r.node))
  {
    hide Fits, Tree, Written, Span, ParseRelation, ReadsAsLiteral;
    var a :| Fits(a, 0) && Tree(a) == target && Written(a) == Span(ts, 0, m);
    var sign := ts[m].lexeme;
    assert IsAssignSign(sign) by { assert Marked(sign); }
    var r := ParseAssignedValue(ts, m + 1);
    if r.Ok? && r.next == |ts| - 1 {
      var j := r.next;
      WholeSpan(ts, j);
      SpanJoin(ts, 0, m, j);
      if r.node == Literal(ts[m + 1].lexeme.value) && j == m + 2 && IsName(Kind(ts, m + 1)) {
        SpanJoin(ts, 0, m + 1, j);
        var s := AssignsText(a, sign, ts[m + 1].lexeme);
        assert FitsStatement(s) && WrittenStatement(s) == Span(ts, 0, j);
        assert StatementTree(s) == Assignment(target.entity, target.field, r.node);
      } else {
        RelationSpelled(ts, m + 1);
        var b :| Fits(b, 0) && Tree(b) == r.node && Written(b) == Span(ts, m + 1, j);
        ValueIsNoLiteral(ts, m + 1, j, b);
        var s := AssignsExpr(a, sign, b);
        assert FitsStatement(s) && WrittenStatement(s) == Span(ts, 0, j);
        assert StatementTree(s) == Assignment(target.entity, target.field, r.node);
      }
    }
  }

  lemma {:induction false} ValueIsNoLiteral(ts: Tokens, i: nat, j: nat, e: Expr)
    requires i < j == |ts| - 1 && Written(e) == Span(ts, i, j) && Kind(ts, i) != TokenType.String
    requires !(Kind(ts, i) == TokenType.Atom && PeekNext(ts, i) in {Eof, Comma, RParen})
    ensures !ReadsAsLiteral(e)
  {
    RoundTrip.FirstKind(e);
    assert Span(ts, i, j)[0] == ts[i].lexeme;
    if e.Name? && |e.words| == 1 {
      assert Written(e) == e.words && IsWord(e.words[0]);
    }
  }

  lemma {:induction false} StatementSpelled(ts: Tokens)
    requires AllMarked(ts)
    ensures var r := ParseStatement(ts, 0); r.Ok? && r.next == |ts| - 1 ==> SpellsStatement(ts, r.node)
  {
    hide ParseRelation, ParseAssignedValue, Spells, SpellsStatement, AllMarked;
    RelationSpelled(ts, 0);
    var r := ParseRelation(ts, 0);
    if r.Ok? {
      if Kind(ts, r.next) == TokenType.Assign && r.node.Reference? {
        AssignmentSpelled(ts, r.next, r.node);
      } else if Kind(ts, r.next) == Arrow {
        RelationSpelled(ts, r.next + 1);
        MarkAt(ts, r.next);
        var target := ParseRelation(ts, r.next + 1);
        if target.Ok? && target.next == |ts| - 1 { FlowSpelled(ts, r.next, target.next, r.node, target.node); }
      } else if r.next == |ts| - 1 {
        PlainSpelled(ts, r.next, r.node);
      }
    }
  }

  // ---------- Main results ----------

  /** An accepted text has no lexical errors and its tokens, all of them, spell the tree it is accepted as. */
  lemma {:induction false} AcceptedIsSpelled(text: string)
    requires Parse(text).Accepted?
    ensures LexFrom(text, 0).errors == [] && SpellsStatement(LexFrom(text, 0).tokens, Parse(text).node)
  {
    hide LexFrom, ParseStatement, SpellsStatement, Strip, AllMarked;
    EofComesLast(text, 0);
    LexMarks(text, 0);
    StatementSpelled(LexFrom(text, 0).tokens);
  }

  /** A text is accepted as a tree iff it has no lexical errors and all its tokens spell the tree. */
  lemma {:induction false} AcceptedIffSpelled(text: string, ast: Ast)
    ensures Parse(text) == Accepted(ast) <==> LexFrom(text, 0).errors == [] && SpellsStatement(LexFrom(text, 0).tokens, ast)
  {
    hide Parse, LexFrom, WrittenStatement, FitsStatement, StatementTree;
    if Parse(text) == Accepted(ast) {
      hide SpellsStatement;
      AcceptedIsSpelled(text);
    }
    if LexFrom(text, 0).errors == [] && SpellsStatement(LexFrom(text, 0).tokens, ast) {
      var s :| FitsStatement(s) && StatementTree(s) == ast
               && RoundTrip.Lexemes(LexFrom(text, 0).tokens) == WrittenStatement(s) + [Lexeme(Eof, "")];
      RoundTrip.ParseLexed(text, s);
    }
  }

  /** No sequence of tokens spells two trees. */
  lemma {:induction false} SpellingIsUnambiguous(ts: Tokens, a: Ast, b: Ast)
    requires SpellsStatement(ts, a) && SpellsStatement(ts, b)
    ensures a == b
  {
    hide WrittenStatement, FitsStatement, StatementTree, ParseTokens;
    var s :| FitsStatement(s) && StatementTree(s) == a && RoundTrip.Lexemes(ts) == WrittenStatement(s) + [Lexeme(Eof, "")];
    var t :| FitsStatement(t) && StatementTree(t) == b && RoundTrip.Lexemes(ts) == WrittenStatement(t) + [Lexeme(Eof, "")];
    RoundTrip.LexemesHere(ts, WrittenStatement(s));
    RoundTrip.LexemesHere(ts, WrittenStatement(t));
    RoundTrip.ReadStatement(ts, s);
    RoundTrip.ReadStatement(ts, t);
  }
}
