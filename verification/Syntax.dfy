/**
 Concrete syntax: the surface forms of an expression with their parentheses, the tokens they are
 written as, and the ways to write a given syntax tree.
 */
module Syntax {
  import opened Values
  import opened Lexer
  import opened Parser

  predicate IsWord(l: Lexeme) {
    l.kind == TokenType.Atom || l.kind == TokenType.String
  }

  /** A bare atom or a quoted string. */
  type Word = l: Lexeme | IsWord(l) witness Lexeme(TokenType.Atom, "a")

  /** A run of words, which together make one name. */
  type Words = ws: seq<Lexeme> | ws != [] && forall k :: 0 <= k < |ws| ==> IsWord(ws[k]) witness [Lexeme(TokenType.Atom, "a")]

  datatype Expr =
    | Name(words: Words)
    | Ref(words: Words, field: Word)
    | Tuple(items: seq<Expr>)
    | Paren(inner: Expr)
    | TypeExpr(left: Expr, right: Expr)
    | RelationExpr(left: Expr, right: Expr)
    | Negated(target: Expr)

  datatype Statement =
    | Plain(expr: Expr)
    | Arrows(source: Expr, target: Expr)
      /** The sign is `:=` or `=`. */
    | AssignsText(target: Expr, sign: Lexeme, text: Word)
    | AssignsExpr(target: Expr, sign: Lexeme, value: Expr)

  /** Binding strength required by a position: 0 any, 1 no bare '+', 2 no bare '+' or ':', 3 operands only. */
  type Level = n: nat | n <= 3

  /** Entity names survive the parser's trimming. */
  predicate IsEntityName(name: string) {
    name != "" && Strip(name) == name
  }

  /** The words with single spaces between them. */
  function Spaced(words: seq<Lexeme>): string {
    if words == [] then ""
    else if |words| == 1 then words[0].value
    else words[0].value + " " + Spaced(words[1..])
  }

  /** The name that a run of words makes. */
  function Spoken(words: seq<Lexeme>): string {
    Strip(Spaced(words))
  }

  predicate Fits(e: Expr, level: Level)
    decreases e
  {
    match e
    case Name(words) => Spoken(words) != ""
    case Ref(words, _) => Spoken(words) != ""
    case Tuple(items) => |items| >= 2 && forall x :: x in items ==> Fits(x, 0)
    case Paren(inner) => Fits(inner, 0)
    case TypeExpr(l, r) => level <= 1 && Fits(l, 1) && Fits(r, 2)
    case RelationExpr(l, r) => level == 0 && Fits(l, 0) && Fits(r, 1)
    case Negated(t) => level <= 2 && Fits(t, 2)
  }

  /** The syntax tree an expression stands for. */
  function Tree(e: Expr): Ast
    decreases e
  {
    match e
    case Name(words) => Entity(Spoken(words))
    case Ref(words, field) => Reference(Spoken(words), field.value)
    case Tuple(items) => Group(Trees(items))
    case Paren(inner) => Tree(inner)
    case TypeExpr(l, r) => TypeLink(Tree(l), Tree(r))
    case RelationExpr(l, r) => RelationLink(Tree(l), Tree(r))
    case Negated(t) => Extinguish(Tree(t))
  }

  function Trees(es: seq<Expr>): (r: seq<Ast>)
    ensures |r| == |es|
    decreases es
  {
    if es == [] then [] else [Tree(es[0])] + Trees(es[1..])
  }

  /** An expression whose first token is a string. */
  predicate StartsQuoted(e: Expr) {
    match e
    case Name(words) => words[0].kind == TokenType.String
    case Ref(words, _) => words[0].kind == TokenType.String
    case TypeExpr(l, _) => StartsQuoted(l)
    case RelationExpr(l, _) => StartsQuoted(l)
    case _ => false
  }

  /** An expression that an assignment would read as a literal, at least its first token. */
  predicate ReadsAsLiteral(e: Expr) {
    StartsQuoted(e) || (e.Name? && |e.words| == 1)
  }

  predicate IsAssignSign(l: Lexeme) {
    l == Mark(TokenType.Assign) || l == Lexeme(TokenType.Assign, "=")
  }

  predicate FitsStatement(s: Statement) {
    match s
    case Plain(e) => Fits(e, 0)
    case Arrows(l, r) => Fits(l, 0) && Fits(r, 0)
    case AssignsText(target, sign, _) => Fits(target, 0) && Tree(target).Reference? && IsAssignSign(sign)
    case AssignsExpr(target, sign, value) =>
      Fits(target, 0) && Tree(target).Reference? && IsAssignSign(sign) && Fits(value, 0) && !ReadsAsLiteral(value)
  }

  function StatementTree(s: Statement): Ast
    requires FitsStatement(s)
  {
    match s
    case Plain(e) => Tree(e)
    case Arrows(l, r) => Flow(Tree(l), Tree(r))
    case AssignsText(target, _, text) => Assignment(Tree(target).entity, Tree(target).field, Literal(text.value))
    case AssignsExpr(target, _, value) => Assignment(Tree(target).entity, Tree(target).field, Tree(value))
  }

  // ---------- Tokens ----------

  function Quoted(value: string): Lexeme { Lexeme(TokenType.String, value) }
  function Mark(kind: TokenType): Lexeme { Lexeme(kind, Symbol(kind)) }

  function Symbol(kind: TokenType): string {
    match kind
    case Colon => ":"
    case Plus => "+"
    case Arrow => "->"
    case Assign => ":="
    case Minus => "-"
    case Dot => "."
    case Comma => ","
    case LParen => "("
    case RParen => ")"
    case _ => ""
  }

  function Written(e: Expr): (r: seq<Lexeme>)
    ensures r != []
    decreases e
  {
    match e
    case Name(words) => words
    case Ref(words, field) => words + [Mark(Dot)] + [field]
    case Tuple(items) => [Mark(LParen)] + WrittenItems(items) + [Mark(RParen)]
    case Paren(inner) => [Mark(LParen)] + Written(inner) + [Mark(RParen)]
    case TypeExpr(l, r) => Written(l) + [Mark(Colon)] + Written(r)
    case RelationExpr(l, r) => Written(l) + [Mark(Plus)] + Written(r)
    case Negated(t) => [Mark(Minus)] + Written(t)
  }

  function WrittenItems(es: seq<Expr>): seq<Lexeme>
    decreases es
  {
    if es == [] then []
    else if |es| == 1 then Written(es[0])
    else Written(es[0]) + [Mark(Comma)] + WrittenItems(es[1..])
  }

  function WrittenStatement(s: Statement): seq<Lexeme> {
    match s
    case Plain(e) => Written(e)
    case Arrows(l, r) => Written(l) + [Mark(Arrow)] + Written(r)
    case AssignsText(target, sign, text) => Written(target) + [sign] + [text]
    case AssignsExpr(target, sign, value) => Written(target) + [sign] + Written(value)
  }

  // ---------- Writing a syntax tree ----------

  predicate WellFormed(ast: Ast)
    decreases ast
  {
    match ast
    case Entity(name) => IsEntityName(name)
    case Reference(entity, _) => IsEntityName(entity)
    case Group(items) => |items| >= 2 && forall x :: x in items ==> WellFormed(x)
    case TypeLink(l, r) => WellFormed(l) && WellFormed(r)
    case RelationLink(l, r) => WellFormed(l) && WellFormed(r)
    case Extinguish(t) => WellFormed(t)
    case _ => false
  }

  predicate WellFormedStatement(ast: Ast) {
    match ast
    case Flow(source, target) => WellFormed(source) && WellFormed(target)
    case Assignment(entity, _, content) => IsEntityName(entity) && (content.Literal? || WellFormed(content))
    case _ => WellFormed(ast)
  }

  function ParenIf(need: bool, e: Expr): Expr {
    if need then Paren(e) else e
  }

  function QuotedName(name: string): Expr { Name([Quoted(name)]) }
  function QuotedRef(entity: string, field: string): Expr { Ref([Quoted(entity)], Quoted(field)) }

  /**
   Writes a tree at a position of the given level, with the parentheses the position requires and,
   where `extra` asks for them, more.  `extra` never holding gives the minimal form, always the full one.
   */
  function Write(ast: Ast, level: Level, extra: Ast -> bool): Expr
    requires WellFormed(ast)
    decreases ast
  {
    match ast
    case Entity(name) => ParenIf(extra(ast), QuotedName(name))
    case Reference(entity, field) => ParenIf(extra(ast), QuotedRef(entity, field))
    case Group(items) => ParenIf(extra(ast), Tuple(WriteAll(items, extra)))
    case TypeLink(l, r) => ParenIf(level > 1 || extra(ast), TypeExpr(Write(l, 1, extra), Write(r, 2, extra)))
    case RelationLink(l, r) => ParenIf(level > 0 || extra(ast), RelationExpr(Write(l, 0, extra), Write(r, 1, extra)))
    case Extinguish(t) => ParenIf(level > 2 || extra(ast), Negated(Write(t, 2, extra)))
  }

  function WriteAll(asts: seq<Ast>, extra: Ast -> bool): (r: seq<Expr>)
    requires forall x :: x in asts ==> WellFormed(x)
    ensures |r| == |asts|
    decreases asts
  {
    if asts == [] then [] else [Write(asts[0], 0, extra)] + WriteAll(asts[1..], extra)
  }

  function WriteStatement(ast: Ast, extra: Ast -> bool): Statement
    requires WellFormedStatement(ast)
  {
    match ast
    case Flow(source, target) => Arrows(Write(source, 0, extra), Write(target, 0, extra))
    case Assignment(entity, field, content) =>
      var target, sign := QuotedRef(entity, field), Mark(TokenType.Assign);
      if content.Literal? then AssignsText(target, sign, Quoted(content.value))
      else
        var e := Write(content, 0, extra);
        AssignsExpr(target, sign, ParenIf(ReadsAsLiteral(e), e))
    case _ => Plain(Write(ast, 0, extra))
  }

  /** `e` may stand at `level` and means `ast`. */
  ghost predicate Renders(e: Expr, level: Level, ast: Ast) {
    Fits(e, level) && Tree(e) == ast
  }

  lemma {:induction false} ParenRenders(need: bool, e: Expr, level: Level, ast: Ast)
    requires Renders(e, 0, ast) && (!need ==> Renders(e, level, ast))
    ensures Renders(ParenIf(need, e), level, ast)
  {
  }

  lemma {:induction false} TupleRenders(items: seq<Expr>, level: Level, asts: seq<Ast>)
    requires |items| >= 2 && (forall x :: x in items ==> Fits(x, 0)) && Trees(items) == asts
    ensures Renders(Tuple(items), level, Group(asts))
  {
  }

  lemma {:induction false} TypeRenders(l: Expr, r: Expr, level: Level, left: Ast, right: Ast)
    requires Renders(l, 1, left) && Renders(r, 2, right) && level <= 1
    ensures Renders(TypeExpr(l, r), level, TypeLink(left, right))
  {
  }

  lemma {:induction false} RelationRenders(l: Expr, r: Expr, left: Ast, right: Ast)
    requires Renders(l, 0, left) && Renders(r, 1, right)
    ensures Renders(RelationExpr(l, r), 0, RelationLink(left, right))
  {
  }

  lemma {:induction false} NegatedRenders(t: Expr, level: Level, target: Ast)
    requires Renders(t, 2, target) && level <= 2
    ensures Renders(Negated(t), level, Extinguish(target))
  {
  }

  lemma {:induction false} WriteFits(ast: Ast, level: Level, extra: Ast -> bool)
    requires WellFormed(ast)
    ensures Renders(Write(ast, level, extra), level, ast)
    decreases ast
  {
    hide Renders, ParenIf;
    match ast
    case Entity(name) =>
      NameRenders(name, "", level);
      ParenRenders(extra(ast), QuotedName(name), level, ast);
    case Reference(entity, field) =>
      NameRenders(entity, field, level);
      ParenRenders(extra(ast), QuotedRef(entity, field), level, ast);
    case Group(items) =>
      WriteAllFits(items, extra);
      TupleRenders(WriteAll(items, extra), 0, items);
      TupleRenders(WriteAll(items, extra), level, items);
      ParenRenders(extra(ast), Tuple(WriteAll(items, extra)), level, ast);
    case TypeLink(l, r) =>
      WriteFits(l, 1, extra);
      WriteFits(r, 2, extra);
      var left, right := Write(l, 1, extra), Write(r, 2, extra);
      TypeRenders(left, right, 0, l, r);
      if level <= 1 { TypeRenders(left, right, level, l, r); }
      ParenRenders(level > 1 || extra(ast), TypeExpr(left, right), level, ast);
    case RelationLink(l, r) =>
      WriteFits(l, 0, extra);
      WriteFits(r, 1, extra);
      var left, right := Write(l, 0, extra), Write(r, 1, extra);
      RelationRenders(left, right, l, r);
      ParenRenders(level > 0 || extra(ast), RelationExpr(left, right), level, ast);
    case Extinguish(t) =>
      WriteFits(t, 2, extra);
      NegatedRenders(Write(t, 2, extra), 0, t);
      if level <= 2 { NegatedRenders(Write(t, 2, extra), level, t); }
      ParenRenders(level > 2 || extra(ast), Negated(Write(t, 2, extra)), level, ast);
    case _ =>
  }

  lemma {:induction false} NameRenders(name: string, field: string, level: Level)
    requires IsEntityName(name)
    ensures Renders(QuotedName(name), 0, Entity(name)) && Renders(QuotedName(name), level, Entity(name))
    ensures Renders(QuotedRef(name, field), 0, Reference(name, field)) && Renders(QuotedRef(name, field), level, Reference(name, field))
  {
    hide Strip;
  }

  lemma {:induction false} WriteAllFits(asts: seq<Ast>, extra: Ast -> bool)
    requires forall x :: x in asts ==> WellFormed(x)
    ensures forall x :: x in WriteAll(asts, extra) ==> Fits(x, 0)
    ensures Trees(WriteAll(asts, extra)) == asts
    decreases asts
  {
    hide WellFormed, Write, Fits, Tree;
    if asts != [] {
      assert asts[0] in asts;
      WriteFits(asts[0], 0, extra);
      WriteAllFits(asts[1..], extra);
      var es := WriteAll(asts, extra);
      assert es[1..] == WriteAll(asts[1..], extra);
      assert [asts[0]] + asts[1..] == asts;
    }
  }

  lemma {:induction false} ParenHidesLiteral(e: Expr)
    ensures !ReadsAsLiteral(ParenIf(ReadsAsLiteral(e), e))
  {
  }

  lemma {:induction false} WellFormedHasNoLiteral(ast: Ast)
    ensures WellFormed(ast) ==> !ast.Literal?
  {
  }

  lemma {:induction false} WriteStatementFits(ast: Ast, extra: Ast -> bool)
    requires WellFormedStatement(ast)
    ensures FitsStatement(WriteStatement(ast, extra)) && StatementTree(WriteStatement(ast, extra)) == ast
  {
    hide IsEntityName, Fits, Tree, Write, ReadsAsLiteral, ParenIf, WellFormed;
    match ast
    case Flow(source, target) =>
      WriteFits(source, 0, extra);
      WriteFits(target, 0, extra);
    case Assignment(entity, field, content) =>
      NameRenders(entity, field, 0);
      if !content.Literal? {
        WriteFits(content, 0, extra);
        var e := Write(content, 0, extra);
        ParenRenders(ReadsAsLiteral(e), e, 0, content);
        ParenHidesLiteral(e);
      }
    case Literal(_) =>
      WellFormedHasNoLiteral(ast);
    case _ =>
      WriteFits(ast, 0, extra);
  }

  // ---------- Text ----------

  function Spelling(l: Lexeme): string {
    if l.kind == TokenType.String then "\"" + Escape(l.value, '"') + "\"" else l.value
  }

  predicate Blank(s: string) {
    forall i :: 0 <= i < |s| ==> IsSpace(s[i])
  }

  /** The lexemes in order, each preceded by some whitespace, possibly none, and some at the end. */
  function Text(ls: seq<Lexeme>, gaps: seq<string>): string
    requires |gaps| == |ls| + 1
    decreases |ls|
  {
    if ls == [] then gaps[0] else gaps[0] + (Spelling(ls[0]) + Text(ls[1..], gaps[1..]))
  }

  predicate Gaps(gaps: seq<string>, n: nat) {
    |gaps| == n + 1 && forall i :: 0 <= i < |gaps| ==> Blank(gaps[i])
  }

  /** Without a gap between them the two would be lexed as something else. */
  predicate Clings(a: Lexeme, b: Lexeme) {
    || (a.kind == TokenType.Atom && (b.kind == TokenType.Atom || b.kind == Minus))
    || (a.kind == Minus && b.kind == TokenType.Atom && StartsWith(b.value, ">"))
    || (a.kind == Colon && b == Lexeme(TokenType.Assign, "="))
  }

  /** Gaps that keep the lexemes apart. */
  predicate Separated(ls: seq<Lexeme>, gaps: seq<string>) {
    Gaps(gaps, |ls|) && forall k :: 0 < k < |ls| && Clings(ls[k - 1], ls[k]) ==> gaps[k] != ""
  }

  /** Characters that may stand in an atom; a minus may not start one nor stand before `>`. */
  predicate IsAtomText(v: string) {
    && v != "" && v[0] != '-'
    && forall k :: 0 <= k < |v| ==> !StopsAtom(v, k)
  }

  /** Lexemes that can be written: strings, atoms and operator symbols. */
  predicate Writable(l: Lexeme) {
    match l.kind
    case String => true
    case Atom => IsAtomText(l.value)
    case Eof => false
    case _ => l == Mark(l.kind) || l == Lexeme(TokenType.Assign, "=")
  }
}
