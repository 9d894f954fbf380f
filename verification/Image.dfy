/** The trees the parser can return are exactly the well-formed ones. */
module Image {
  import opened Values
  import opened Lexer
  import opened Parser
  import opened Syntax
  import RoundTrip
  import Derivation

  lemma {:induction false} SpokenIsEntityName(words: seq<Lexeme>)
    requires Spoken(words) != ""
    ensures IsEntityName(Spoken(words))
  {
    hide Spaced;
    StripFixes(Spoken(words));
  }

  /** What fits a position stands for a well-formed tree. */
  lemma {:induction false} FittingIsWellFormed(e: Expr, level: Level)
    requires Fits(e, level)
    ensures WellFormed(Tree(e))
    decreases e
  {
    hide Spoken, IsEntityName;
    match e
    case Name(words) => SpokenIsEntityName(words);
    case Ref(words, _) => SpokenIsEntityName(words);
    case Tuple(items) =>
      AllWellFormed(items);
      assert Tree(e) == Group(Trees(items));
    case Paren(inner) => FittingIsWellFormed(inner, 0);
    case TypeExpr(l, r) => FittingIsWellFormed(l, 1); FittingIsWellFormed(r, 2);
    case RelationExpr(l, r) => FittingIsWellFormed(l, 0); FittingIsWellFormed(r, 1);
    case Negated(t) => FittingIsWellFormed(t, 2);
  }

  lemma {:induction false} AllWellFormed(es: seq<Expr>)
    requires forall x :: x in es ==> Fits(x, 0)
    ensures forall x :: x in Trees(es) ==> WellFormed(x)
    decreases es
  {
    hide Fits, WellFormed, Tree;
    if es != [] {
      assert es[0] in es;
      FittingIsWellFormed(es[0], 0);
      AllWellFormed(es[1..]);
      assert Trees(es) == [Tree(es[0])] + Trees(es[1..]);
    }
  }

  lemma {:induction false} FittingStatementIsWellFormed(s: Statement)
    requires FitsStatement(s)
    ensures WellFormedStatement(StatementTree(s))
  {
    hide Fits, Tree, ReadsAsLiteral;
    match s
    case Plain(e) => FittingIsWellFormed(e, 0);
    case Arrows(l, r) => FittingIsWellFormed(l, 0); FittingIsWellFormed(r, 0);
    case AssignsText(target, _, _) => FittingIsWellFormed(target, 0);
    case AssignsExpr(target, _, value) => FittingIsWellFormed(target, 0); FittingIsWellFormed(value, 0);
  }

  /** Whatever the parser accepts is well formed. */
  lemma {:induction false} AcceptedIsWellFormed(text: string)
    requires Parse(text).Accepted?
    ensures WellFormedStatement(Parse(text).node)
  {
    hide Parse, LexFrom, FitsStatement, StatementTree, WrittenStatement, WellFormedStatement;
    Derivation.AcceptedIsSpelled(text);
    var s :| FitsStatement(s) && StatementTree(s) == Parse(text).node
             && RoundTrip.Lexemes(LexFrom(text, 0).tokens) == WrittenStatement(s) + [Lexeme(Eof, "")];
    FittingStatementIsWellFormed(s);
  }

  function NoGaps(n: nat): (gaps: seq<string>)
    ensures Gaps(gaps, n)
  {
    seq(n + 1, _ => "")
  }

  /** A tree is the parse of some text iff it is well formed, so the round trip covers every tree the parser knows. */
  lemma {:induction false} ParsesIffWellFormed(ast: Ast)
    ensures (exists text :: Parse(text) == Accepted(ast)) <==> WellFormedStatement(ast)
  {
    hide Parse, WellFormedStatement, WriteStatement, WrittenStatement, Gaps;
    if WellFormedStatement(ast) {
      var minimal: Ast -> bool := _ => false;
      var ls := WrittenStatement(WriteStatement(ast, minimal));
      RoundTrip.TextRoundTrip(ast, minimal, NoGaps(|ls|));
      assert Parse(Text(ls, NoGaps(|ls|))) == Accepted(ast);
    }
    if text :| Parse(text) == Accepted(ast) {
      AcceptedIsWellFormed(text);
    }
  }
}
