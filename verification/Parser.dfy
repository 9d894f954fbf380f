/** The recursive-descent parser over the lexer's tokens, with one cursor that only moves forward. */
module Parser {
  import opened Values
  import opened Lexer

  datatype Ast =
    | Entity(name: string)
    | Reference(entity: string, field: string)
    | Literal(value: string)
    | Group(items: seq<Ast>)
    | TypeLink(left: Ast, right: Ast)
    | RelationLink(left: Ast, right: Ast)
    | Flow(source: Ast, target: Ast)
    | Assignment(entity: string, field: string, content: Ast)
    | Extinguish(target: Ast)

  datatype ParseCode =
    | EmptyInput | TrailingTokens | InvalidAssignTarget | ExpectedOperand | ExpectedRParen
    | ExpectedIdentifier | InvalidReference

  /** A parsed node with the cursor behind it, or the syntax error raised at a token. */
  datatype Parsed<+T> = Ok(node: T, next: nat) | Raised(code: ParseCode, token: Token)

  /** Token lists as the lexer delivers them: the end marker comes last and only there. */
  predicate Terminated(ts: seq<Token>) {
    ts != [] && forall k :: 0 <= k < |ts| ==> (ts[k].lexeme.kind == Eof <==> k == |ts| - 1)
  }

  type Tokens = ts: seq<Token> | Terminated(ts) witness [Token(Lexeme(Eof, ""), 0, 0)]

  function Kind(ts: Tokens, i: nat): TokenType
    requires i < |ts|
  {
    ts[i].lexeme.kind
  }

  predicate Advances<T>(ts: Tokens, i: nat, r: Parsed<T>) {
    r.Ok? ==> i < r.next < |ts|
  }

  predicate IsName(kind: TokenType) {
    kind == TokenType.Atom || kind == TokenType.String
  }

  // ---------- The grammar ----------

  function ParseRelation(ts: Tokens, i: nat): (r: Parsed<Ast>)
    requires i < |ts|
    ensures Advances(ts, i, r)
    decreases |ts| - i, 3
  {
    match ParseType(ts, i)
    case Ok(node, j) => RelationTail(ts, j, node)
    case e => e
  }

  function RelationTail(ts: Tokens, i: nat, node: Ast): (r: Parsed<Ast>)
    requires i < |ts|
    ensures r.Ok? ==> i <= r.next < |ts|
    decreases |ts| - i, 3
  {
    if Kind(ts, i) != Plus then Ok(node, i) else
      match ParseType(ts, i + 1)
      case Ok(right, j) => RelationTail(ts, j, RelationLink(node, right))
      case e => e
  }

  function ParseType(ts: Tokens, i: nat): (r: Parsed<Ast>)
    requires i < |ts|
    ensures Advances(ts, i, r)
    decreases |ts| - i, 2
  {
    match ParseUnary(ts, i)
    case Ok(node, j) => TypeTail(ts, j, node)
    case e => e
  }

  function TypeTail(ts: Tokens, i: nat, node: Ast): (r: Parsed<Ast>)
    requires i < |ts|
    ensures r.Ok? ==> i <= r.next < |ts|
    decreases |ts| - i, 2
  {
    if Kind(ts, i) != Colon then Ok(node, i) else
      match ParseUnary(ts, i + 1)
      case Ok(right, j) => TypeTail(ts, j, TypeLink(node, right))
      case e => e
  }

  function ParseUnary(ts: Tokens, i: nat): (r: Parsed<Ast>)
    requires i < |ts|
    ensures Advances(ts, i, r)
    decreases |ts| - i, 1
  {
    if Kind(ts, i) == Minus then
      match ParseUnary(ts, i + 1)
      case Ok(target, j) => Ok(Extinguish(target), j)
      case e => e
    else ParsePrimary(ts, i)
  }

  function ParsePrimary(ts: Tokens, i: nat): (r: Parsed<Ast>)
    requires i < |ts|
    ensures Advances(ts, i, r)
    decreases |ts| - i, 0
  {
    if Kind(ts, i) == LParen then ParseGroup(ts, i + 1)
    else if IsName(Kind(ts, i)) then ParseEntity(ts, i)
    else Raised(ExpectedOperand, ts[i])
  }

  function Closing(ts: Tokens, i: nat, node: Ast): (r: Parsed<Ast>)
    requires i < |ts|
    ensures Advances(ts, i, r)
  {
    if Kind(ts, i) == RParen then Ok(node, i + 1) else Raised(ExpectedRParen, ts[i])
  }

  /** Behind an opening parenthesis: one expression, or a group of two or more. */
  function ParseGroup(ts: Tokens, i: nat): (r: Parsed<Ast>)
    requires i < |ts|
    ensures Advances(ts, i, r)
    decreases |ts| - i, 4
  {
    if Kind(ts, i) == RParen then Raised(ExpectedOperand, ts[i]) else
      match ParseRelation(ts, i)
      case Raised(code, token) => Raised(code, token)
      case Ok(first, j) =>
        if Kind(ts, j) != Comma then Closing(ts, j, first) else
          match GroupTail(ts, j + 1, [first])
          case Ok(items, k) => Closing(ts, k, Group(items))
          case Raised(code, token) => Raised(code, token)
  }

  function GroupTail(ts: Tokens, i: nat, items: seq<Ast>): (r: Parsed<seq<Ast>>)
    requires i < |ts|
    ensures Advances(ts, i, r)
    decreases |ts| - i, 4
  {
    match ParseRelation(ts, i)
    case Raised(code, token) => Raised(code, token)
    case Ok(item, j) =>
      if Kind(ts, j) == Comma then GroupTail(ts, j + 1, items + [item]) else Ok(items + [item], j)
  }

  /** The index behind a run of name tokens. */
  function NameEnd(ts: Tokens, i: nat): (j: nat)
    requires i < |ts|
    ensures i <= j < |ts| && !IsName(Kind(ts, j))
    ensures IsName(Kind(ts, i)) ==> i < j
    decreases |ts| - i
  {
    if IsName(Kind(ts, i)) then NameEnd(ts, i + 1) else i
  }

  /** `" ".join` of the token values. */
  function Joined(ts: seq<Token>): string {
    if ts == [] then ""
    else if |ts| == 1 then ts[0].lexeme.value
    else Joined(ts[..|ts| - 1]) + " " + ts[|ts| - 1].lexeme.value
  }

  function ParseEntity(ts: Tokens, i: nat): (r: Parsed<Ast>)
    requires i < |ts| && IsName(Kind(ts, i))
    ensures Advances(ts, i, r)
  {
    var j := NameEnd(ts, i);
    var name := Strip(Joined(ts[i..j]));
    if name == "" then Raised(ExpectedIdentifier, ts[i])
    else if Kind(ts, j) != Dot then Ok(Entity(name), j)
    else if !IsName(Kind(ts, j + 1)) then Raised(InvalidReference, ts[j + 1])
    else Ok(Reference(name, ts[j + 1].lexeme.value), j + 2)
  }

  function PeekNext(ts: Tokens, i: nat): TokenType
    requires i < |ts|
  {
    if i + 1 >= |ts| then Kind(ts, |ts| - 1) else Kind(ts, i + 1)
  }

  function ParseAssignedValue(ts: Tokens, i: nat): (r: Parsed<Ast>)
    requires i < |ts|
    ensures Advances(ts, i, r)
  {
    if Kind(ts, i) == TokenType.String || (Kind(ts, i) == TokenType.Atom && PeekNext(ts, i) in {Eof, Comma, RParen})
    then Ok(Literal(ts[i].lexeme.value), i + 1)
    else ParseRelation(ts, i)
  }

  function ParseStatement(ts: Tokens, i: nat): (r: Parsed<Ast>)
    requires i < |ts|
    ensures Advances(ts, i, r)
  {
    match ParseRelation(ts, i)
    case Raised(code, token) => Raised(code, token)
    case Ok(expression, j) =>
      if Kind(ts, j) == TokenType.Assign then
        if !expression.Reference? then Raised(InvalidAssignTarget, ts[j]) else
          match ParseAssignedValue(ts, j + 1)
          case Ok(value, k) => Ok(Assignment(expression.entity, expression.field, value), k)
          case e => e
      else if Kind(ts, j) == Arrow then
        match ParseRelation(ts, j + 1)
        case Ok(target, k) => Ok(Flow(expression, target), k)
        case e => e
      else Ok(expression, j)
  }

  function ParseTokens(ts: Tokens): Parsed<Ast> {
    match ParseStatement(ts, 0)
    case Raised(code, token) => Raised(code, token)
    case Ok(node, j) => if Kind(ts, j) == Eof then Ok(node, j + 1) else Raised(TrailingTokens, ts[j])
  }

  datatype ParseResult = Accepted(node: Ast) | LexErrors(errors: seq<LexError>) | SyntaxError(code: ParseCode, start: nat, end: nat)

  function Parse(text: string): ParseResult {
    var lexed := LexFrom(text, 0);
    if lexed.errors != [] then LexErrors(lexed.errors)
    else if Strip(text) == "" then SyntaxError(EmptyInput, 0, 0)
    else
      EofComesLast(text, 0);
      match ParseTokens(lexed.tokens)
      case Ok(node, _) => Accepted(node)
      case Raised(code, token) => SyntaxError(code, token.start, token.end)
  }

  // ---------- The parser object ----------

  datatype Outcome<+T> = Node(node: T) | Exception(code: ParseCode, token: Token)

  /** The methods follow the grammar with the cursor in the field `current`. */
  class Service {
    var tokens: Tokens
    var current: nat

    constructor ()
      ensures current < |tokens|
    {
      tokens, current := [Token(Lexeme(Eof, ""), 0, 0)], 0;
    }

    /** The cursor stays inside the token list whenever a token may still be looked at. */
    predicate InRange()
      reads this
    {
      current < |tokens|
    }

    /** The method call behaved as the grammar function says. */
    ghost predicate Agrees(r: Outcome<Ast>, p: Parsed<Ast>)
      reads this
    {
      match p
      case Ok(node, next) => r == Node(node) && current == next && InRange()
      case Raised(code, token) => r == Exception(code, token)
    }

    method Match(kind: TokenType) returns (b: bool)
      requires InRange() && kind != Eof
      modifies `current
      ensures b == (Kind(tokens, old(current)) == kind)
      ensures current == (if b then old(current) + 1 else old(current)) && InRange()
    {
      if Kind(tokens, current) != kind {
        return false;
      }
      current := current + 1;
      return true;
    }

    method ParseRelationExpression() returns (r: Outcome<Ast>)
      requires InRange()
      modifies `current
      ensures Agrees(r, ParseRelation(tokens, old(current)))
      decreases |tokens| - current, 3
    {
      r := ParseTypeExpression();
      if r.Exception? { return; }
      var node := r.node;
      var plus := Match(Plus);
      while plus
        invariant InRange() && current >= old(current) + (if plus then 1 else 0)
        invariant plus ==> Kind(tokens, current - 1) == Plus &&
                           ParseRelation(tokens, old(current)) == RelationTail(tokens, current - 1, node)
        invariant !plus ==> ParseRelation(tokens, old(current)) == Ok(node, current)
        decreases |tokens| - current, plus
      {
        var right := ParseTypeExpression();
        if right.Exception? { return right; }
        node := RelationLink(node, right.node);
        plus := Match(Plus);
      }
      return Node(node);
    }

    method ParseTypeExpression() returns (r: Outcome<Ast>)
      requires InRange()
      modifies `current
      ensures Agrees(r, ParseType(tokens, old(current)))
      decreases |tokens| - current, 2
    {
      r := ParseUnaryExpression();
      if r.Exception? { return; }
      var node := r.node;
      var colon := Match(Colon);
      while colon
        invariant InRange() && current >= old(current) + (if colon then 1 else 0)
        invariant colon ==> Kind(tokens, current - 1) == Colon &&
                            ParseType(tokens, old(current)) == TypeTail(tokens, current - 1, node)
        invariant !colon ==> ParseType(tokens, old(current)) == Ok(node, current)
        decreases |tokens| - current, colon
      {
        var right := ParseUnaryExpression();
        if right.Exception? { return right; }
        node := TypeLink(node, right.node);
        colon := Match(Colon);
      }
      return Node(node);
    }

    method ParseUnaryExpression() returns (r: Outcome<Ast>)
      requires InRange()
      modifies `current
      ensures Agrees(r, ParseUnary(tokens, old(current)))
      decreases |tokens| - current, 1
    {
      var minus := Match(Minus);
      if minus {
        r := ParseUnaryExpression();
        if r.Node? { r := Node(Extinguish(r.node)); }
      } else {
        r := ParsePrimaryExpression();
      }
    }

    method ParsePrimaryExpression() returns (r: Outcome<Ast>)
      requires InRange()
      modifies `current
      ensures Agrees(r, ParsePrimary(tokens, old(current)))
      decreases |tokens| - current, 0
    {
      var open := Match(LParen);
      if open {
        r := ParseGroupOrParenthesized();
      } else if IsName(Kind(tokens, current)) {
        r := ParseEntityOrReference();
      } else {
        r := Exception(ExpectedOperand, tokens[current]);
      }
    }

    method ParseGroupOrParenthesized() returns (r: Outcome<Ast>)
      requires InRange()
      modifies `current
      ensures Agrees(r, ParseGroup(tokens, old(current)))
      decreases |tokens| - current, 4
    {
      if Kind(tokens, current) == RParen {
        return Exception(ExpectedOperand, tokens[current]);
      }
      r := ParseRelationExpression();
      if r.Exception? { return; }
      var comma := Match(Comma);
      if comma {
        var items := [r.node];
        ghost var start := current;
        while comma
          invariant InRange() && old(current) < start <= current
          invariant comma ==> GroupTail(tokens, start, [r.node]) == GroupTail(tokens, current, items)
          invariant !comma ==> GroupTail(tokens, start, [r.node]) == Ok(items, current)
          decreases |tokens| - current, comma
        {
          var item := ParseRelationExpression();
          if item.Exception? { return item; }
          items := items + [item.node];
          comma := Match(Comma);
        }
        r := Node(Group(items));
      }
      if Kind(tokens, current) != RParen {
        return Exception(ExpectedRParen, tokens[current]);
      }
      current := current + 1;
    }

    method ParseEntityOrReference() returns (r: Outcome<Ast>)
      requires InRange() && IsName(Kind(tokens, current))
      modifies `current
      ensures Agrees(r, ParseEntity(tokens, old(current)))
    {
      hide Joined, Strip;
      var nameTokens: seq<Token> := [];
      ghost var start := current;
      while IsName(Kind(tokens, current))
        invariant start <= current && InRange()
        invariant nameTokens == tokens[start..current]
        invariant NameEnd(tokens, start) == NameEnd(tokens, current)
        decreases |tokens| - current
      {
        nameTokens := nameTokens + [tokens[current]];
        current := current + 1;
      }
      var name := Strip(Joined(nameTokens));
      if name == "" {
        return Exception(ExpectedIdentifier, nameTokens[0]);
      }
      var dot := Match(Dot);
      if dot {
        if !IsName(Kind(tokens, current)) {
          return Exception(InvalidReference, tokens[current]);
        }
        current := current + 1;
        return Node(Reference(name, tokens[current - 1].lexeme.value));
      }
      return Node(Entity(name));
    }

    method ParseAssignmentValue() returns (r: Outcome<Ast>)
      requires InRange()
      modifies `current
      ensures Agrees(r, ParseAssignedValue(tokens, old(current)))
    {
      if Kind(tokens, current) == TokenType.String ||
         (Kind(tokens, current) == TokenType.Atom && PeekNext(tokens, current) in {Eof, Comma, RParen}) {
        current := current + 1;
        return Node(Literal(tokens[current - 1].lexeme.value));
      }
      r := ParseRelationExpression();
    }

    method ParseStatementExpression() returns (r: Outcome<Ast>)
      requires InRange()
      modifies `current
      ensures Agrees(r, ParseStatement(tokens, old(current)))
    {
      r := ParseRelationExpression();
      if r.Exception? { return; }
      var expression := r.node;
      var assign := Match(TokenType.Assign);
      if assign {
        if !expression.Reference? {
          return Exception(InvalidAssignTarget, tokens[current - 1]);
        }
        r := ParseAssignmentValue();
        if r.Node? { r := Node(Assignment(expression.entity, expression.field, r.node)); }
        return;
      }
      var arrow := Match(Arrow);
      if arrow {
        r := ParseRelationExpression();
        if r.Node? { r := Node(Flow(expression, r.node)); }
      }
    }

    method ParseText(text: string) returns (r: ParseResult)
      modifies this
      ensures r == Parse(text)
    {
      var lexed, errors := Tokenize(text);
      if errors != [] {
        return LexErrors(errors);
      }
      if Strip(text) == "" {
        return SyntaxError(EmptyInput, 0, 0);
      }
      EofComesLast(text, 0);
      tokens, current := lexed, 0;
      var outcome := ParseStatementExpression();
      match outcome
      case Exception(code, token) => return SyntaxError(code, token.start, token.end);
      case Node(node) =>
        var token := tokens[current];
        if token.lexeme.kind != Eof {
          return SyntaxError(TrailingTokens, token.start, token.end);
        }
        return Accepted(node);
    }
  }
}
