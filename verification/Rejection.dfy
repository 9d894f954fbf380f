/** What a syntax error says is true of the token it points at. */
module Rejection {
  import opened Values
  import opened Lexer
  import opened Parser
  import opened Syntax
  import RoundTrip
  import Derivation

  /** A run of name tokens from `i` on, with no name behind it, that is blank when joined. */
  predicate BlankName(ts: Tokens, i: nat) {
    exists j :: i < j < |ts| && !IsName(Kind(ts, j)) && (forall k :: i <= k < j ==> IsName(Kind(ts, k))) && Spoken(Derivation.Span(ts, i, j)) == ""
  }

  /** The token does not go where the code says. */
  predicate Blames(ts: Tokens, i: nat, code: ParseCode)
    requires i < |ts|
  {
    match code
    case ExpectedOperand => !IsName(Kind(ts, i)) && Kind(ts, i) != LParen && Kind(ts, i) != Minus
    case ExpectedRParen => Kind(ts, i) != RParen && Kind(ts, i) != Comma && i > 0
    case ExpectedIdentifier => BlankName(ts, i)
    case InvalidReference => i > 0 && Kind(ts, i - 1) == Dot && !IsName(Kind(ts, i))
    case InvalidAssignTarget => i > 0 && Kind(ts, i) == TokenType.Assign
    case TrailingTokens => i > 0 && Kind(ts, i) != Eof
    case EmptyInput => false
  }

  ghost predicate Justified<T>(ts: Tokens, r: Parsed<T>) {
    r.Raised? ==> exists i :: 0 <= i < |ts| && ts[i] == r.token && Blames(ts, i, r.code)
  }

  lemma RaisedAt<T>(ts: Tokens, i: nat, code: ParseCode, r: Parsed<T>)
    requires i < |ts| && Blames(ts, i, code) && r == Raised(code, ts[i])
    ensures Justified(ts, r)
  {
  }

  lemma Passed<T, U>(ts: Tokens, r: Parsed<T>, q: Parsed<U>)
    requires Justified(ts, r) && r.Raised? && q == Raised(r.code, r.token)
    ensures Justified(ts, q)
  {
  }

  lemma {:induction false} EntityJustified(ts: Tokens, i: nat)
    requires i < |ts| && IsName(Kind(ts, i))
    ensures Justified(ts, ParseEntity(ts, i))
  {
    hide Strip, Joined, Spaced, Justified, BlankName, NameEnd;
    var j := NameEnd(ts, i);
    Derivation.NamesUpTo(ts, i);
    var r := ParseEntity(ts, i);
    var name := Strip(Joined(ts[i..j]));
    if name == "" {
      var words := Derivation.Span(ts, i, j);
      RoundTrip.JoinedIsSpaced(ts[i..j], words);
      IsBlankName(ts, i, j);
      RaisedAt(ts, i, ExpectedIdentifier, r);
    } else if Kind(ts, j) == Dot && !IsName(Kind(ts, j + 1)) {
      RaisedAt(ts, j + 1, InvalidReference, r);
    } else {
      AcceptedIsJustified(ts, r);
    }
  }

  lemma IsBlankName(ts: Tokens, i: nat, j: nat)
    requires i < j < |ts| && !IsName(Kind(ts, j)) && (forall k :: i <= k < j ==> IsName(Kind(ts, k))) && Spoken(Derivation.Span(ts, i, j)) == ""
    ensures BlankName(ts, i)
  {
  }

  lemma AcceptedIsJustified<T>(ts: Tokens, r: Parsed<T>)
    requires r.Ok?
    ensures Justified(ts, r)
  {
  }

  lemma {:induction false} PrimaryJustified(ts: Tokens, i: nat)
    requires i < |ts| && Kind(ts, i) != Minus
    ensures Justified(ts, ParsePrimary(ts, i))
    decreases |ts| - i, 0
  {
    hide ParseGroup, ParseEntity, Justified;
    if Kind(ts, i) == LParen {
      GroupJustified(ts, i + 1);
    } else if IsName(Kind(ts, i)) {
      EntityJustified(ts, i);
    } else {
      RaisedAt(ts, i, ExpectedOperand, ParsePrimary(ts, i));
    }
  }

  lemma {:induction false} UnaryJustified(ts: Tokens, i: nat)
    requires i < |ts|
    ensures Justified(ts, ParseUnary(ts, i))
    decreases |ts| - i, 1
  {
    hide ParsePrimary, Blames;
    if Kind(ts, i) == Minus { UnaryJustified(ts, i + 1); } else { PrimaryJustified(ts, i); }
  }

  lemma {:induction false} TypeJustified(ts: Tokens, i: nat)
    requires i < |ts|
    ensures Justified(ts, ParseType(ts, i))
    decreases |ts| - i, 2
  {
    hide ParseUnary, TypeTail, Blames;
    UnaryJustified(ts, i);
    var r := ParseUnary(ts, i);
    if r.Ok? { TypeTailJustified(ts, r.next, r.node); }
  }

  lemma {:induction false} TypeTailJustified(ts: Tokens, i: nat, node: Ast)
    requires i < |ts|
    ensures Justified(ts, TypeTail(ts, i, node))
    decreases |ts| - i, 2
  {
    hide ParseUnary, Blames;
    if Kind(ts, i) == Colon {
      UnaryJustified(ts, i + 1);
      var r := ParseUnary(ts, i + 1);
      if r.Ok? { TypeTailJustified(ts, r.next, TypeLink(node, r.node)); }
    }
  }

  lemma {:induction false} RelationJustified(ts: Tokens, i: nat)
    requires i < |ts|
    ensures Justified(ts, ParseRelation(ts, i))
    decreases |ts| - i, 3
  {
    hide ParseType, RelationTail, Blames;
    TypeJustified(ts, i);
    var r := ParseType(ts, i);
    if r.Ok? { RelationTailJustified(ts, r.next, r.node); }
  }

  lemma {:induction false} RelationTailJustified(ts: Tokens, i: nat, node: Ast)
    requires i < |ts|
    ensures Justified(ts, RelationTail(ts, i, node))
    decreases |ts| - i, 3
  {
    hide ParseType, Blames;
    if Kind(ts, i) == Plus {
      TypeJustified(ts, i + 1);
      var r := ParseType(ts, i + 1);
      if r.Ok? { RelationTailJustified(ts, r.next, RelationLink(node, r.node)); }
    }
  }

  lemma ClosingJustified(ts: Tokens, i: nat, node: Ast)
    requires 0 < i < |ts| && Kind(ts, i) != Comma
    ensures Justified(ts, Closing(ts, i, node))
  {
    hide Justified;
    if Kind(ts, i) != RParen {
      RaisedAt(ts, i, ExpectedRParen, Closing(ts, i, node));
    } else {
      AcceptedIsJustified(ts, Closing(ts, i, node));
    }
  }

  lemma {:induction false} GroupJustified(ts: Tokens, i: nat)
    requires i < |ts|
    ensures Justified(ts, ParseGroup(ts, i))
    decreases |ts| - i, 4
  {
    hide ParseRelation, GroupTail, Justified, Closing;
    if Kind(ts, i) == RParen {
      RaisedAt(ts, i, ExpectedOperand, ParseGroup(ts, i));
    } else {
      RelationJustified(ts, i);
      var r := ParseRelation(ts, i);
      if r.Raised? {
        Passed(ts, r, ParseGroup(ts, i));
      } else if Kind(ts, r.next) != Comma {
        ClosingJustified(ts, r.next, r.node);
      } else {
        GroupTailJustified(ts, r.next + 1, [r.node]);
        var rest := GroupTail(ts, r.next + 1, [r.node]);
        if rest.Raised? {
          Passed(ts, rest, ParseGroup(ts, i));
        } else {
          ClosingJustified(ts, rest.next, Group(rest.node));
        }
      }
    }
  }

  lemma {:induction false} GroupTailJustified(ts: Tokens, i: nat, items: seq<Ast>)
    requires i < |ts|
    ensures Justified(ts, GroupTail(ts, i, items))
    ensures GroupTail(ts, i, items).Ok? ==> Kind(ts, GroupTail(ts, i, items).next) != Comma
    decreases |ts| - i, 4
  {
    hide ParseRelation, Justified;
    RelationJustified(ts, i);
    var r := ParseRelation(ts, i);
    if r.Raised? {
      Passed(ts, r, GroupTail(ts, i, items));
    } else if Kind(ts, r.next) == Comma {
      GroupTailJustified(ts, r.next + 1, items + [r.node]);
    } else {
      AcceptedIsJustified(ts, GroupTail(ts, i, items));
    }
  }

  lemma {:induction false} ValueJustified(ts: Tokens, i: nat)
    requires i < |ts|
    ensures Justified(ts, ParseAssignedValue(ts, i))
  {
    hide ParseRelation, Blames;
    RelationJustified(ts, i);
  }

  lemma {:induction false} TokensJustified(ts: Tokens)
    ensures Justified(ts, ParseTokens(ts))
  {
    hide ParseRelation, ParseAssignedValue, Justified;
    RelationJustified(ts, 0);
    var r := ParseRelation(ts, 0);
    var all := ParseTokens(ts);
    if r.Raised? {
      Passed(ts, r, all);
    } else if Kind(ts, r.next) == TokenType.Assign {
      ValueJustified(ts, r.next + 1);
      var value := ParseAssignedValue(ts, r.next + 1);
      if !r.node.Reference? { RaisedAt(ts, r.next, InvalidAssignTarget, all); }
      else if value.Raised? { Passed(ts, value, all); }
      else { EndJustified(ts, value.next, all); }
    } else if Kind(ts, r.next) == Arrow {
      RelationJustified(ts, r.next + 1);
      var target := ParseRelation(ts, r.next + 1);
      if target.Raised? { Passed(ts, target, all); } else { EndJustified(ts, target.next, all); }
    } else {
      EndJustified(ts, r.next, all);
    }
  }

  lemma EndJustified(ts: Tokens, i: nat, all: Parsed<Ast>)
    requires 0 < i < |ts| && if Kind(ts, i) == Eof then all.Ok? else all == Raised(TrailingTokens, ts[i])
    ensures Justified(ts, all)
  {
    hide Justified;
    if Kind(ts, i) == Eof { AcceptedIsJustified(ts, all); } else { RaisedAt(ts, i, TrailingTokens, all); }
  }

  /**
   A text without lexical errors that is blank is rejected as empty; any other syntax error points at a token
   of the text of which its code is true.
   */
  lemma {:induction false} RejectionIsJustified(text: string)
    ensures LexFrom(text, 0).errors != [] <==> Parse(text).LexErrors?
    ensures Parse(text).LexErrors? ==> Parse(text).errors == LexFrom(text, 0).errors
    ensures LexFrom(text, 0).errors == [] && Strip(text) == "" ==> Parse(text) == SyntaxError(EmptyInput, 0, 0)
    ensures Parse(text).SyntaxError? && Strip(text) != "" ==>
              var r := Parse(text);
              var ts := LexFrom(text, 0).tokens;
              Terminated(ts) && exists i :: 0 <= i < |ts| && ts[i].start == r.start && ts[i].end == r.end && Blames(ts, i, r.code)
  {
    hide LexFrom, ParseTokens, Strip, Blames;
    EofComesLast(text, 0);
    if LexFrom(text, 0).errors == [] { TokensJustified(LexFrom(text, 0).tokens); }
  }
}
