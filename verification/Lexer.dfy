/** The character lexer: whitespace, two- and one-character operators, quoted strings with escapes, atoms. */
module Lexer {
  import opened Values

  datatype TokenType =
    | Atom | String | Colon | Plus | Arrow | Assign | Minus | Dot | Comma | LParen | RParen | Eof

  /** What the parser looks at: the type and the value of a token. */
  datatype Lexeme = Lexeme(kind: TokenType, value: string)

  datatype Token = Token(lexeme: Lexeme, start: nat, end: nat)

  datatype LexCode = InvalidControlChar | UnterminatedString

  datatype LexError = LexError(code: LexCode, start: nat, end: nat)

  datatype Lexed = Lexed(tokens: seq<Token>, errors: seq<LexError>)

  const CONTROL_CHAR_MIN := 0x20

  predicate IsQuote(c: char) {
    c == '"' || c == '\''
  }

  /** The two-character operator starting at `i`, if any. */
  function Operator2(text: string, i: nat): Option<TokenType>
    requires i < |text|
  {
    if i + 1 >= |text| then None
    else if text[i] == '-' && text[i + 1] == '>' then Some(Arrow)
    else if text[i] == ':' && text[i + 1] == '=' then Some(Assign)
    else None
  }

  function Operator1(c: char): Option<TokenType> {
    match c
    case ':' => Some(Colon)
    case '+' => Some(Plus)
    case '-' => Some(Minus)
    case '.' => Some(Dot)
    case ',' => Some(Comma)
    case '(' => Some(LParen)
    case ')' => Some(RParen)
    case '=' => Some(Assign)
    case _ => None
  }

  /** The characters at which the atom scanner stops. */
  predicate StopsAtom(text: string, i: nat)
    requires i < |text|
  {
    || text[i] as int < CONTROL_CHAR_MIN
    || IsSpace(text[i])
    || text[i] in {':', '+', '.', ',', '(', ')', '=', '"', '\''}
    || Operator2(text, i).Some?
  }

  function AtomEnd(text: string, i: nat): (end: nat)
    requires i <= |text|
    ensures i <= end <= |text|
    ensures end < |text| ==> StopsAtom(text, end)
    ensures forall j :: i <= j < end ==> !StopsAtom(text, j)
    decreases |text| - i
  {
    if i < |text| && !StopsAtom(text, i) then AtomEnd(text, i + 1) else i
  }

  function Prepend(head: string, r: Option<(string, nat)>): Option<(string, nat)> {
    match r
    case Some(rest) => Some((head + rest.0, rest.1))
    case None => None
  }

  lemma PrependTwice(a: string, b: string, r: Option<(string, nat)>)
    ensures Prepend(a, Prepend(b, r)) == Prepend(a + b, r)
    ensures Prepend("", r) == r
  {
    if r.Some? {
      assert a + (b + r.value.0) == (a + b) + r.value.0;
      assert "" + r.value.0 == r.value.0;
    }
  }

  /** The characters up to the closing quote with their escapes resolved, and the index after it. */
  function Unquote(text: string, i: nat, quote: char): (r: Option<(string, nat)>)
    requires i <= |text|
    ensures r.Some? ==> i < r.value.1 <= |text| && text[r.value.1 - 1] == quote
    decreases |text| - i
  {
    if i == |text| then None
    else if text[i] == '\\' && i + 1 < |text| then Prepend([text[i + 1]], Unquote(text, i + 2, quote))
    else if text[i] == quote then Some(("", i + 1))
    else Prepend([text[i]], Unquote(text, i + 1, quote))
  }

  /** One turn of the dispatcher: at most one token or error, and where to go on. */
  datatype Turn = Turn(token: Option<Token>, error: Option<LexError>, next: nat)

  function Dispatch(text: string, i: nat): (t: Turn)
    requires i < |text|
    ensures i < t.next <= |text|
  {
    var ch := text[i];
    if IsSpace(ch) then Turn(None, None, i + 1)
    else if ch as int < CONTROL_CHAR_MIN then Turn(None, Some(LexError(InvalidControlChar, i, i + 1)), i + 1)
    else if Operator2(text, i).Some? then
      Turn(Some(Token(Lexeme(Operator2(text, i).value, text[i..i + 2]), i, i + 2)), None, i + 2)
    else if IsQuote(ch) then
      match Unquote(text, i + 1, ch)
      case Some(r) => Turn(Some(Token(Lexeme(String, r.0), i, r.1)), None, r.1)
      case None => Turn(None, Some(LexError(UnterminatedString, i, |text|)), |text|)
    else if Operator1(ch).Some? then
      Turn(Some(Token(Lexeme(Operator1(ch).value, [ch]), i, i + 1)), None, i + 1)
    else
      var end := AtomEnd(text, i);
      Turn(Some(Token(Lexeme(Atom, text[i..end]), i, end)), None, end)
  }

  function OptionSeq<T>(o: Option<T>): seq<T> {
    match o
    case Some(x) => [x]
    case None => []
  }

  /** Everything lexed from `i` on, closed by the end-of-input token. */
  function LexFrom(text: string, i: nat): Lexed
    requires i <= |text|
    decreases |text| - i
  {
    if i == |text| then Lexed([Token(Lexeme(Eof, ""), |text|, |text|)], []) else
      var turn := Dispatch(text, i);
      var rest := LexFrom(text, turn.next);
      Lexed(OptionSeq(turn.token) + rest.tokens, OptionSeq(turn.error) + rest.errors)
  }

  // ---------- The loops of the lexer ----------

  method ConsumeString(text: string, startIndex: nat) returns (token: Option<Token>, next: nat, error: Option<LexError>)
    requires startIndex < |text|
    ensures match Unquote(text, startIndex + 1, text[startIndex])
            case Some(r) => token == Some(Token(Lexeme(String, r.0), startIndex, r.1)) && next == r.1 && error == None
            case None => token == None && next == |text| && error == Some(LexError(UnterminatedString, startIndex, |text|))
  {
    var quote := text[startIndex];
    var index := startIndex + 1;
    var value := "";
    PrependTwice("", "", Unquote(text, index, quote));
    while index < |text|
      invariant index <= |text|
      invariant Unquote(text, startIndex + 1, quote) == Prepend(value, Unquote(text, index, quote))
      decreases |text| - index
    {
      var ch := text[index];
      if ch == '\\' && index + 1 < |text| {
        PrependTwice(value, [text[index + 1]], Unquote(text, index + 2, quote));
      } else if ch != quote {
        PrependTwice(value, [ch], Unquote(text, index + 1, quote));
      }
      if ch == '\\' && index + 1 < |text| {
        value := value + [text[index + 1]];
        index := index + 2;
      } else if ch == quote {
        token := Some(Token(Lexeme(String, value), startIndex, index + 1));
        assert value + "" == value;
        return token, index + 1, None;
      } else {
        value := value + [ch];
        index := index + 1;
      }
    }
    return None, |text|, Some(LexError(UnterminatedString, startIndex, |text|));
  }

  method ConsumeAtom(text: string, startIndex: nat) returns (token: Token, next: nat)
    requires startIndex <= |text|
    ensures next == AtomEnd(text, startIndex)
    ensures token == Token(Lexeme(Atom, text[startIndex..next]), startIndex, next)
  {
    var index := startIndex;
    while index < |text|
      invariant startIndex <= index <= |text|
      invariant AtomEnd(text, startIndex) == AtomEnd(text, index)
    {
      if StopsAtom(text, index) {
        break;
      }
      index := index + 1;
    }
    return Token(Lexeme(Atom, text[startIndex..index]), startIndex, index), index;
  }

  lemma Appended<T>(done: seq<T>, o: Option<T>, rest: seq<T>)
    ensures done + (OptionSeq(o) + rest) == (if o.Some? then done + [o.value] else done) + rest
  {
  }

  lemma LexEnd(text: string)
    ensures LexFrom(text, |text|) == Lexed([Token(Lexeme(Eof, ""), |text|, |text|)], [])
  {
  }

  method Tokenize(text: string) returns (tokens: seq<Token>, errors: seq<LexError>)
    ensures Lexed(tokens, errors) == LexFrom(text, 0)
  {
    hide LexFrom, IsSpace, AtomEnd, Unquote, Operator1, Operator2;
    tokens, errors := [], [];
    var index := 0;
    while index < |text|
      invariant index <= |text|
      invariant tokens + LexFrom(text, index).tokens == LexFrom(text, 0).tokens
      invariant errors + LexFrom(text, index).errors == LexFrom(text, 0).errors
      decreases |text| - index
    {
      LexUnfold(text, index);
      ghost var turn := Dispatch(text, index);
      Appended(tokens, turn.token, LexFrom(text, turn.next).tokens);
      Appended(errors, turn.error, LexFrom(text, turn.next).errors);
      var ch := text[index];
      if IsSpace(ch) {
        index := index + 1;
      } else if ch as int < CONTROL_CHAR_MIN {
        errors := errors + [LexError(InvalidControlChar, index, index + 1)];
        index := index + 1;
      } else if Operator2(text, index).Some? {
        tokens := tokens + [Token(Lexeme(Operator2(text, index).value, text[index..index + 2]), index, index + 2)];
        index := index + 2;
      } else if IsQuote(ch) {
        var token, next, error := ConsumeString(text, index);
        if token.Some? {
          tokens := tokens + [token.value];
        }
        if error.Some? {
          errors := errors + [error.value];
        }
        index := next;
      } else if Operator1(ch).Some? {
        tokens := tokens + [Token(Lexeme(Operator1(ch).value, [ch]), index, index + 1)];
        index := index + 1;
      } else {
        var token, next := ConsumeAtom(text, index);
        tokens := tokens + [token];
        index := next;
      }
      assert index == turn.next;
    }
    LexEnd(text);
    tokens := tokens + [Token(Lexeme(Eof, ""), |text|, |text|)];
  }

  // ---------- What lexing guarantees ----------

  /** The dispatcher never hands the atom scanner a character at which it would not move. */
  lemma AtomsAreMaximal(text: string, i: nat)
    requires i < |text|
    ensures Dispatch(text, i).token.Some? && Dispatch(text, i).token.value.lexeme.kind == Atom <==> !StopsAtom(text, i) && text[i] != '-'
    ensures Dispatch(text, i).token.Some? && Dispatch(text, i).token.value.lexeme.kind == Atom ==>
              var end := Dispatch(text, i).next;
              end == |text| || StopsAtom(text, end)
  {
  }

  /** A position that belongs to no token. */
  predicate Uncovered(tokens: seq<Token>, j: nat) {
    forall t :: t in tokens ==> !(t.start <= j < t.end)
  }

  predicate Ordered(tokens: seq<Token>) {
    forall k, m :: 0 <= k < m < |tokens| ==> tokens[k].end <= tokens[m].start
  }

  predicate CopiesSource(text: string, t: Token) {
    t.start <= t.end <= |text| &&
    (t.lexeme.kind == String || t.lexeme.kind == Eof || t.lexeme.value == text[t.start..t.end])
  }

  predicate Faithful(text: string, i: nat, tokens: seq<Token>) {
    Ordered(tokens) && forall k :: 0 <= k < |tokens| ==> i <= tokens[k].start && CopiesSource(text, tokens[k])
  }

  /** Tokens come in order without overlap, and all but strings copy their source text. */
  lemma {:induction false} TokensAreFaithful(text: string, i: nat)
    requires i <= |text|
    ensures Faithful(text, i, LexFrom(text, i).tokens)
    decreases |text| - i
  {
    hide Dispatch, LexFrom;
    if i < |text| {
      var turn := Dispatch(text, i);
      TokensAreFaithful(text, turn.next);
      DispatchIsFaithful(text, i);
      LexUnfold(text, i);
      hide CopiesSource;
      var r := LexFrom(text, i).tokens;
      var shift := |OptionSeq(turn.token)|;
      assert forall k :: shift <= k < |r| ==> r[k] == LexFrom(text, turn.next).tokens[k - shift];
    } else {
      LexEnd(text);
    }
  }

  /** On input without lexical errors, only whitespace lies outside the tokens. */
  lemma {:induction false} GapsAreWhitespace(text: string, i: nat, j: nat)
    requires i <= j < |text| && LexFrom(text, i).errors == []
    requires Uncovered(LexFrom(text, i).tokens, j)
    ensures IsSpace(text[j])
    decreases |text| - i
  {
    hide Dispatch, LexFrom, IsSpace;
    var turn := Dispatch(text, i);
    LexUnfold(text, i);
    DispatchIsFaithful(text, i);
    var r := LexFrom(text, i).tokens;
    if turn.token.Some? { assert turn.token.value == r[0] && r[0] in r; }
    if j >= turn.next {
      forall t | t in LexFrom(text, turn.next).tokens ensures t in r {}
      GapsAreWhitespace(text, turn.next, j);
    }
  }

  lemma {:induction false} LexUnfold(text: string, i: nat)
    requires i < |text|
    ensures var turn := Dispatch(text, i); var rest := LexFrom(text, turn.next);
            LexFrom(text, i) == Lexed(OptionSeq(turn.token) + rest.tokens, OptionSeq(turn.error) + rest.errors)
  {
  }

  lemma DispatchIsFaithful(text: string, i: nat)
    requires i < |text|
    ensures var turn := Dispatch(text, i);
            && (turn.token.Some? ==> turn.token.value.start == i && turn.token.value.end == turn.next
                                     && CopiesSource(text, turn.token.value) && turn.token.value.lexeme.kind != Eof)
            && (turn.token.None? && turn.error.None? ==> IsSpace(text[i]) && turn.next == i + 1)
  {
  }

  /** The last token is the end of input, and no other token is. */
  lemma {:induction false} EofComesLast(text: string, i: nat)
    requires i <= |text|
    ensures var ts := LexFrom(text, i).tokens;
            ts != [] && forall k :: 0 <= k < |ts| ==> (ts[k].lexeme.kind == Eof <==> k == |ts| - 1)
    decreases |text| - i
  {
    if i < |text| {
      var turn := Dispatch(text, i);
      EofComesLast(text, turn.next);
      DispatchIsFaithful(text, i);
      hide Dispatch;
    }
  }

  // ---------- Escaping ----------

  /** Puts a backslash before every backslash and every quote. */
  function Escape(s: string, quote: char): string {
    if s == "" then ""
    else EscapeChar(s[0], quote) + Escape(s[1..], quote)
  }

  predicate At(text: string, i: nat, part: string) {
    i + |part| <= |text| && text[i..i + |part|] == part
  }

  lemma {:induction false} AtSplit(text: string, i: nat, a: string, b: string)
    requires At(text, i, a + b)
    ensures At(text, i, a) && At(text, i + |a|, b) && i + |a| + |b| <= |text|
  {
    assert text[i..i + |a|] == text[i..i + |a + b|][..|a|];
    assert text[i + |a|..i + |a| + |b|] == text[i..i + |a + b|][|a|..];
  }

  lemma {:induction false} AtHas(text: string, i: nat, part: string, k: nat)
    requires At(text, i, part) && k < |part|
    ensures text[i + k] == part[k]
  {
    assert text[i..i + |part|][k] == text[i + k];
  }

  lemma PrependSome(a: string, b: string, n: nat)
    ensures Prepend(a, Some((b, n))) == Some((a + b, n))
  {
  }

  /** The escaped form of one character. */
  function EscapeChar(c: char, quote: char): string {
    if c == '\\' || c == quote then ['\\', c] else [c]
  }

  lemma {:induction false} EscapeStep(s: string, quote: char)
    requires s != ""
    ensures Escape(s, quote) + [quote] == EscapeChar(s[0], quote) + (Escape(s[1..], quote) + [quote])
    ensures |Escape(s, quote)| == |EscapeChar(s[0], quote)| + |Escape(s[1..], quote)|
    ensures [s[0]] + s[1..] == s
  {
    var head, rest := EscapeChar(s[0], quote), Escape(s[1..], quote);
    assert Escape(s, quote) == head + rest;
    hide Escape, EscapeChar;
    assert (head + rest) + [quote] == head + (rest + [quote]);
  }

  lemma {:induction false} UnquoteEnd(text: string, i: nat, quote: char)
    requires IsQuote(quote) && At(text, i, Escape("", quote) + [quote])
    ensures Unquote(text, i, quote) == Some(("", i + |Escape("", quote)| + 1))
  {
    AtHas(text, i, [quote], 0);
  }

  lemma {:induction false} UnquoteStep(text: string, i: nat, c: char, quote: char)
    requires IsQuote(quote) && At(text, i, EscapeChar(c, quote))
    ensures Unquote(text, i, quote) == Prepend([c], Unquote(text, i + |EscapeChar(c, quote)|, quote))
  {
    AtHas(text, i, EscapeChar(c, quote), 0);
    AtHas(text, i, EscapeChar(c, quote), |EscapeChar(c, quote)| - 1);
  }

  /** Quoting is inverted by the string scanner for every string and both quotes. */
  lemma {:induction false} UnquoteInvertsEscape(text: string, i: nat, s: string, quote: char)
    requires IsQuote(quote) && At(text, i, Escape(s, quote) + [quote])
    ensures Unquote(text, i, quote) == Some((s, i + |Escape(s, quote)| + 1))
    decreases |s|
  {
    hide Unquote, Escape, EscapeChar, At;
    if s == "" {
      UnquoteEnd(text, i, quote);
    } else {
      var head, rest := EscapeChar(s[0], quote), Escape(s[1..], quote);
      EscapeStep(s, quote);
      AtSplit(text, i, head, rest + [quote]);
      UnquoteInvertsEscape(text, i + |head|, s[1..], quote);
      UnquoteStep(text, i, s[0], quote);
      PrependSome([s[0]], s[1..], i + |head| + |rest| + 1);
    }
  }
}
