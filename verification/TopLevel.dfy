/** Splitting and counting at the top level of a command text, outside quotes and parentheses. */
module TopLevel {
  import opened Values

  datatype Scan = Scan(depth: nat, quote: Option<char>)

  const START := Scan(0, None)

  predicate IsQuote(c: char) {
    c == '\'' || c == '"'
  }

  function Next(s: Scan, c: char): Scan {
    if IsQuote(c) then
      if s.quote == None then s.(quote := Some(c)) else if s.quote == Some(c) then s.(quote := None) else s
    else if s.quote.Some? then s
    else if c == '(' then s.(depth := s.depth + 1)
    else if c == ')' then s.(depth := if s.depth == 0 then 0 else s.depth - 1)
    else s
  }

  /** The delimiter acts as one: it is met outside quotes and parentheses. */
  predicate Splits(s: Scan, c: char, delimiter: char) {
    !IsQuote(c) && s.quote == None && c != '(' && c != ')' && c == delimiter && s.depth == 0
  }

  function After(text: string): Scan {
    if text == "" then START else Next(After(text[..|text| - 1]), text[|text| - 1])
  }

  function Count(text: string, operator: char): nat {
    if text == "" then 0 else
      var init := text[..|text| - 1];
      Count(init, operator) + (if Splits(After(init), text[|text| - 1], operator) then 1 else 0)
  }

  /** The parts between the delimiters, before trimming. */
  function RawParts(text: string, delimiter: char): (r: seq<string>)
    ensures r != []
  {
    if text == "" then [""] else
      var init, c := text[..|text| - 1], text[|text| - 1];
      var before := RawParts(init, delimiter);
      var last := |before| - 1;
      if Splits(After(init), c, delimiter) then before + [""] else before[..last] + [before[last] + [c]]
  }

  function StripAll(parts: seq<string>): (r: seq<string>)
    ensures |r| == |parts|
  {
    seq(|parts|, i requires 0 <= i < |parts| => Strip(parts[i]))
  }

  /** The finished parts, trimmed, and the characters of the part being collected. */
  ghost predicate Collected(parts: seq<string>, current: string, raw: seq<string>) {
    raw != [] && parts == StripAll(raw[..|raw| - 1]) && current == raw[|raw| - 1]
  }

  lemma {:induction false} CollectedNext(parts: seq<string>, current: string, raw: seq<string>, c: char)
    requires Collected(parts, current, raw)
    ensures Collected(parts, current + [c], raw[..|raw| - 1] + [raw[|raw| - 1] + [c]])
    ensures Collected(parts + [Strip(current)], "", raw + [""])
    ensures parts + [Strip(current)] == StripAll(raw)
  {
    hide Strip;
    var last := |raw| - 1;
    assert (raw[..last] + [raw[last] + [c]])[..last] == raw[..last];
    assert (raw + [""])[..|raw|] == raw;
    assert raw == raw[..last] + [raw[last]];
  }

  method SplitTopLevel(text: string, delimiter: char) returns (parts: seq<string>)
    ensures parts == StripAll(RawParts(text, delimiter))
  {
    hide Strip, Collected, StripAll;
    parts := [];
    var current: string := "";
    var depth: nat := 0;
    var quote: Option<char> := None;
    CollectedNothing();
    for i := 0 to |text|
      invariant After(text[..i]) == Scan(depth, quote)
      invariant Collected(parts, current, RawParts(text[..i], delimiter))
    {
      assert text[..i + 1][..i] == text[..i];
      var ch := text[i];
      CollectedNext(parts, current, RawParts(text[..i], delimiter), ch);
      if IsQuote(ch) {
        if quote == None {
          quote := Some(ch);
        } else if quote == Some(ch) {
          quote := None;
        }
        current := current + [ch];
      } else if quote.Some? {
        current := current + [ch];
      } else if ch == '(' {
        depth := depth + 1;
        current := current + [ch];
      } else if ch == ')' {
        depth := if depth == 0 then 0 else depth - 1;
        current := current + [ch];
      } else if ch == delimiter && depth == 0 {
        parts := parts + [Strip(current)];
        current := "";
      } else {
        current := current + [ch];
      }
    }
    assert text[..|text|] == text;
    CollectedNext(parts, current, RawParts(text, delimiter), ' ');
    parts := parts + [Strip(current)];
  }

  lemma CollectedNothing()
    ensures Collected([], "", [""])
  {
    assert [""][..0] == [];
  }

  method CountTopLevelOperator(text: string, operator: char) returns (count: nat)
    ensures count == Count(text, operator)
  {
    count := 0;
    var depth: nat := 0;
    var quote: Option<char> := None;
    for i := 0 to |text|
      invariant After(text[..i]) == Scan(depth, quote) && count == Count(text[..i], operator)
    {
      assert text[..i + 1][..i] == text[..i];
      var ch := text[i];
      if IsQuote(ch) {
        if quote == None {
          quote := Some(ch);
        } else if quote == Some(ch) {
          quote := None;
        }
      } else if quote.Some? {
      } else if ch == '(' {
        depth := depth + 1;
      } else if ch == ')' {
        depth := if depth == 0 then 0 else depth - 1;
      } else if ch == operator && depth == 0 {
        count := count + 1;
      }
    }
    assert text[..|text|] == text;
  }

  // ---------- Splitting agrees with counting ----------

  function Join(parts: seq<string>, delimiter: char): string {
    if parts == [] then ""
    else if |parts| == 1 then parts[0]
    else Join(parts[..|parts| - 1], delimiter) + [delimiter] + parts[|parts| - 1]
  }

  lemma {:induction false} JoinSnoc(parts: seq<string>, delimiter: char, tail: string)
    requires parts != []
    ensures Join(parts[..|parts| - 1] + [parts[|parts| - 1] + tail], delimiter) == Join(parts, delimiter) + tail
    ensures Join(parts + [""], delimiter) == Join(parts, delimiter) + [delimiter]
  {
    var last := |parts| - 1;
    var longer := parts[..last] + [parts[last] + tail];
    if last > 0 {
      assert longer[..last] == parts[..last];
      assert Join(parts[..last], delimiter) + [delimiter] + (parts[last] + tail) ==
             Join(parts[..last], delimiter) + [delimiter] + parts[last] + tail;
    }
    assert (parts + [""])[..|parts|] == parts;
    assert Join(parts, delimiter) + [delimiter] + "" == Join(parts, delimiter) + [delimiter];
  }

  /** One more part than delimiters, and the untrimmed parts rejoin to the text, for every delimiter. */
  lemma {:induction false} SplitMatchesCount(text: string, delimiter: char)
    ensures |RawParts(text, delimiter)| == Count(text, delimiter) + 1
    ensures Join(RawParts(text, delimiter), delimiter) == text
  {
    hide Join, After;
    if text == "" {
      assert Join([""], delimiter) == "" by { JoinOne("", delimiter); }
    } else {
      var init, c := text[..|text| - 1], text[|text| - 1];
      SplitMatchesCount(init, delimiter);
      JoinSnoc(RawParts(init, delimiter), delimiter, [c]);
      assert init + [c] == text;
    }
  }

  lemma JoinOne(part: string, delimiter: char)
    ensures Join([part], delimiter) == part
  {
  }

  /** The scanner is back at its start after every split, so a part is scanned as if it stood alone. */
  lemma {:induction false} PartsStandAlone(text: string, delimiter: char, k: nat)
    requires k < |RawParts(text, delimiter)|
    ensures Count(RawParts(text, delimiter)[k], delimiter) == 0
    ensures k == |RawParts(text, delimiter)| - 1 ==> After(RawParts(text, delimiter)[k]) == After(text)
    decreases |text|
  {
    if text != "" {
      var init, c := text[..|text| - 1], text[|text| - 1];
      var before := RawParts(init, delimiter);
      var last := |before| - 1;
      PartsStandAlone(init, delimiter, if k <= last then k else last);
      if k == last {
        assert (before[last] + [c])[..|before[last]|] == before[last];
      }
    }
  }

  lemma {:induction false} PrefixCount(text: string, n: nat, operator: char)
    requires n <= |text|
    ensures Count(text[..n], operator) <= Count(text, operator)
    decreases |text|
  {
    if n == |text| {
      assert text[..n] == text;
    } else {
      var init := text[..|text| - 1];
      assert text[..n] == init[..n];
      PrefixCount(init, n, operator);
    }
  }

  /** Text that leaves the scanner at its start does not influence what follows it. */
  lemma {:induction false} ScanRestarts(a: string, b: string, operator: char)
    requires After(a) == START
    ensures After(a + b) == After(b)
    ensures Count(a + b, operator) == Count(a, operator) + Count(b, operator)
    decreases |b|
  {
    if b == "" {
      assert a + b == a;
    } else {
      var init := b[..|b| - 1];
      assert (a + b)[..|a + b| - 1] == a + init;
      ScanRestarts(a, init, operator);
    }
  }

  lemma {:induction false} BlankLeavesStart(s: string)
    requires forall i :: 0 <= i < |s| ==> IsSpace(s[i])
    ensures After(s) == START
  {
    if s != "" { BlankLeavesStart(s[..|s| - 1]); }
  }

  /** Trimming does not bring a delimiter to the top level. */
  lemma {:induction false} StripKeepsCount(s: string, operator: char)
    ensures Count(Strip(s), operator) <= Count(s, operator)
  {
    hide IsSpace, Count, After, StripLeft, StripRight;
    var left := StripLeft(s);
    var n := |s| - |left|;
    LeftIsBlank(s);
    BlankLeavesStart(s[..n]);
    assert s == s[..n] + left;
    ScanRestarts(s[..n], left, operator);
    PrefixCount(left, |StripRight(left)|, operator);
  }

  /** Every part the method returns counts no delimiter of its own. */
  lemma {:induction false} PartsHaveNoDelimiter(text: string, delimiter: char, k: nat)
    requires k < |RawParts(text, delimiter)|
    ensures Count(StripAll(RawParts(text, delimiter))[k], delimiter) == 0
  {
    hide Strip, Count, RawParts;
    PartsStandAlone(text, delimiter, k);
    StripKeepsCount(RawParts(text, delimiter)[k], delimiter);
  }

  // ---------- What is outside quotes and parentheses ----------

  lemma {:induction false} ScanNext(a: string, c: char, operator: char)
    ensures After(a + [c]) == Next(After(a), c)
    ensures Count(a + [c], operator) == Count(a, operator) + (if Splits(After(a), c, operator) then 1 else 0)
  {
    assert (a + [c])[..|a|] == a;
  }

  function Occurrences(s: string, c: char): nat {
    if s == "" then 0 else Occurrences(s[..|s| - 1], c) + (if s[|s| - 1] == c then 1 else 0)
  }

  /** Outside parentheses and quotes every occurrence of the operator counts. */
  lemma {:induction false} PlainCounts(a: string, s: string, operator: char)
    requires After(a) == START && !IsQuote(operator) && operator != '(' && operator != ')'
    requires forall k :: 0 <= k < |s| ==> !IsQuote(s[k]) && s[k] != '(' && s[k] != ')'
    ensures After(a + s) == START && Count(a + s, operator) == Count(a, operator) + Occurrences(s, operator)
    decreases |s|
  {
    hide After, Count;
    if s == "" {
      assert a + s == a;
    } else {
      var init := s[..|s| - 1];
      PlainCounts(a, init, operator);
      assert a + s == (a + init) + [s[|s| - 1]];
      ScanNext(a + init, s[|s| - 1], operator);
    }
  }

  /** From an opening quote to the next of its kind nothing counts, whatever stands between, and the depth is as before. */
  lemma {:induction false} QuotedCountsNothing(a: string, q: char, s: string, operator: char)
    requires After(a).quote == None && IsQuote(q) && forall k :: 0 <= k < |s| ==> s[k] != q
    ensures After(a + [q] + s) == After(a).(quote := Some(q)) && After(a + [q] + s + [q]) == After(a)
    ensures Count(a + [q] + s + [q], operator) == Count(a, operator)
  {
    hide After, Count;
    InsideQuotes(a, q, s, operator);
    ScanNext(a + [q] + s, q, operator);
  }

  lemma {:induction false} InsideQuotes(a: string, q: char, s: string, operator: char)
    requires After(a).quote == None && IsQuote(q) && forall k :: 0 <= k < |s| ==> s[k] != q
    ensures After(a + [q] + s) == After(a).(quote := Some(q)) && Count(a + [q] + s, operator) == Count(a, operator)
    decreases |s|
  {
    hide After, Count;
    if s == "" {
      ScanNext(a, q, operator);
      assert a + [q] + s == a + [q];
    } else {
      var init := s[..|s| - 1];
      InsideQuotes(a, q, init, operator);
      assert a + [q] + s == (a + [q] + init) + [s[|s| - 1]];
      ScanNext(a + [q] + init, s[|s| - 1], operator);
    }
  }

  /** Every prefix opens at least as many parentheses as it closes. */
  predicate NeverCloses(s: string) {
    forall k :: 0 <= k <= |s| ==> Occurrences(s[..k], '(') >= Occurrences(s[..k], ')')
  }

  /** Between an opening parenthesis and the one that closes it nothing counts, however the text between is nested. */
  lemma {:induction false} ParenthesesCountNothing(a: string, s: string, operator: char)
    requires After(a).quote == None && (forall k :: 0 <= k < |s| ==> !IsQuote(s[k]))
    requires NeverCloses(s) && Occurrences(s, '(') == Occurrences(s, ')')
    ensures After(a + "(" + s + ")") == After(a) && Count(a + "(" + s + ")", operator) == Count(a, operator)
  {
    hide After, Count;
    InsideParentheses(a, s, |s|, operator);
    assert s[..|s|] == s;
    ScanNext(a + "(" + s, ')', operator);
  }

  lemma {:induction false} InsideParentheses(a: string, s: string, n: nat, operator: char)
    requires After(a).quote == None && (forall k :: 0 <= k < |s| ==> !IsQuote(s[k])) && NeverCloses(s) && n <= |s|
    ensures After(a + "(" + s[..n]) == Scan(After(a).depth + 1 + Occurrences(s[..n], '(') - Occurrences(s[..n], ')'), None)
    ensures Count(a + "(" + s[..n], operator) == Count(a, operator)
    decreases n
  {
    hide After, Count;
    if n == 0 {
      ScanNext(a, '(', operator);
      assert a + "(" + s[..0] == a + "(";
    } else {
      InsideParentheses(a, s, n - 1, operator);
      assert s[..n][..n - 1] == s[..n - 1] && s[..n][n - 1] == s[n - 1];
      assert a + "(" + s[..n] == (a + "(" + s[..n - 1]) + [s[n - 1]];
      ScanNext(a + "(" + s[..n - 1], s[n - 1], operator);
    }
  }
}
