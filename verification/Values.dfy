/** JSON values, optional results and the few string operations the services share. */
module Values {

  datatype Option<+T> = None | Some(value: T)

  /** A decoded JSON value.  Numbers are exact reals. */
  datatype Json =
    | JNull
    | JBool(b: bool)
    | JNum(r: real)
    | JText(s: string)
    | JList(items: seq<Json>)
    | JDict(entries: map<string, Json>)

  type Metadata = map<string, Json>

  /** The characters for which `str.isspace` holds. */
  predicate IsSpace(c: char) {
    var n := c as int;
    || 9 <= n <= 13
    || 28 <= n <= 32
    || n == 0x85 || n == 0xA0 || n == 0x1680
    || 0x2000 <= n <= 0x200A
    || n == 0x2028 || n == 0x2029 || n == 0x202F || n == 0x205F || n == 0x3000
  }

  function StripLeft(s: string): (r: string)
    ensures |r| <= |s| && r == s[|s| - |r|..]
    ensures r != [] ==> !IsSpace(r[0])
  {
    if s != [] && IsSpace(s[0]) then StripLeft(s[1..]) else s
  }

  function StripRight(s: string): (r: string)
    ensures |r| <= |s| && r == s[..|r|]
    ensures r != [] ==> !IsSpace(r[|r| - 1])
  {
    if s != [] && IsSpace(s[|s| - 1]) then StripRight(s[..|s| - 1]) else s
  }

  function Strip(s: string): (r: string)
    ensures |r| <= |s|
    ensures r != [] ==> !IsSpace(r[0]) && !IsSpace(r[|r| - 1])
  {
    var left := StripLeft(s);
    var r := StripRight(left);
    assert r != [] ==> r[0] == left[0];
    r
  }

  predicate StartsWith(s: string, prefix: string) {
    prefix <= s
  }

  /** A text that asks to be evaluated as a formula. */
  predicate IsFormulaText(v: Json) {
    v.JText? && StartsWith(Strip(v.s), "=")
  }

  /** ASCII case mapping, which is all that the keyword tables compared here contain. */
  function LowerChar(c: char): char {
    if 'A' <= c <= 'Z' then (c as int + 32) as char else c
  }

  function UpperChar(c: char): char {
    if 'a' <= c <= 'z' then (c as int - 32) as char else c
  }

  function Lower(s: string): (r: string)
    ensures |r| == |s|
  {
    seq(|s|, i requires 0 <= i < |s| => LowerChar(s[i]))
  }

  function Upper(s: string): (r: string)
    ensures |r| == |s|
  {
    seq(|s|, i requires 0 <= i < |s| => UpperChar(s[i]))
  }

  function Replace(s: string, from: char, to: char): (r: string)
    ensures |r| == |s|
  {
    seq(|s|, i requires 0 <= i < |s| => if s[i] == from then to else s[i])
  }

  lemma {:induction false} StripFixes(k: string)
    requires k != "" && !IsSpace(k[0]) && !IsSpace(k[|k| - 1])
    ensures Strip(k) == k
  {
    assert StripLeft(k) == k;
    assert StripRight(k) == k;
  }

  lemma {:induction false} LowerFixes(k: string)
    requires forall i :: 0 <= i < |k| ==> LowerChar(k[i]) == k[i]
    ensures Lower(k) == k
  {
  }

  /** Stripping cuts off blanks at both ends, and everything else of the text stays. */
  lemma {:induction false} StripMeans(s: string) returns (i: nat, j: nat)
    ensures i <= j <= |s| && Strip(s) == s[i..j]
    ensures forall k :: 0 <= k < i || j <= k < |s| ==> IsSpace(s[k])
    ensures i < j ==> !IsSpace(s[i]) && !IsSpace(s[j - 1])
  {
    hide IsSpace;
    var left := StripLeft(s);
    i := |s| - |left|;
    j := i + |StripRight(left)|;
    LeftIsBlank(s);
    RightIsBlank(left);
    forall k | 0 <= k < i || j <= k < |s| ensures IsSpace(s[k]) {
      if j <= k { assert s[k] == left[k - i]; }
    }
  }

  lemma {:induction false} LeftIsBlank(s: string)
    ensures forall k :: 0 <= k < |s| - |StripLeft(s)| ==> IsSpace(s[k])
    decreases |s|
  {
    hide IsSpace;
    if s != [] && IsSpace(s[0]) {
      LeftIsBlank(s[1..]);
      forall k | 0 <= k < |s| - |StripLeft(s)| ensures IsSpace(s[k]) { if k > 0 { assert s[k] == s[1..][k - 1]; } }
    }
  }

  lemma {:induction false} RightIsBlank(s: string)
    ensures forall k :: |StripRight(s)| <= k < |s| ==> IsSpace(s[k])
    decreases |s|
  {
    hide IsSpace;
    if s != [] && IsSpace(s[|s| - 1]) { RightIsBlank(s[..|s| - 1]); }
  }

  /** Case mapping pairs the 26 letters and leaves every other character alone. */
  lemma CaseMeans(s: string, i: nat)
    requires i < |s|
    ensures var n := s[i] as int;
            && (65 <= n <= 90 ==> Lower(s)[i] as int == n + 32 && Upper(s)[i] == s[i])
            && (97 <= n <= 122 ==> Upper(s)[i] as int == n - 32 && Lower(s)[i] == s[i])
            && (!(65 <= n <= 90) && !(97 <= n <= 122) ==> Lower(s)[i] == s[i] && Upper(s)[i] == s[i])
  {
  }
}
