/** The active capabilities of a table in the order in which they contribute to its contract. */
module Capabilities {
  import opened Values

  type Id = nat

  /** What a capability (or the base contract) contributes, with the lists and dictionaries already decoded. */
  datatype Contribution = Contribution(
    requiredFields: seq<Json>,
    fieldTypes: seq<(Json, Json)>,
    uniqueRules: seq<Json>,
    validators: seq<Json>,
    formulas: seq<Json>,
    physics: Physics)

  datatype Physics = Physics(rules: seq<Json>, defaults: map<string, Json>, autoSemantics: seq<Json>)

  datatype Capability = Capability(id: Id, key: string, orderIndex: int, version: int, createdAt: nat,
                                   deleted: bool, status: string, contribution: Contribution)

  predicate IsActive(c: Capability) {
    !c.deleted && Lower(Strip(c.status)) == "active"
  }

  // ---------- The sort key ----------

  /** Strings in code point order. */
  predicate TextBefore(a: string, b: string)
    decreases |a|
  {
    b != [] && (a == [] || a[0] < b[0] || (a[0] == b[0] && TextBefore(a[1..], b[1..])))
  }

  lemma {:induction false} TextTotal(a: string, b: string)
    ensures TextBefore(a, b) || a == b || TextBefore(b, a)
    ensures !(TextBefore(a, b) && TextBefore(b, a))
    ensures !TextBefore(a, a)
    decreases |a|
  {
    if a != [] && b != [] {
      TextTotal(a[1..], b[1..]);
      assert a == [a[0]] + a[1..] && b == [b[0]] + b[1..];
    }
    if a != [] { TextTotal(a[1..], a[1..]); }
  }

  lemma {:induction false} TextTransitive(a: string, b: string, c: string)
    requires TextBefore(a, b) && TextBefore(b, c)
    ensures TextBefore(a, c)
    decreases |a|
  {
    if a != [] && a[0] == b[0] == c[0] {
      TextTransitive(a[1..], b[1..], c[1..]);
    }
  }

  predicate Before(a: Capability, b: Capability) {
    a.orderIndex < b.orderIndex || (a.orderIndex == b.orderIndex && KeyBefore(a, b))
  }

  predicate KeyBefore(a: Capability, b: Capability) {
    TextBefore(Lower(a.key), Lower(b.key)) || (Lower(a.key) == Lower(b.key) && RowBefore(a, b))
  }

  predicate RowBefore(a: Capability, b: Capability) {
    a.version < b.version || (a.version == b.version &&
      (a.createdAt < b.createdAt || (a.createdAt == b.createdAt && a.id < b.id)))
  }

  lemma BeforeTotal(a: Capability, b: Capability)
    ensures a.id != b.id ==> Before(a, b) || Before(b, a)
    ensures !(Before(a, b) && Before(b, a))
  {
    hide TextBefore, Lower;
    TextTotal(Lower(a.key), Lower(b.key));
  }

  lemma BeforeTransitive(a: Capability, b: Capability, c: Capability)
    requires Before(a, b) && Before(b, c)
    ensures Before(a, c)
  {
    hide TextBefore, Lower;
    if TextBefore(Lower(a.key), Lower(b.key)) && TextBefore(Lower(b.key), Lower(c.key)) {
      TextTransitive(Lower(a.key), Lower(b.key), Lower(c.key));
    }
  }

  // ---------- Sorting ----------

  predicate DistinctIds(caps: seq<Capability>) {
    forall i, j :: 0 <= i < j < |caps| ==> caps[i].id != caps[j].id
  }

  predicate Ordered(caps: seq<Capability>) {
    forall i, j :: 0 <= i < j < |caps| ==> Before(caps[i], caps[j])
  }

  function Insert(caps: seq<Capability>, c: Capability): seq<Capability> {
    if caps == [] || !Before(c, caps[|caps| - 1]) then caps + [c]
    else Insert(caps[..|caps| - 1], c) + [caps[|caps| - 1]]
  }

  function SortedActive(caps: seq<Capability>): seq<Capability> {
    if caps == [] then [] else
      var rest := SortedActive(caps[..|caps| - 1]);
      if IsActive(caps[|caps| - 1]) then Insert(rest, caps[|caps| - 1]) else rest
  }

  lemma {:induction false} InsertOrders(caps: seq<Capability>, c: Capability)
    requires Ordered(caps) && forall x :: x in caps ==> x.id != c.id
    ensures Ordered(Insert(caps, c))
    ensures forall x :: x in Insert(caps, c) <==> x in caps || x == c
    decreases |caps|
  {
    hide Before;
    if caps == [] {
    } else if !Before(c, caps[|caps| - 1]) {
      var last := caps[|caps| - 1];
      BeforeTotal(last, c);
      forall i | 0 <= i < |caps| - 1 ensures Before(caps[i], c) {
        BeforeTransitive(caps[i], last, c);
      }
    } else {
      var init, last := caps[..|caps| - 1], caps[|caps| - 1];
      assert caps == init + [last];
      InsertOrders(init, c);
      var rest := Insert(init, c);
      forall i | 0 <= i < |rest| ensures Before(rest[i], last) {
        assert rest[i] in rest;
      }
    }
  }

  /** Exactly the active capabilities, in strictly ascending order of the sort key. */
  lemma {:induction false} SortedActiveIsSorted(caps: seq<Capability>)
    requires DistinctIds(caps)
    ensures Ordered(SortedActive(caps))
    ensures forall c :: c in SortedActive(caps) <==> c in caps && IsActive(c)
    decreases |caps|
  {
    hide Insert, IsActive, Before;
    if caps != [] {
      var init, last := caps[..|caps| - 1], caps[|caps| - 1];
      assert caps == init + [last];
      SortedActiveIsSorted(init);
      assert forall x :: x in init ==> x.id != last.id;
      if IsActive(last) { InsertOrders(SortedActive(init), last); }
    }
  }

  /** An ordered list is determined by its elements. */
  lemma {:induction false} OrderedIsUnique(a: seq<Capability>, b: seq<Capability>)
    requires Ordered(a) && Ordered(b) && forall x :: x in a <==> x in b
    ensures a == b
    decreases |a|
  {
    hide Before;
    if a == [] {
      assert forall i :: 0 <= i < |b| ==> b[i] in a;
    } else {
      assert a[0] in b;
      assert b[0] in a;
      var k :| 0 <= k < |b| && b[k] == a[0];
      var m :| 0 <= m < |a| && a[m] == b[0];
      BeforeTotal(a[0], b[0]);
      assert a[0] == b[0];
      forall x ensures x in a[1..] <==> x in b[1..] {
        TailWithout(a, x);
        TailWithout(b, x);
      }
      OrderedIsUnique(a[1..], b[1..]);
      assert a == [a[0]] + a[1..] && b == [b[0]] + b[1..];
    }
  }

  lemma TailWithout(a: seq<Capability>, x: Capability)
    requires a != [] && Ordered(a)
    ensures x in a[1..] <==> x in a && x != a[0]
  {
    hide Before;
    BeforeTotal(x, x);
    if x in a && x != a[0] {
      var k :| 0 <= k < |a| && a[k] == x;
      assert a[1..][k - 1] == x;
    }
  }

  /** The order in which the rows are handed in does not matter. */
  lemma {:induction false} OrderOfRowsIsIrrelevant(caps: seq<Capability>, other: seq<Capability>)
    requires multiset(caps) == multiset(other) && DistinctIds(caps)
    ensures DistinctIds(other) && SortedActive(caps) == SortedActive(other)
  {
    hide SortedActive, IsActive;
    assert forall c :: c in caps <==> c in multiset(caps);
    assert forall c :: c in other <==> c in multiset(other);
    DistinctInBoth(caps, other);
    SortedActiveIsSorted(caps);
    SortedActiveIsSorted(other);
    OrderedIsUnique(SortedActive(caps), SortedActive(other));
  }

  lemma {:induction false} DistinctInBoth(caps: seq<Capability>, other: seq<Capability>)
    requires multiset(caps) == multiset(other) && DistinctIds(caps)
    ensures DistinctIds(other)
  {
    forall i, j | 0 <= i < j < |other| ensures other[i].id != other[j].id {
      assert other[i] in multiset(other) && other[j] in multiset(other);
      assert other[i] in caps && other[j] in caps;
      if other[i] == other[j] {
        TwiceInMultiset(other, i, j);
        OnceInMultiset(caps, other[i]);
      }
    }
  }

  lemma {:induction false} TwiceInMultiset(s: seq<Capability>, i: nat, j: nat)
    requires i < j < |s| && s[i] == s[j]
    ensures multiset(s)[s[i]] >= 2
  {
    assert s == s[..j] + [s[j]] + s[j + 1..];
    assert s[i] in s[..j] by { assert s[..j][i] == s[i]; }
    assert multiset(s) == multiset(s[..j]) + multiset{s[j]} + multiset(s[j + 1..]);
  }

  lemma {:induction false} OnceInMultiset(s: seq<Capability>, c: Capability)
    requires DistinctIds(s)
    ensures multiset(s)[c] <= 1
    decreases |s|
  {
    if s != [] {
      var init, last := s[..|s| - 1], s[|s| - 1];
      assert s == init + [last];
      OnceInMultiset(init, c);
      assert multiset(s) == multiset(init) + multiset{last};
      assert forall k :: 0 <= k < |init| ==> init[k].id != last.id;
    }
  }
}
