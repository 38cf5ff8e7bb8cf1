/**
 Strings as Go sees them: the byte-wise order behind sort.Strings and sort.Slice, strings.Join and
 strings.SplitSeq with the separator ",". Code points compare as their UTF-8 encodings do.
 */
module Strings {

  /** The lexicographic order of Go's string comparison. */
  predicate LexLe(a: string, b: string) {
    a == "" || (b != "" && (a[0] < b[0] || (a[0] == b[0] && LexLe(a[1..], b[1..]))))
  }

  /** The strings agree before position i, where a ends or has the smaller character. */
  ghost predicate DecidedAt(a: string, b: string, i: nat) {
    && i <= |a| && i <= |b| && (i == |a| || (i < |b| && a[i] < b[i]))
    && forall j :: 0 <= j < i ==> a[j] == b[j]
  }

  lemma DecidedLater(a: string, b: string, i: nat)
    requires a != "" && b != "" && a[0] == b[0]
    ensures DecidedAt(a[1..], b[1..], i) <==> DecidedAt(a, b, i + 1)
  {
    assert forall j :: 0 <= j < |a| - 1 ==> a[1..][j] == a[j + 1];
    assert forall j :: 0 <= j < |b| - 1 ==> b[1..][j] == b[j + 1];
    if DecidedAt(a, b, i + 1) {
      forall j | 0 <= j < i ensures a[1..][j] == b[1..][j] { assert a[j + 1] == b[j + 1]; }
    }
  }

  /** The order is that of the first difference, and a prefix comes before what it is a prefix of. */
  lemma {:induction false} LexLeIff(a: string, b: string)
    ensures LexLe(a, b) <==> exists i: nat :: DecidedAt(a, b, i)
  {
    if a == "" || (b != "" && a[0] < b[0]) {
      assert DecidedAt(a, b, 0);
    } else if b != "" && a[0] == b[0] {
      LexLeIff(a[1..], b[1..]);
      forall i: nat ensures DecidedAt(a[1..], b[1..], i) <==> DecidedAt(a, b, i + 1) { DecidedLater(a, b, i); }
      if i: nat :| DecidedAt(a, b, i) { assert DecidedAt(a[1..], b[1..], i - 1); }
    }
  }

  lemma {:induction false} LexTotal(a: string, b: string)
    ensures LexLe(a, b) || LexLe(b, a)
    ensures LexLe(a, b) && LexLe(b, a) ==> a == b
  {
    if a != "" && b != "" {
      LexTotal(a[1..], b[1..]);
      assert a == [a[0]] + a[1..] && b == [b[0]] + b[1..];
    }
  }

  lemma {:induction false} LexTransitive(a: string, b: string, c: string)
    requires LexLe(a, b) && LexLe(b, c)
    ensures LexLe(a, c)
  {
    if a != "" && b != "" && c != "" && a[0] == b[0] && b[0] == c[0] {
      LexTransitive(a[1..], b[1..], c[1..]);
    }
  }

  predicate LexLess(a: string, b: string) {
    LexLe(a, b) && a != b
  }

  ghost predicate Below<T(!new)>(x: T, s: seq<T>, key: T -> string) {
    forall y :: y in s ==> LexLess(key(x), key(y))
  }

  /** Strictly increasing keys: sorted, and no key twice. */
  ghost predicate StrictlySorted<T(!new)>(s: seq<T>, key: T -> string) {
    s != [] ==> Below(s[0], s[1..], key) && StrictlySorted(s[1..], key)
  }

  lemma {:induction false} StrictlySortedAt<T(!new)>(s: seq<T>, key: T -> string, i: nat, j: nat)
    requires StrictlySorted(s, key) && i < j < |s|
    ensures LexLess(key(s[i]), key(s[j]))
  {
    if i == 0 {
      assert s[j] == s[1..][j - 1];
    } else {
      StrictlySortedAt(s[1..], key, i - 1, j - 1);
    }
  }

  /** No two positions carry the same key. */
  ghost predicate DistinctKeys<T(!new)>(s: seq<T>, key: T -> string) {
    s != [] ==> (forall y :: y in s[1..] ==> key(y) != key(s[0])) && DistinctKeys(s[1..], key)
  }

  ghost function Elements<T(!new)>(s: seq<T>): (r: set<T>)
    ensures forall i :: 0 <= i < |s| ==> s[i] in r
    ensures s == [] <==> r == {}
    ensures s != [] ==> r == {s[0]} + (set x | x in s[1..])
  {
    assert s != [] ==> s == [s[0]] + s[1..];
    assert s != [] ==> s[0] in (set x | x in s);
    set x | x in s
  }

  function InsertBy<T(!new)>(x: T, s: seq<T>, key: T -> string): seq<T> {
    if s == [] then [x]
    else if LexLe(key(x), key(s[0])) then [x] + s
    else [s[0]] + InsertBy(x, s[1..], key)
  }

  /** sort.Slice with the comparison key(s[i]) < key(s[j]). */
  function SortBy<T(!new)>(s: seq<T>, key: T -> string): seq<T> {
    if s == [] then [] else InsertBy(s[0], SortBy(s[1..], key), key)
  }

  function Itself(s: string): string { s }

  /** sort.Strings */
  function SortStrings(s: seq<string>): seq<string> {
    SortBy(s, Itself)
  }

  lemma {:induction false} InsertByElements<T(!new)>(x: T, s: seq<T>, key: T -> string)
    ensures Elements(InsertBy(x, s, key)) == Elements(s) + {x}
    ensures |InsertBy(x, s, key)| == |s| + 1
  {
    if s != [] && !LexLe(key(x), key(s[0])) {
      InsertByElements(x, s[1..], key);
    }
  }

  lemma {:induction false} BelowTransitive<T(!new)>(x: T, y: T, s: seq<T>, key: T -> string)
    requires LexLess(key(x), key(y)) && Below(y, s, key)
    ensures Below(x, s, key)
  {
    forall z | z in s ensures LexLess(key(x), key(z)) {
      LexTransitive(key(x), key(y), key(z));
      LexTotal(key(x), key(y));
    }
  }

  lemma {:induction false} InsertByKeepsOrder<T(!new)>(x: T, s: seq<T>, key: T -> string)
    requires StrictlySorted(s, key)
    requires forall y :: y in s ==> key(y) != key(x)
    ensures StrictlySorted(InsertBy(x, s, key), key)
  {
    if s == [] {
    } else if LexLe(key(x), key(s[0])) {
      BelowTransitive(x, s[0], s[1..], key);
      assert s == [s[0]] + s[1..];
      assert ([x] + s)[1..] == s;
    } else {
      LexTotal(key(x), key(s[0]));
      var rest := InsertBy(x, s[1..], key);
      InsertByKeepsOrder(x, s[1..], key);
      InsertByElements(x, s[1..], key);
      forall y | y in rest ensures LexLess(key(s[0]), key(y)) {
        assert y in Elements(rest);
      }
      assert ([s[0]] + rest)[1..] == rest;
    }
  }

  /** Sorting distinct keys yields the same elements in strictly increasing order. */
  lemma {:induction false} SortByOrders<T(!new)>(s: seq<T>, key: T -> string)
    requires DistinctKeys(s, key)
    ensures StrictlySorted(SortBy(s, key), key)
    ensures Elements(SortBy(s, key)) == Elements(s)
    ensures |SortBy(s, key)| == |s|
  {
    if s != [] {
      var rest := SortBy(s[1..], key);
      SortByOrders(s[1..], key);
      forall y | y in rest ensures key(y) != key(s[0]) {
        assert y in Elements(rest);
      }
      InsertByKeepsOrder(s[0], rest, key);
      InsertByElements(s[0], rest, key);
    }
  }

  /** A strictly sorted sequence is determined by its elements. */
  lemma {:induction false} StrictlySortedUnique<T(!new)>(a: seq<T>, b: seq<T>, key: T -> string)
    requires StrictlySorted(a, key) && StrictlySorted(b, key)
    requires Elements(a) == Elements(b)
    ensures a == b
  {
    if a != [] {
      assert a[0] in Elements(b) && b[0] in Elements(a);
      LexTotal(key(a[0]), key(b[0]));
      assert Elements(a[1..]) == Elements(a) - {a[0]};
      assert Elements(b[1..]) == Elements(b) - {b[0]};
      StrictlySortedUnique(a[1..], b[1..], key);
      assert a == [a[0]] + a[1..] && b == [b[0]] + b[1..];
    }
  }

  /** The sorted enumeration of a set, whatever order a map iteration delivers it in. */
  ghost function SortedKeys(keys: set<string>): (r: seq<string>)
    ensures StrictlySorted(r, Itself)
    ensures Elements(r) == keys
  {
    if keys == {} then []
    else
      var k :| k in keys;
      var rest := SortedKeys(keys - {k});
      assert forall y :: y in rest ==> y in Elements(rest);
      InsertByKeepsOrder(k, rest, Itself);
      InsertByElements(k, rest, Itself);
      InsertBy(k, rest, Itself)
  }

  /** sort.Strings does not depend on the order in which a map's keys were collected. */
  lemma SortStringsIsSortedKeys(s: seq<string>, keys: set<string>)
    requires DistinctKeys(s, Itself) && Elements(s) == keys
    ensures SortStrings(s) == SortedKeys(keys)
  {
    SortByOrders(s, Itself);
    StrictlySortedUnique(SortStrings(s), SortedKeys(keys), Itself);
  }

  /** strings.Join(parts, ",") */
  function Join(parts: seq<string>): string {
    if parts == [] then ""
    else if |parts| == 1 then parts[0]
    else parts[0] + "," + Join(parts[1..])
  }

  /** strings.Split(s, ","): never empty, and the empty string has one empty piece. */
  function Split(s: string): (r: seq<string>)
    ensures r != []
    ensures forall p :: p in r ==> ',' !in p
  {
    if s == "" then [""]
    else
      var rest := Split(s[1..]);
      if s[0] == ',' then [""] + rest else [[s[0]] + rest[0]] + rest[1..]
  }

  lemma {:induction false} SplitFirst(a: string, b: string)
    requires ',' !in a
    ensures Split(a) == [a]
    ensures Split(a + "," + b) == [a] + Split(b)
  {
    if a == "" {
      assert a + "," + b == "," + b;
      assert ("," + b)[1..] == b;
    } else {
      SplitFirst(a[1..], b);
      assert a == [a[0]] + a[1..];
      assert (a + "," + b)[1..] == a[1..] + "," + b;
    }
  }

  lemma {:induction false} SplitJoin(parts: seq<string>)
    requires parts != []
    requires forall p :: p in parts ==> ',' !in p
    ensures Split(Join(parts)) == parts
  {
    if |parts| == 1 {
      SplitFirst(parts[0], "");
    } else {
      SplitJoin(parts[1..]);
      SplitFirst(parts[0], Join(parts[1..]));
    }
  }

  lemma {:induction false} JoinEmpty(parts: seq<string>)
    ensures Join(parts) == "" <==> parts == [] || parts == [""]
  {
    if |parts| > 1 {
      assert |Join(parts)| >= 1;
    }
  }

  /** The keys recorded by a tracking annotation; an empty value records none. */
  function TrackedKeys(tracked: string): set<string> {
    if tracked == "" then {} else set p | p in Split(tracked)
  }

  predicate CommaFree(keys: set<string>) {
    forall k :: k in keys ==> ',' !in k
  }

  /**
   Sort, join and split are a round trip for exactly those key sets in which no key contains a comma,
   with the single exception of the set holding only the empty key, which is recorded like the empty set.
   */
  lemma TrackingRoundTrip(keys: set<string>)
    ensures TrackedKeys(Join(SortedKeys(keys))) == keys <==> CommaFree(keys) && keys != {""}
  {
    var parts := SortedKeys(keys);
    JoinEmpty(parts);
    if CommaFree(keys) && keys != {""} {
      if parts != [] {
        assert Elements([""]) == {""};
        forall p | p in parts ensures ',' !in p { assert p in Elements(parts); }
        SplitJoin(parts);
        assert TrackedKeys(Join(parts)) == Elements(parts);
      }
    } else if keys == {""} {
      StrictlySortedUnique(parts, [""], Itself);
      assert "" !in TrackedKeys(Join(parts));
    } else {
      var k :| k in keys && ',' in k;
      assert k !in TrackedKeys(Join(parts));
    }
  }
}
