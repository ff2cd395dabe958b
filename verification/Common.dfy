/** Small datatypes and list facts shared by the models. */
module Common {

  datatype Option<+T> = None | Some(value: T)

  datatype Result<+T, +E> = Ok(value: T) | Err(error: E)

  /** `p` begins `s`. */
  predicate HasPrefix<T(==)>(s: seq<T>, p: seq<T>) {
    |p| <= |s| && s[..|p|] == p
  }

  predicate NoDuplicates<T(==)>(s: seq<T>) {
    forall i, j | 0 <= i < j < |s| :: s[i] != s[j]
  }

  function Elements<T>(s: seq<T>): set<T> {
    set x | x in s
  }

  /** In a list without duplicates every element has multiplicity one. */
  lemma {:induction false} NoDuplicatesCount<T>(s: seq<T>)
    requires NoDuplicates(s)
    ensures forall x :: multiset(s)[x] == if x in s then 1 else 0
    ensures |Elements(s)| == |s|
  {
    if s == [] {
      assert Elements(s) == {};
    } else {
      var last := |s| - 1;
      var rest := s[..last];
      assert s == rest + [s[last]];
      assert s[last] !in rest;
      NoDuplicatesCount(rest);
      assert Elements(s) == Elements(rest) + {s[last]};
    }
  }

  /** Adding a new element at the end keeps a list free of duplicates. */
  lemma NoDuplicatesSnoc<T>(s: seq<T>, x: T)
    requires NoDuplicates(s) && x !in s
    ensures NoDuplicates(s + [x])
  {
  }

  lemma NoDuplicatesConcat<T>(a: seq<T>, b: seq<T>)
    requires NoDuplicates(a) && NoDuplicates(b) && Elements(a) !! Elements(b)
    ensures NoDuplicates(a + b) && Elements(a + b) == Elements(a) + Elements(b)
  {
    var all := a + b;
    forall i, j | 0 <= i < j < |all| ensures all[i] != all[j] {
      if i < |a| <= j {
        assert all[i] in Elements(a) && all[j] in Elements(b);
      }
    }
  }

  // ---- Sorting, as Go's sort package does it: same elements, ascending ----

  predicate SortedInts(s: seq<int>) {
    forall i, j | 0 <= i < j < |s| :: s[i] <= s[j]
  }

  lemma ConsSorted(x: int, s: seq<int>)
    requires SortedInts(s) && forall y | y in s :: x <= y
    ensures SortedInts([x] + s)
  {
    forall i, j | 0 <= i < j < |[x] + s| ensures ([x] + s)[i] <= ([x] + s)[j] {
      assert s[j - 1] in s;
    }
  }

  function InsertInt(x: int, s: seq<int>): (r: seq<int>)
    requires SortedInts(s)
    ensures SortedInts(r) && multiset(r) == multiset(s) + multiset{x}
  {
    if s == [] then [x]
    else if x <= s[0] then
      ConsSorted(x, s);
      [x] + s
    else
      var tail := InsertInt(x, s[1..]);
      assert s == [s[0]] + s[1..];
      assert forall y | y in tail :: s[0] <= y by {
        forall y | y in tail ensures s[0] <= y {
          assert y in multiset(tail);
        }
      }
      ConsSorted(s[0], tail);
      [s[0]] + tail
  }

  function SortInts(s: seq<int>): (r: seq<int>)
    ensures SortedInts(r) && multiset(r) == multiset(s)
  {
    if s == [] then []
    else
      assert s == [s[0]] + s[1..];
      InsertInt(s[0], SortInts(s[1..]))
  }

  /** Go's `<=` on strings: lexicographic. */
  predicate StringLe(a: string, b: string) {
    a == "" || (b != "" && (a[0] < b[0] || (a[0] == b[0] && StringLe(a[1..], b[1..]))))
  }

  lemma {:induction false} StringLeTotal(a: string, b: string)
    ensures StringLe(a, b) || StringLe(b, a)
    ensures StringLe(a, b) && StringLe(b, a) ==> a == b
  {
    if a == "" || b == "" {
    } else {
      StringLeTotal(a[1..], b[1..]);
      assert a == [a[0]] + a[1..] && b == [b[0]] + b[1..];
    }
  }

  lemma {:induction false} StringLeTransitive(a: string, b: string, c: string)
    requires StringLe(a, b) && StringLe(b, c)
    ensures StringLe(a, c)
  {
    if a == "" || b == "" || a[0] != b[0] || b[0] != c[0] {
    } else {
      StringLeTransitive(a[1..], b[1..], c[1..]);
    }
  }

  /** Ascending by a string key, the order sort.Slice and sort.Strings leave behind. */
  ghost predicate SortedByKey<T>(key: T -> string, s: seq<T>) {
    forall i, j | 0 <= i < j < |s| :: StringLe(key(s[i]), key(s[j]))
  }

  lemma ConsSortedByKey<T>(key: T -> string, x: T, s: seq<T>)
    requires SortedByKey(key, s) && forall y | y in s :: StringLe(key(x), key(y))
    ensures SortedByKey(key, [x] + s)
  {
    forall i, j | 0 <= i < j < |[x] + s| ensures StringLe(key(([x] + s)[i]), key(([x] + s)[j])) {
      assert s[j - 1] in s;
    }
  }

  lemma LeastInFront<T>(key: T -> string, x: T, s: seq<T>)
    requires SortedByKey(key, s) && s != [] && StringLe(key(x), key(s[0]))
    ensures SortedByKey(key, [x] + s)
  {
    forall y | y in s ensures StringLe(key(x), key(y)) {
      StringLeTotal(key(s[0]), key(s[0]));
      StringLeTransitive(key(x), key(s[0]), key(y));
    }
    ConsSortedByKey(key, x, s);
  }

  lemma HeadInFront<T>(key: T -> string, x: T, s: seq<T>, tail: seq<T>)
    requires SortedByKey(key, s) && s != [] && !StringLe(key(x), key(s[0]))
    requires SortedByKey(key, tail) && multiset(tail) == multiset(s[1..]) + multiset{x}
    ensures SortedByKey(key, [s[0]] + tail) && multiset([s[0]] + tail) == multiset(s) + multiset{x}
  {
    assert s == [s[0]] + s[1..];
    StringLeTotal(key(x), key(s[0]));
    forall y | y in tail ensures StringLe(key(s[0]), key(y)) {
      assert y in multiset(tail);
    }
    ConsSortedByKey(key, s[0], tail);
  }

  function InsertByKey<T>(key: T -> string, x: T, s: seq<T>): (r: seq<T>)
    requires SortedByKey(key, s)
    ensures SortedByKey(key, r) && multiset(r) == multiset(s) + multiset{x}
  {
    if s == [] then [x]
    else if StringLe(key(x), key(s[0])) then
      LeastInFront(key, x, s);
      [x] + s
    else
      var tail := InsertByKey(key, x, s[1..]);
      HeadInFront(key, x, s, tail);
      [s[0]] + tail
  }

  function SortByKey<T(!new)>(key: T -> string, s: seq<T>): (r: seq<T>)
    ensures SortedByKey(key, r) && multiset(r) == multiset(s) && |r| == |s|
    ensures forall x :: x in r <==> x in s
  {
    if s == [] then []
    else
      assert s == [s[0]] + s[1..];
      var r := InsertByKey(key, s[0], SortByKey(key, s[1..]));
      SameMultisetMembers(s, r);
      r
  }

  lemma SameMultisetMembers<T>(s: seq<T>, r: seq<T>)
    requires multiset(s) == multiset(r)
    ensures |s| == |r|
    ensures forall x :: x in r <==> x in s
  {
    assert |multiset(s)| == |s| && |multiset(r)| == |r|;
    forall x ensures x in r <==> x in s {
      assert x in r <==> x in multiset(r);
      assert x in s <==> x in multiset(s);
    }
  }

  function Self(s: string): string { s }

  function SortStrings(s: seq<string>): (r: seq<string>)
    ensures SortedByKey(Self, r) && multiset(r) == multiset(s) && |r| == |s|
    ensures forall x :: x in r <==> x in s
  {
    SortByKey(Self, s)
  }

  /** Sorting a list without duplicates leaves it without duplicates. */
  lemma SameMultisetNoDuplicates<T>(s: seq<T>, r: seq<T>)
    requires NoDuplicates(s) && multiset(s) == multiset(r)
    ensures NoDuplicates(r)
  {
    NoDuplicatesCount(s);
    forall i, j | 0 <= i < j < |r| ensures r[i] != r[j] {
      assert multiset(r)[r[j]] <= 1;
      assert r == r[..j] + [r[j]] + r[j + 1..];
    }
  }

  // ---- Finite sets ----

  lemma Member<T>(s: set<T>) returns (x: T)
    requires s != {}
    ensures x in s
  {
    x :| x in s;
  }

  lemma {:induction false} SubsetCardinality<T>(a: set<T>, b: set<T>)
    requires a <= b
    ensures |a| <= |b|
    decreases b
  {
    if a == {} {
    } else {
      var x :| x in a;
      SubsetCardinality(a - {x}, b - {x});
    }
  }

  /** The first `n` slot numbers. */
  function Below(n: nat): (r: set<int>)
    ensures forall i :: i in r <==> 0 <= i < n
    ensures |r| == n
  {
    if n == 0 then {} else Below(n - 1) + {n - 1}
  }

  /** Go's map iteration: the next key is any of those left. */
  method AnyKey<T(==)>(keys: set<T>) returns (key: T)
    requires keys != {}
    ensures key in keys
  {
    key :| key in keys;
  }

  /** The keys of a map, collected in Go's order and then sorted. */
  method SortedKeys(values: set<string>) returns (list: seq<string>)
    ensures NoDuplicates(list) && Elements(list) == values && SortedByKey(Self, list)
  {
    list := [];
    var remaining := values;
    while remaining != {}
      invariant NoDuplicates(list) && Elements(list) + remaining == values && Elements(list) !! remaining
      decreases remaining
    {
      var v := AnyKey(remaining);
      NoDuplicatesSnoc(list, v);
      list := list + [v];
      remaining := remaining - {v};
    }
    ghost var before := list;
    list := SortStrings(list);
    SameMultisetNoDuplicates(before, list);
  }

  // ---- Strings ----

  predicate IsSpace(c: char) {
    c == ' ' || '\t' <= c <= '\r'
  }

  /** Tab, line feed, vertical tab, form feed, carriage return and space. */
  lemma SpaceCharacters(c: char)
    ensures IsSpace(c) <==> c in {'\t', '\n', '\U{B}', '\U{C}', '\r', ' '}
  {
  }

  function TrimLeft(s: string, drop: char -> bool): (r: string)
    ensures r != "" ==> !drop(r[0])
    ensures |r| <= |s| && r == s[|s| - |r|..] && forall c | c in s[..|s| - |r|] :: drop(c)
  {
    if s == "" || !drop(s[0]) then s
    else
      var r := TrimLeft(s[1..], drop);
      assert s[..|s| - |r|] == [s[0]] + s[1..][..|s| - 1 - |r|];
      r
  }

  function TrimRight(s: string, drop: char -> bool): (r: string)
    ensures r != "" ==> !drop(r[|r| - 1])
    ensures r <= s && forall c | c in s[|r|..] :: drop(c)
  {
    if s == "" || !drop(s[|s| - 1]) then s
    else
      var n := |s| - 1;
      var r := TrimRight(s[..n], drop);
      assert s[|r|..] == s[..n][|r|..] + [s[n]];
      r
  }

  lemma PieceOf(s: string, left: string, r: string, drop: char -> bool)
    requires |left| <= |s| && left == s[|s| - |left|..] && r <= left
    requires (left != "" ==> !drop(left[0])) && (r != "" ==> !drop(r[|r| - 1]))
    ensures forall c | c in r :: c in s
    ensures r != "" ==> !drop(r[0]) && !drop(r[|r| - 1])
  {
    forall c | c in r ensures c in s {
      assert c in left;
    }
    assert r != "" ==> r[0] == left[0];
  }

  /** A piece of the text that neither starts nor ends with what is dropped. */
  function Trim(s: string, drop: char -> bool): (r: string)
    ensures forall c | c in r :: c in s
    ensures r != "" ==> !drop(r[0]) && !drop(r[|r| - 1])
  {
    var left := TrimLeft(s, drop);
    var r := TrimRight(left, drop);
    PieceOf(s, left, r, drop);
    r
  }

  function TrimSpace(s: string): string { Trim(s, IsSpace) }

  /** Trimming leaves nothing exactly when every character is dropped. */
  lemma TrimEmptyIff(s: string, drop: char -> bool)
    ensures Trim(s, drop) == "" <==> forall c | c in s :: drop(c)
  {
    var left := TrimLeft(s, drop);
    assert s == s[..|s| - |left|] + left;
    if left != "" {
      assert left[0] in s;
    }
    if Trim(s, drop) == "" {
      assert left[0..] == left;
    }
  }

  function Lowered(s: string, lower: char -> char): string {
    seq(|s|, i requires 0 <= i < |s| => lower(s[i]))
  }

  predicate IsInfix(part: string, s: string) {
    part <= s || (s != "" && IsInfix(part, s[1..]))
  }
}
