/**
 * Browsing Redis keys as a tree of ":"-separated names (pkg/cc/redis_admin.go).
 * The pages that SCAN returns for a prefix are a parameter; a page that failed carries no keys.  Which keys a
 * pattern selects follows the glob-style patterns of the Redis command reference.
 */
module RedisTree {
  import opened Common

  const MAX_SCAN_ITEMS: nat := 5000

  datatype Page = Page(keys: seq<string>, next: nat) | FailedPage

  datatype Node = Node(branches: seq<string>, leaves: seq<string>, scanned: nat, nextCursor: nat, truncated: bool)

  datatype ScanError = ScanFailed

  // ---- One key under a prefix ----

  function UpToColon(s: string): string {
    if s == "" then "" else if s[0] == ':' then ":" else [s[0]] + UpToColon(s[1..])
  }

  /** The branch that leads to the key, or the leaf it is; None for a key without the prefix. */
  function SplitKeyByPrefix(prefix: string, key: string): Option<(string, string)> {
    if !HasPrefix(key, prefix) then None
    else
      var remaining := key[|prefix|..];
      if remaining == "" then Some(("", key))
      else if ':' !in remaining then Some(("", prefix + remaining))
      else Some((prefix + UpToColon(remaining), ""))
  }

  lemma {:induction false} UpToColonPrefix(s: string)
    requires ':' in s
    ensures UpToColon(s) <= s && |UpToColon(s)| >= 1
  {
    if s[0] == ':' {
    } else {
      assert s == [s[0]] + s[1..];
      UpToColonPrefix(s[1..]);
    }
  }

  /** A key is the leaf, or its branch is a longer prefix of it. */
  lemma SplitMeans(prefix: string, key: string)
    requires HasPrefix(key, prefix)
    ensures var (branch, leaf) := SplitKeyByPrefix(prefix, key).value;
      if branch == "" then leaf == key && ':' !in key[|prefix|..]
      else leaf == "" && HasPrefix(key, branch) && HasPrefix(branch, prefix) && |branch| > |prefix|
  {
    var remaining := key[|prefix|..];
    assert key == prefix + remaining;
    if ':' in remaining {
      UpToColonPrefix(remaining);
      assert prefix + UpToColon(remaining) <= key;
    }
  }

  function BranchesOf(prefix: string, keys: set<string>): set<string> {
    set k | k in keys && HasPrefix(k, prefix) && SplitKeyByPrefix(prefix, k).value.0 != "" ::
      SplitKeyByPrefix(prefix, k).value.0
  }

  function LeavesOf(prefix: string, keys: set<string>): set<string> {
    set k | k in keys && HasPrefix(k, prefix) && SplitKeyByPrefix(prefix, k).value.0 == "" && k != "" :: k
  }

  // ---- The loop over the pages ----

  function KeysOf(pages: seq<Page>): set<string> {
    set i, k | 0 <= i < |pages| && pages[i].Page? && k in pages[i].keys :: k
  }

  function CountKeys(pages: seq<Page>): nat {
    if pages == [] then 0
    else CountKeys(pages[..|pages| - 1]) + if pages[|pages| - 1].Page? then |pages[|pages| - 1].keys| else 0
  }

  /** A scan to the end: the cursor is zero after the last page, and only then. */
  predicate ScanEnds(pages: seq<Page>) {
    && pages != []
    && (forall i | 0 <= i < |pages| - 1 :: pages[i].Page? ==> pages[i].next != 0)
    && (pages[|pages| - 1].Page? ==> pages[|pages| - 1].next == 0)
  }

  /** What has been collected: some of the keys, and all of them unless the limit was reached. */
  predicate Collected(prefix: string, seen: set<string>, branches: set<string>, leaves: set<string>, truncated: bool) {
    && branches <= BranchesOf(prefix, seen) && leaves <= LeavesOf(prefix, seen)
    && (!truncated ==> branches == BranchesOf(prefix, seen) && leaves == LeavesOf(prefix, seen)
                       && |branches| + |leaves| < MAX_SCAN_ITEMS)
    && (truncated ==> |branches| + |leaves| == MAX_SCAN_ITEMS)
  }

  method CollectKey(prefix: string, key: string, ghost seen: set<string>, branches0: set<string>, leaves0: set<string>)
    returns (branches: set<string>, leaves: set<string>, truncated: bool)
    requires Collected(prefix, seen, branches0, leaves0, false)
    ensures Collected(prefix, seen + {key}, branches, leaves, truncated)
  {
    branches, leaves, truncated := branches0, leaves0, false;
    OneMoreKey(prefix, seen, key);
    var split := SplitKeyByPrefix(prefix, key);
    if split.None? { return; }
    if split.value.0 != "" {
      branches := branches + {split.value.0};
    } else if split.value.1 != "" {
      leaves := leaves + {split.value.1};
    }
    truncated := |branches| + |leaves| >= MAX_SCAN_ITEMS;
  }

  method CollectPage(
      prefix: string, keys: seq<string>, ghost seen: set<string>, branches0: set<string>, leaves0: set<string>)
    returns (branches: set<string>, leaves: set<string>, truncated: bool)
    requires Collected(prefix, seen, branches0, leaves0, false)
    ensures Collected(prefix, seen + Elements(keys), branches, leaves, truncated)
  {
    branches, leaves, truncated := branches0, leaves0, false;
    ghost var now := seen;
    for i := 0 to |keys|
      invariant now == seen + Elements(keys[..i])
      invariant Collected(prefix, now, branches, leaves, false)
    {
      assert Elements(keys[..i + 1]) == Elements(keys[..i]) + {keys[i]};
      branches, leaves, truncated := CollectKey(prefix, keys[i], now, branches, leaves);
      now := now + {keys[i]};
      if truncated {
        MonotoneKeys(prefix, now, seen + Elements(keys));
        return;
      }
    }
    assert keys[..|keys|] == keys;
    truncated := false;
  }

  lemma OneMoreKey(prefix: string, keys: set<string>, key: string)
    ensures BranchesOf(prefix, keys + {key}) == BranchesOf(prefix, keys)
      + if HasPrefix(key, prefix) && SplitKeyByPrefix(prefix, key).value.0 != ""
        then {SplitKeyByPrefix(prefix, key).value.0} else {}
    ensures LeavesOf(prefix, keys + {key}) == LeavesOf(prefix, keys)
      + if HasPrefix(key, prefix) && SplitKeyByPrefix(prefix, key).value.0 == "" && key != "" then {key} else {}
    ensures HasPrefix(key, prefix) && SplitKeyByPrefix(prefix, key).value.0 == "" ==>
      SplitKeyByPrefix(prefix, key).value.1 == key
  {
    if HasPrefix(key, prefix) { SplitMeans(prefix, key); }
  }

  lemma MonotoneKeys(prefix: string, some: set<string>, more: set<string>)
    requires some <= more
    ensures BranchesOf(prefix, some) <= BranchesOf(prefix, more) && LeavesOf(prefix, some) <= LeavesOf(prefix, more)
  {
  }

  method Tree(prefix: string, pages: seq<Page>) returns (r: Result<Node, ScanError>)
    requires ScanEnds(pages)
    ensures r.Err? ==> FailedPage in pages
    ensures r.Ok? ==> Collected(prefix, KeysOf(pages), Elements(r.value.branches), Elements(r.value.leaves),
      r.value.truncated)
    ensures r.Ok? ==>
      var shown := |Elements(r.value.branches)| + |Elements(r.value.leaves)|;
      shown <= 5000 && (r.value.truncated <==> shown == 5000)
    ensures r.Ok? ==> NoDuplicates(r.value.branches) && SortedByKey(Self, r.value.branches)
    ensures r.Ok? ==> NoDuplicates(r.value.leaves) && SortedByKey(Self, r.value.leaves)
    ensures r.Ok? && !r.value.truncated ==>
      FailedPage !in pages && r.value.nextCursor == 0 && r.value.scanned == CountKeys(pages)
    // Even when only part of a page was looked at, the whole page counts and the cursor is the one after it.
    ensures r.Ok? && r.value.truncated ==> exists i :: 0 <= i < |pages| && StoppedAt(pages, i, r.value)
  {
    var branches: set<string>, leaves: set<string> := {}, {};
    var scanned: nat, next: nat, truncated := 0, 0, false;
    var i := 0;
    while true
      invariant i < |pages| && !truncated
      invariant FailedPage !in pages[..i] && scanned == CountKeys(pages[..i])
      invariant Collected(prefix, KeysOf(pages[..i]), branches, leaves, false)
      decreases |pages| - i
    {
      if pages[i].FailedPage? { return Err(ScanFailed); }
      OneMorePage(pages, i);
      assert pages[..i + 1][..i] == pages[..i];
      scanned := scanned + |pages[i].keys|;
      branches, leaves, truncated := CollectPage(prefix, pages[i].keys, KeysOf(pages[..i]), branches, leaves);
      next := pages[i].next;
      i := i + 1;
      if next == 0 || truncated { break; }
    }
    ghost var last := i - 1;
    if truncated {
      assert KeysOf(pages[..i]) <= KeysOf(pages);
      MonotoneKeys(prefix, KeysOf(pages[..i]), KeysOf(pages));
    } else {
      assert pages[..i] == pages;
    }
    var branchList := SortedKeys(branches);
    var leafList := SortedKeys(leaves);
    r := Ok(Node(branchList, leafList, scanned, next, truncated));
    assert StoppedAt(pages, last, r.value);
  }

  predicate StoppedAt(pages: seq<Page>, i: nat, node: Node)
    requires i < |pages|
  {
    pages[i].Page? && node.nextCursor == pages[i].next && node.scanned == CountKeys(pages[..i + 1])
  }

  lemma OneMorePage(pages: seq<Page>, i: nat)
    requires i < |pages| && pages[i].Page?
    ensures KeysOf(pages[..i + 1]) == KeysOf(pages[..i]) + Elements(pages[i].keys)
  {
    assert pages[..i + 1] == pages[..i] + [pages[i]];
  }

  // ---- Which keys a pattern selects ----

  predicate Between(x: char, c: char, y: char) {
    x <= c <= y || y <= c <= x
  }

  /**
   * Reads the class whose opening bracket, and negation, stand before `s`: whether it holds `c`, and what follows it.
   * A dash takes whatever follows it, even a bracket, as the other end of a range.
   */
  function ReadClass(s: string, c: char): (r: (bool, string))
    ensures |r.1| <= |s|
  {
    if s == "" then (false, "")
    else if s[0] == '\\' && |s| > 1 then
      var (found, rest) := ReadClass(s[2..], c);
      (found || s[1] == c, rest)
    else if s[0] == ']' then (false, s[1..])
    else if |s| > 2 && s[1] == '-' then
      var (found, rest) := ReadClass(s[3..], c);
      (found || Between(s[0], c, s[2]), rest)
    else
      var (found, rest) := ReadClass(s[1..], c);
      (found || s[0] == c, rest)
  }

  predicate Matches(pattern: string, key: string)
    decreases |pattern| + |key|
  {
    if pattern == "" then key == ""
    else if pattern[0] == '*' then Matches(pattern[1..], key) || (key != "" && Matches(pattern, key[1..]))
    else if key == "" then false
    else if pattern[0] == '?' then Matches(pattern[1..], key[1..])
    else if pattern[0] == '[' then
      var negated := |pattern| > 1 && pattern[1] == '^';
      var (found, rest) := ReadClass(if negated then pattern[2..] else pattern[1..], key[0]);
      found != negated && Matches(rest, key[1..])
    else if pattern[0] == '\\' && |pattern| > 1 then pattern[1] == key[0] && Matches(pattern[2..], key[1..])
    else pattern[0] == key[0] && Matches(pattern[1..], key[1..])
  }

  /** The keys that SCAN selects for a prefix; the empty prefix makes the pattern "*". */
  function Selected(keys: set<string>, prefix: string): set<string> {
    set k | k in keys && Matches(prefix + "*", k)
  }

  /** Free of brackets and backslashes. */
  predicate Plain(s: string) {
    forall c | c in s :: c != '[' && c != '\\'
  }

  lemma {:induction false} StarMatches(key: string)
    ensures Matches("*", key)
  {
    if key == "" {
      assert "*"[1..] == "";
    } else {
      StarMatches(key[1..]);
    }
  }

  /** The pattern of a plain prefix selects every key with the prefix: a star or question mark matches itself. */
  lemma {:induction false} PlainSelects(prefix: string, key: string)
    requires Plain(prefix) && HasPrefix(key, prefix)
    ensures Matches(prefix + "*", key)
    decreases |prefix|
  {
    if prefix == "" {
      assert prefix + "*" == "*";
      StarMatches(key);
    } else {
      var pattern, rest := prefix + "*", prefix[1..] + "*";
      assert prefix[0] in prefix && key[0] == key[..|prefix|][0] == prefix[0];
      assert key[1..][..|prefix[1..]|] == key[..|prefix|][1..] == prefix[1..];
      assert forall c | c in prefix[1..] :: c in prefix;
      assert pattern[1..] == rest;
      PlainSelects(prefix[1..], key[1..]);
    }
  }

  /** A bracket is read as a class, so the pattern of a branch can miss the branch's own keys. */
  lemma BracketMissesItself()
    ensures !Matches("a[b]:" + "*", "a[b]:x")
  {
    var pattern := "a[b]:" + "*";
    assert pattern[1..] == "[b]:*" && "a[b]:x"[1..] == "[b]:x";
    assert "[b]:*"[1..] == "b]:*" && "b]:*"[1..] == "]:*";
    assert ReadClass("]:*", '[').0 == false;
    assert ReadClass("b]:*", '[').0 == false;
  }

  /** In a range the closing bracket is an end like any other, and the class goes on behind it. */
  lemma RangeTakesBracket()
    ensures ReadClass("a-]x]:", 'x') == (true, ":") && ReadClass("a-]x]:", '^') == (true, ":")
    ensures ReadClass("a-]x]:", '-') == (false, ":")
  {
    assert "a-]x]:"[3..] == "x]:" && "x]:"[1..] == "]:" && "]:"[1..] == ":";
    assert forall c :: ReadClass("]:", c) == (false, ":");
    assert forall c :: ReadClass("x]:", c) == (c == 'x', ":");
  }

  /** A class selects its characters, a negated one the others, and a range those between its ends in either order. */
  lemma ClassSelects(x: char, c: char)
    requires x !in "]\\^-"
    ensures Matches("[" + [x] + "]", [c]) <==> c == x
    ensures Matches("[^" + [x] + "]", [c]) <==> c != x
  {
    var one, other := "[" + [x] + "]", "[^" + [x] + "]";
    assert one[1..] == [x] + "]" && other[2..] == [x] + "]" && ([x] + "]")[1..] == "]" && "]"[1..] == "";
    assert ReadClass("]", c) == (false, "") && ReadClass([x] + "]", c) == (c == x, "");
    assert [c][1..] == "" && Matches("", "");
  }

  lemma RangeSelects(x: char, y: char, c: char)
    requires x !in "]\\^"
    ensures Matches("[" + [x] + "-" + [y] + "]", [c]) <==> x <= c <= y || y <= c <= x
  {
    var pattern := "[" + [x] + "-" + [y] + "]";
    assert pattern[1..] == [x] + "-" + [y] + "]" && pattern[1..][3..] == "]" && "]"[1..] == "";
    assert ReadClass("]", c) == (false, "");
    assert [c][1..] == "" && Matches("", "");
  }

  lemma EscapedInClass(x: char, c: char)
    ensures Matches("[\\" + [x] + "]", [c]) <==> c == x
  {
    var pattern := "[\\" + [x] + "]";
    assert pattern[1..] == "\\" + [x] + "]" && pattern[1..][2..] == "]" && "]"[1..] == "";
    assert ReadClass("]", c) == (false, "") && [c][1..] == "" && Matches("", "");
  }

  /** A question mark selects one character, and a backslash takes the next character as it is. */
  lemma OneSelects(x: char, c: char)
    ensures Matches("?", [c]) && !Matches("?", "")
    ensures Matches("\\" + [x], [c]) <==> c == x
  {
    assert "?"[1..] == "" && [c][1..] == "" && ("\\" + [x])[2..] == "";
  }

  // ---- Descending through the branches ----

  /** A scan that reads everything the pattern selects and fails nowhere. */
  predicate CompleteScan(keys: set<string>, prefix: string, pages: seq<Page>) {
    ScanEnds(pages) && FailedPage !in pages && KeysOf(pages) == Selected(keys, prefix)
  }

  /** The database under `prefix`: each key lies in it as a whole. */
  function Under(keys: set<string>, prefix: string): set<string> {
    set k | k in keys && HasPrefix(k, prefix) && k != ""
  }

  /** The next step from the first `n` characters of a key is shown: the key as a leaf, or the branch it goes on in. */
  predicate Shown(keys: set<string>, key: string, n: nat)
    requires n <= |key|
  {
    var (branch, leaf) := SplitKeyByPrefix(key[..n], key).value;
    if branch == "" then Matches(key[..n] + "*", key) else branch in BranchesOf(key[..n], Selected(keys, key[..n]))
  }

  /** The place after `n` characters is a level of the descent from `prefix`. */
  predicate IsLevel(prefix: string, key: string, n: nat) {
    n == |prefix| <= |key| || (|prefix| < n <= |key| && key[n - 1] == ':')
  }

  /** The keys under the prefix that are shown the way from level to level. */
  function Met(keys: set<string>, prefix: string): set<string> {
    set k | k in Under(keys, prefix) && forall n: nat | n <= |k| && IsLevel(prefix, k, n) :: Shown(keys, k, n)
  }

  function MetAll(keys: set<string>, branches: seq<string>): set<string> {
    set b, k | b in branches && k in Met(keys, b) :: k
  }

  lemma {:induction false} UpToColonStable(s: string, t: string)
    requires ':' in s && HasPrefix(t, UpToColon(s))
    ensures ':' in t && UpToColon(t) == UpToColon(s)
  {
    UpToColonPrefix(s);
    if s[0] == ':' {
    } else {
      assert UpToColon(s) == [s[0]] + UpToColon(s[1..]);
      assert UpToColon(s)[0] == s[0] && t[..|UpToColon(s)|][0] == t[0];
      assert UpToColon(s[1..]) == UpToColon(s)[1..];
      UpToColonPrefix(s[1..]);
      assert t[1..][..|UpToColon(s[1..])|] == t[..|UpToColon(s)|][1..];
      UpToColonStable(s[1..], t[1..]);
    }
  }

  lemma {:induction false} UpToColonEnds(s: string)
    requires ':' in s
    ensures UpToColon(s) != "" && UpToColon(s)[|UpToColon(s)| - 1] == ':'
    ensures forall i | 0 <= i < |UpToColon(s)| - 1 :: UpToColon(s)[i] != ':'
  {
    if s[0] == ':' {
    } else {
      UpToColonEnds(s[1..]);
    }
  }

  lemma BranchWitness(keys: set<string>, prefix: string, b: string) returns (k: string)
    requires b in BranchesOf(prefix, keys)
    ensures k in keys && HasPrefix(k, prefix) && SplitKeyByPrefix(prefix, k) == Some((b, "")) && ':' in k[|prefix|..]
    ensures b == prefix + UpToColon(k[|prefix|..]) && HasPrefix(k, b)
    ensures |b| > |prefix| && b[|b| - 1] == ':' && forall i | |prefix| <= i < |b| - 1 :: b[i] != ':'
  {
    k :| k in keys && HasPrefix(k, prefix) && SplitKeyByPrefix(prefix, k).value.0 == b && b != "";
    SplitMeans(prefix, k);
    UpToColonEnds(k[|prefix|..]);
  }

  /** The keys that start with a branch are those that split into it. */
  lemma BranchHolds(keys: set<string>, prefix: string, b: string, k: string)
    requires b in BranchesOf(prefix, keys)
    ensures HasPrefix(b, prefix) && |b| > |prefix|
    ensures HasPrefix(k, b) <==> HasPrefix(k, prefix) && SplitKeyByPrefix(prefix, k) == Some((b, ""))
  {
    var k0 := BranchWitness(keys, prefix, b);
    var rest := k0[|prefix|..];
    if HasPrefix(k, b) {
      assert k[..|prefix|] == k[..|b|][..|prefix|] == prefix;
      assert k[|prefix|..][..|UpToColon(rest)|] == k[..|b|][|prefix|..] == UpToColon(rest);
      UpToColonStable(rest, k[|prefix|..]);
    }
    if HasPrefix(k, prefix) && SplitKeyByPrefix(prefix, k) == Some((b, "")) {
      SplitMeans(prefix, k);
    }
  }

  /** From a branch on, the levels are those from the prefix, without the prefix itself. */
  lemma LevelsOfBranch(keys: set<string>, prefix: string, b: string, k: string, n: nat)
    requires b in BranchesOf(prefix, keys) && HasPrefix(k, b) && n <= |k|
    ensures IsLevel(prefix, k, n) <==> n == |prefix| || IsLevel(b, k, n)
  {
    var k0 := BranchWitness(keys, prefix, b);
    assert forall i | 0 <= i < |b| :: k[i] == k[..|b|][i];
  }

  /** A key of a shown branch is met from the prefix exactly when it is met from the branch. */
  lemma MetThroughBranch(keys: set<string>, prefix: string, b: string, k: string)
    requires b in BranchesOf(prefix, Selected(keys, prefix)) && k in keys && HasPrefix(k, b)
    ensures k in Met(keys, prefix) <==> k in Met(keys, b)
  {
    BranchHolds(Selected(keys, prefix), prefix, b, k);
    assert k[..|prefix|] == prefix;
    assert Shown(keys, k, |prefix|);
    forall n: nat | n <= |k| ensures IsLevel(prefix, k, n) <==> n == |prefix| || IsLevel(b, k, n) {
      LevelsOfBranch(Selected(keys, prefix), prefix, b, k, n);
    }
  }

  /** A leaf has only the one level, where it is shown when it is selected. */
  lemma MetAsLeaf(keys: set<string>, prefix: string, k: string)
    requires k in Under(keys, prefix) && SplitKeyByPrefix(prefix, k).value.0 == ""
    ensures k in Met(keys, prefix) <==> k in LeavesOf(prefix, Selected(keys, prefix))
  {
    SplitMeans(prefix, k);
    assert k[..|prefix|] == prefix;
    forall i | |prefix| <= i < |k| ensures k[i] != ':' {
      assert k[i] == k[|prefix|..][i - |prefix|];
    }
    assert IsLevel(prefix, k, |prefix|);
    assert Shown(keys, k, |prefix|) <==> Matches(prefix + "*", k);
  }

  lemma MetInBranch(keys: set<string>, prefix: string, k: string) returns (b: string)
    requires k in Met(keys, prefix) && SplitKeyByPrefix(prefix, k).value.0 != ""
    ensures b in BranchesOf(prefix, Selected(keys, prefix)) && k in Met(keys, b)
  {
    assert k[..|prefix|] == prefix && IsLevel(prefix, k, |prefix|);
    assert Shown(keys, k, |prefix|);
    b := SplitKeyByPrefix(prefix, k).value.0;
    SplitMeans(prefix, k);
    MetThroughBranch(keys, prefix, b, k);
  }

  lemma MetSplits(keys: set<string>, prefix: string, branches: seq<string>)
    requires Elements(branches) == BranchesOf(prefix, Selected(keys, prefix))
    ensures Met(keys, prefix) == LeavesOf(prefix, Selected(keys, prefix)) + MetAll(keys, branches)
  {
    forall k | k in Met(keys, prefix) ensures k in LeavesOf(prefix, Selected(keys, prefix)) + MetAll(keys, branches) {
      if SplitKeyByPrefix(prefix, k).value.0 == "" {
        MetAsLeaf(keys, prefix, k);
      } else {
        var b := MetInBranch(keys, prefix, k);
        assert b in Elements(branches);
      }
    }
    forall k | k in LeavesOf(prefix, Selected(keys, prefix)) ensures k in Met(keys, prefix) {
      MetAsLeaf(keys, prefix, k);
    }
    forall b, k | b in branches && k in Met(keys, b) ensures k in Met(keys, prefix) {
      assert b in Elements(branches);
      MetThroughBranch(keys, prefix, b, k);
    }
  }

  /** No key lies under two branches, or under one and beside it as a leaf. */
  lemma BranchApart(keys: set<string>, prefix: string, branches: seq<string>, i: nat)
    requires NoDuplicates(branches)
    requires Elements(branches) == BranchesOf(prefix, Selected(keys, prefix)) && i < |branches|
    ensures Met(keys, branches[i]) !! LeavesOf(prefix, Selected(keys, prefix)) + MetAll(keys, branches[..i])
  {
    var seen := Selected(keys, prefix);
    assert branches[i] in Elements(branches);
    forall k | k in Met(keys, branches[i]) ensures k !in LeavesOf(prefix, seen) + MetAll(keys, branches[..i]) {
      BranchHolds(seen, prefix, branches[i], k);
      forall b | b in branches[..i] ensures k !in Met(keys, b) {
        assert b in Elements(branches) && b != branches[i];
        BranchHolds(seen, prefix, b, k);
      }
    }
  }

  ghost predicate Browsable(keys: set<string>, scan: string -> seq<Page>, longest: nat) {
    && (forall k | k in keys :: |k| <= longest)
    && forall p :: CompleteScan(keys, p, scan(p))
                   && |BranchesOf(p, Selected(keys, p))| + |LeavesOf(p, Selected(keys, p))| < MAX_SCAN_ITEMS
  }

  /** One request over an untruncated, complete scan returns exactly the branches and leaves of the keys it selects. */
  method Expand(ghost keys: set<string>, prefix: string, scan: string -> seq<Page>, ghost longest: nat)
    returns (node: Node)
    requires Browsable(keys, scan, longest)
    ensures NoDuplicates(node.branches) && Elements(node.branches) == BranchesOf(prefix, Selected(keys, prefix))
    ensures NoDuplicates(node.leaves) && Elements(node.leaves) == LeavesOf(prefix, Selected(keys, prefix))
  {
    assert CompleteScan(keys, prefix, scan(prefix));
    var r := Tree(prefix, scan(prefix));
    node := r.value;
    SubsetCardinality(Elements(node.branches), BranchesOf(prefix, Selected(keys, prefix)));
    SubsetCardinality(Elements(node.leaves), LeavesOf(prefix, Selected(keys, prefix)));
  }

  /** Descending through every branch comes to an end, and meets exactly the keys that are shown the way, each once. */
  method Descend(ghost keys: set<string>, prefix: string, scan: string -> seq<Page>, ghost longest: nat)
    returns (leaves: seq<string>)
    requires Browsable(keys, scan, longest) && |prefix| <= longest
    ensures NoDuplicates(leaves) && Elements(leaves) == Met(keys, prefix)
    decreases longest - |prefix|, 1
  {
    var node := Expand(keys, prefix, scan, longest);
    var below := DescendEach(keys, prefix, node.branches, scan, longest);
    EachApart(keys, prefix, node.branches);
    NoDuplicatesConcat(node.leaves, below);
    MetSplits(keys, prefix, node.branches);
    leaves := node.leaves + below;
  }

  method DescendEach(
      ghost keys: set<string>, ghost prefix: string, branches: seq<string>, scan: string -> seq<Page>,
      ghost longest: nat)
    returns (leaves: seq<string>)
    requires Browsable(keys, scan, longest) && |prefix| <= longest
    requires NoDuplicates(branches) && Elements(branches) == BranchesOf(prefix, Selected(keys, prefix))
    ensures NoDuplicates(leaves) && Elements(leaves) == MetAll(keys, branches)
    decreases longest - |prefix|, 0
  {
    leaves := [];
    for i := 0 to |branches|
      invariant NoDuplicates(leaves) && Elements(leaves) == MetAll(keys, branches[..i])
    {
      BranchLonger(keys, scan, longest, prefix, branches, i);
      var below := Descend(keys, branches[i], scan, longest);
      BranchApart(keys, prefix, branches, i);
      NoDuplicatesConcat(leaves, below);
      MetAllStep(keys, branches, i);
      leaves := leaves + below;
    }
    assert branches[..|branches|] == branches;
  }

  lemma BranchLonger(
      keys: set<string>, scan: string -> seq<Page>, longest: nat, prefix: string, branches: seq<string>, i: nat)
    requires Browsable(keys, scan, longest)
    requires Elements(branches) == BranchesOf(prefix, Selected(keys, prefix)) && i < |branches|
    ensures |prefix| < |branches[i]| <= longest
  {
    assert branches[i] in Elements(branches);
    var k := BranchWitness(Selected(keys, prefix), prefix, branches[i]);
  }

  lemma EachApart(keys: set<string>, prefix: string, branches: seq<string>)
    requires NoDuplicates(branches) && Elements(branches) == BranchesOf(prefix, Selected(keys, prefix))
    ensures LeavesOf(prefix, Selected(keys, prefix)) !! MetAll(keys, branches)
  {
    forall b, k | b in branches && k in Met(keys, b) ensures k !in LeavesOf(prefix, Selected(keys, prefix)) {
      var i :| 0 <= i < |branches| && branches[i] == b;
      BranchApart(keys, prefix, branches, i);
    }
  }

  lemma MetAllStep(keys: set<string>, branches: seq<string>, i: nat)
    requires i < |branches|
    ensures MetAll(keys, branches[..i + 1]) == MetAll(keys, branches[..i]) + Met(keys, branches[i])
  {
    assert branches[..i + 1] == branches[..i] + [branches[i]];
  }

  // ---- When nothing is missed ----

  /** No key holds a bracket or a backslash before its last colon. */
  predicate PlainBranches(key: string) {
    forall n | 0 < n <= |key| && key[n - 1] == ':' :: Plain(key[..n])
  }

  lemma SelectedIsShown(keys: set<string>, key: string, n: nat)
    requires key in keys && n <= |key| && Matches(key[..n] + "*", key)
    ensures Shown(keys, key, n)
  {
    assert HasPrefix(key, key[..n]);
    SplitMeans(key[..n], key);
  }

  /** Then descending from the empty prefix meets every non-empty key. */
  lemma PlainKeysAreMet(keys: set<string>)
    requires forall k | k in keys :: PlainBranches(k)
    ensures Met(keys, "") == Under(keys, "")
  {
    forall k, n: nat | k in Under(keys, "") && n <= |k| && IsLevel("", k, n) ensures Shown(keys, k, n) {
      assert Plain(k[..n]);
      PlainSelects(k[..n], k);
      SelectedIsShown(keys, k, n);
    }
  }

  /** In a database of one key the key is met exactly when the pattern of each of its levels selects it. */
  lemma OnlyKeyIsMetIff(key: string)
    requires key != ""
    ensures key in Met({key}, "") <==> forall n: nat | n <= |key| && IsLevel("", key, n) :: Matches(key[..n] + "*", key)
  {
    forall n: nat | n <= |key| ensures Shown({key}, key, n) <==> Matches(key[..n] + "*", key) {
      if Matches(key[..n] + "*", key) {
        SelectedIsShown({key}, key, n);
      } else {
        assert Selected({key}, key[..n]) == {};
      }
    }
  }

  /** So a bracket can hide a key. */
  lemma BracketHidesKey()
    ensures "a[b]:x" !in Met({"a[b]:x"}, "")
  {
    var key := "a[b]:x";
    assert key[..5] == "a[b]:" && IsLevel("", key, 5);
    BracketMissesItself();
    OnlyKeyIsMetIff(key);
  }
}
