/** The Merkle tree over a package's file set (scr/merkle.py).

    The hash is a parameter. Collision-freedom is only ever asked of the finitely many byte strings
    that are actually hashed. */
module Merkle {
  import opened Basics

  newtype Byte = x: int | 0 <= x < 256

  type Bytes = seq<Byte>

  const LEAF_PREFIX: Bytes := [0x6c, 0x65, 0x61, 0x66, 0x3a]  // "leaf:"
  const NODE_PREFIX: Bytes := [0x6e, 0x6f, 0x64, 0x65, 0x3a]  // "node:"
  const COLON: Bytes := [0x3a]

  const DIGEST := 32

  function LeafInput(path: Bytes, fileHash: Bytes): Bytes {
    LEAF_PREFIX + path + COLON + fileHash
  }

  function NodeInput(left: Bytes, right: Bytes): Bytes {
    NODE_PREFIX + left + right
  }

  function Leaf(h: Bytes -> Bytes, path: Bytes, fileHash: Bytes): Bytes {
    h(LeafInput(path, fileHash))
  }

  function Node(h: Bytes -> Bytes, left: Bytes, right: Bytes): Bytes {
    h(NodeInput(left, right))
  }

  // ------------------------------------------------- the tree of RFC 6962, section 2.1

  /** The largest power of two smaller than n. */
  function Split(n: nat): (k: nat)
    requires n >= 2
    ensures 1 <= k < n <= 2 * k
    ensures k == 1 || k % 2 == 0
  {
    if n == 2 then 1 else 2 * Split((n + 1) / 2)
  }

  predicate IsPowerOfTwo(k: nat) {
    k == 1 || (k >= 2 && k % 2 == 0 && IsPowerOfTwo(k / 2))
  }

  lemma {:induction false} SplitIsPowerOfTwo(n: nat)
    requires n >= 2
    ensures IsPowerOfTwo(Split(n))
  {
    if n > 2 {
      SplitIsPowerOfTwo((n + 1) / 2);
    }
  }

  /** The recursive definition: split at the largest power of two below the number of leaves. */
  function Tree(h: Bytes -> Bytes, leaves: seq<Bytes>): Bytes
    requires leaves != []
    decreases |leaves|
  {
    if |leaves| == 1 then leaves[0]
    else
      var k := Split(|leaves|);
      Node(h, Tree(h, leaves[..k]), Tree(h, leaves[k..]))
  }

  // ------------------------------------------------------- one level of the loop

  /** Neighbours joined in pairs, an odd last one promoted unchanged. */
  function PairUp(h: Bytes -> Bytes, level: seq<Bytes>): (next: seq<Bytes>)
    ensures |next| == (|level| + 1) / 2
    decreases |level|
  {
    if |level| == 0 then []
    else if |level| == 1 then level
    else [Node(h, level[0], level[1])] + PairUp(h, level[2..])
  }

  lemma {:induction false} PairUpConcat(h: Bytes -> Bytes, a: seq<Bytes>, b: seq<Bytes>)
    requires |a| % 2 == 0
    ensures PairUp(h, a + b) == PairUp(h, a) + PairUp(h, b)
    decreases |a|
  {
    if a == [] {
      assert a + b == b;
    } else {
      assert (a + b)[2..] == a[2..] + b;
      PairUpConcat(h, a[2..], b);
    }
  }

  /** Joining neighbours once does not change the recursive tree. */
  lemma {:induction false} PairUpKeepsTree(h: Bytes -> Bytes, level: seq<Bytes>)
    requires |level| >= 1
    ensures Tree(h, PairUp(h, level)) == Tree(h, level)
    decreases |level|
  {
    hide Node;
    if |level| == 2 {
      assert level[..1] == [level[0]] && level[1..] == [level[1]];
    } else if |level| > 2 {
      var k := Split(|level|);
      var a, b := level[..k], level[k..];
      assert level == a + b && k % 2 == 0;
      PairUpConcat(h, a, b);
      var next := PairUp(h, level);
      assert Split(|next|) == k / 2;
      assert next[..k / 2] == PairUp(h, a) && next[k / 2..] == PairUp(h, b);
      PairUpKeepsTree(h, a);
      PairUpKeepsTree(h, b);
    }
  }

  /** The inner `for` loop. */
  method JoinNeighbours(h: Bytes -> Bytes, level: seq<Bytes>) returns (next: seq<Bytes>)
    ensures next == PairUp(h, level)
  {
    next := [];
    var i := 0;
    while i < |level|
      invariant 0 <= i && (i <= |level| || i == |level| + 1)
      invariant i <= |level| ==> next + PairUp(h, level[i..]) == PairUp(h, level)
      invariant i > |level| ==> next == PairUp(h, level)
    {
      if i + 1 < |level| {
        assert level[i..][2..] == level[i + 2..];
        next := next + [Node(h, level[i], level[i + 1])];
      } else {
        assert level[i..] == [level[i]];
        next := next + [level[i]];
      }
      i := i + 2;
    }
  }

  /** The outer `while` loop: for every number of leaves it computes the tree of RFC 6962. */
  method RootOfLeaves(h: Bytes -> Bytes, leaves: seq<Bytes>) returns (root: Bytes)
    requires leaves != []
    ensures root == Tree(h, leaves)
  {
    var level := leaves;
    while |level| > 1
      invariant |level| >= 1
      invariant Tree(h, level) == Tree(h, leaves)
      decreases |level|
    {
      PairUpKeepsTree(h, level);
      level := JoinNeighbours(h, level);
    }
    root := level[0];
  }

  // ----------------------------------------------------------- files and their order

  /** Lexicographic order; on UTF-8 bytes it is the order of code points. */
  predicate Leq(a: Bytes, b: Bytes)
    decreases |a|
  {
    a == [] || (b != [] && (a[0] < b[0] || (a[0] == b[0] && Leq(a[1..], b[1..]))))
  }

  lemma {:induction false} LeqTotal(a: Bytes, b: Bytes)
    ensures Leq(a, b) || Leq(b, a)
    decreases |a|
  {
    if a != [] && b != [] && a[0] == b[0] {
      LeqTotal(a[1..], b[1..]);
    }
  }

  lemma {:induction false} LeqAntisymmetric(a: Bytes, b: Bytes)
    requires Leq(a, b) && Leq(b, a)
    ensures a == b
    decreases |a|
  {
    if a != [] {
      LeqAntisymmetric(a[1..], b[1..]);
      assert a == [a[0]] + a[1..] && b == [b[0]] + b[1..];
    }
  }

  lemma LeqRefl(a: Bytes)
    ensures Leq(a, a)
  {
    LeqTotal(a, a);
  }

  lemma {:induction false} LeqTransitive(a: Bytes, b: Bytes, c: Bytes)
    requires Leq(a, b) && Leq(b, c)
    ensures Leq(a, c)
    decreases |a|
  {
    if a != [] && a[0] == b[0] && b[0] == c[0] {
      LeqTransitive(a[1..], b[1..], c[1..]);
    }
  }

  predicate IsLeast(x: Bytes, s: set<Bytes>) {
    x in s && forall y :: y in s ==> Leq(x, y)
  }

  lemma {:induction false} LeastExists(s: set<Bytes>) returns (x: Bytes)
    requires s != {}
    ensures IsLeast(x, s)
    decreases |s|
  {
    x :| x in s;
    var rest := s - {x};
    LeqTotal(x, x);
    if rest != {} {
      var y := LeastExists(rest);
      LeqTotal(x, y);
      if Leq(x, y) {
        forall z | z in s
          ensures Leq(x, z)
        {
          if z != x {
            LeqTransitive(x, y, z);
          }
        }
      } else {
        x := y;
      }
    }
  }

  lemma SomeLeast(s: set<Bytes>)
    requires s != {}
    ensures exists x :: IsLeast(x, s)
    ensures forall x, y :: IsLeast(x, s) && IsLeast(y, s) ==> x == y
  {
    var _ := LeastExists(s);
    forall x, y | IsLeast(x, s) && IsLeast(y, s)
      ensures x == y
    {
      LeqAntisymmetric(x, y);
    }
  }

  /** `sorted(files)`: the paths in order. */
  function Sorted(s: set<Bytes>): (r: seq<Bytes>)
    ensures forall p :: p in r <==> p in s
    ensures |r| == |s|
    ensures forall i, j :: 0 <= i < j < |r| ==> Leq(r[i], r[j])
    decreases |s|
  {
    if s == {} then []
    else
      SomeLeast(s);
      var x :| IsLeast(x, s);
      [x] + Sorted(s - {x})
  }

  /** A package's file map: path to content hash. */
  type Files = map<Bytes, Bytes>

  function Leaves(h: Bytes -> Bytes, files: Files, paths: seq<Bytes>): (r: seq<Bytes>)
    requires forall i :: 0 <= i < |paths| ==> paths[i] in files
    ensures |r| == |paths|
  {
    seq(|paths|, i requires 0 <= i < |paths| => Leaf(h, paths[i], files[paths[i]]))
  }

  const EMPTY_ROOT: Bytes := Repeat(0, DIGEST)

  function Root(h: Bytes -> Bytes, files: Files): Bytes {
    if files == map[] then EMPTY_ROOT
    else
      var paths := Sorted(files.Keys);
      assert |paths| == |files.Keys| && files.Keys != {};
      Tree(h, Leaves(h, files, paths))
  }

  method MerkleRoot(h: Bytes -> Bytes, files: Files) returns (root: Bytes)
    ensures root == Root(h, files)
  {
    if files == map[] {
      return EMPTY_ROOT;
    }
    var paths := Sorted(files.Keys);
    assert |paths| == |files.Keys| && files.Keys != {};
    root := RootOfLeaves(h, Leaves(h, files, paths));
  }

  // ------------------------------------------------------------------ binding

  /** The strings hashed while computing the tree over these entries. */
  datatype Entry = Entry(path: Bytes, fileHash: Bytes)

  function LeafOf(h: Bytes -> Bytes, entry: Entry): Bytes {
    Leaf(h, entry.path, entry.fileHash)
  }

  function LeavesOf(h: Bytes -> Bytes, entries: seq<Entry>): (r: seq<Bytes>)
    ensures |r| == |entries|
    ensures forall i :: 0 <= i < |r| ==> r[i] == LeafOf(h, entries[i])
  {
    seq(|entries|, i requires 0 <= i < |entries| => LeafOf(h, entries[i]))
  }

  function Hashed(h: Bytes -> Bytes, entries: seq<Entry>): set<Bytes>
    requires entries != []
    decreases |entries|
  {
    if |entries| == 1 then {LeafInput(entries[0].path, entries[0].fileHash)}
    else
      var k := Split(|entries|);
      var left, right := entries[..k], entries[k..];
      {NodeInput(Tree(h, LeavesOf(h, left)), Tree(h, LeavesOf(h, right)))} + Hashed(h, left) + Hashed(h, right)
  }

  /** No two of these strings collide. */
  predicate CollisionFree(h: Bytes -> Bytes, inputs: set<Bytes>) {
    forall x, y :: x in inputs && y in inputs && h(x) == h(y) ==> x == y
  }

  predicate DigestLength(h: Bytes -> Bytes, inputs: set<Bytes>) {
    forall x :: x in inputs ==> |h(x)| == DIGEST
  }

  /** The root is the hash of one of the hashed strings: a leaf input or a node input. */
  lemma RootIsHashed(h: Bytes -> Bytes, entries: seq<Entry>) returns (x: Bytes)
    requires entries != []
    ensures x in Hashed(h, entries) && Tree(h, LeavesOf(h, entries)) == h(x)
    ensures |entries| == 1 ==> x == LeafInput(entries[0].path, entries[0].fileHash)
    ensures |entries| > 1 ==> x == NodeInput(Tree(h, LeavesOf(h, entries[..Split(|entries|)])),
                                             Tree(h, LeavesOf(h, entries[Split(|entries|)..])))
  {
    var leaves := LeavesOf(h, entries);
    if |entries| == 1 {
      x := LeafInput(entries[0].path, entries[0].fileHash);
    } else {
      var k := Split(|entries|);
      assert leaves[..k] == LeavesOf(h, entries[..k]) && leaves[k..] == LeavesOf(h, entries[k..]);
      x := NodeInput(Tree(h, leaves[..k]), Tree(h, leaves[k..]));
    }
  }

  lemma HashedParts(h: Bytes -> Bytes, entries: seq<Entry>)
    requires |entries| > 1
    ensures var k := Split(|entries|);
      Hashed(h, entries[..k]) <= Hashed(h, entries) && Hashed(h, entries[k..]) <= Hashed(h, entries)
  {
  }

  lemma LeafInputInjective(p: Bytes, f: Bytes, q: Bytes, g: Bytes)
    requires |f| == |g| == DIGEST && LeafInput(p, f) == LeafInput(q, g)
    ensures p == q && f == g
  {
    var x, y := LeafInput(p, f), LeafInput(q, g);
    assert |x| == 6 + |p| + DIGEST && |y| == 6 + |q| + DIGEST;
    assert x[5..5 + |p|] == p && y[5..5 + |q|] == q;
    assert x[6 + |p|..] == f && y[6 + |q|..] == g;
  }

  lemma NodeInputInjective(a: Bytes, b: Bytes, c: Bytes, d: Bytes)
    requires |a| == |b| == |c| == |d| == DIGEST && NodeInput(a, b) == NodeInput(c, d)
    ensures a == c && b == d
  {
    var x, y := NodeInput(a, b), NodeInput(c, d);
    assert x[5..37] == a && y[5..37] == c;
    assert x[37..] == b && y[37..] == d;
  }

  lemma LeafIsNoNode(p: Bytes, f: Bytes, a: Bytes, b: Bytes)
    ensures LeafInput(p, f) != NodeInput(a, b)
  {
    assert LeafInput(p, f)[0] == 0x6c && NodeInput(a, b)[0] == 0x6e;
  }

  predicate HashesAreDigests(entries: seq<Entry>) {
    forall i :: 0 <= i < |entries| ==> |entries[i].fileHash| == DIGEST
  }

  function LeftPart(entries: seq<Entry>): (r: seq<Entry>)
    requires |entries| > 1
    ensures 0 < |r| < |entries|
  {
    entries[..Split(|entries|)]
  }

  function RightPart(entries: seq<Entry>): (r: seq<Entry>)
    requires |entries| > 1
    ensures 0 < |r| < |entries|
  {
    entries[Split(|entries|)..]
  }

  /** Two equal inner nodes have equal children. */
  lemma NodesBind(h: Bytes -> Bytes, a: seq<Entry>, b: seq<Entry>, inputs: set<Bytes>)
    requires |a| > 1 && |b| > 1
    requires Hashed(h, a) <= inputs && Hashed(h, b) <= inputs
    requires CollisionFree(h, inputs) && DigestLength(h, inputs)
    requires Tree(h, LeavesOf(h, a)) == Tree(h, LeavesOf(h, b))
    ensures Tree(h, LeavesOf(h, LeftPart(a))) == Tree(h, LeavesOf(h, LeftPart(b)))
    ensures Tree(h, LeavesOf(h, RightPart(a))) == Tree(h, LeavesOf(h, RightPart(b)))
    ensures Hashed(h, LeftPart(a)) <= inputs && Hashed(h, RightPart(a)) <= inputs
    ensures Hashed(h, LeftPart(b)) <= inputs && Hashed(h, RightPart(b)) <= inputs
  {
    hide LeafInput, NodeInput, Tree, LeavesOf, Hashed, Split;
    var x := RootIsHashed(h, a);
    var y := RootIsHashed(h, b);
    HashedParts(h, a);
    HashedParts(h, b);
    var _ := RootIsHashed(h, LeftPart(a));
    var _ := RootIsHashed(h, RightPart(a));
    var _ := RootIsHashed(h, LeftPart(b));
    var _ := RootIsHashed(h, RightPart(b));
    NodeInputInjective(Tree(h, LeavesOf(h, LeftPart(a))), Tree(h, LeavesOf(h, RightPart(a))),
                       Tree(h, LeavesOf(h, LeftPart(b))), Tree(h, LeavesOf(h, RightPart(b))));
  }

  /** A single leaf and an inner node have different hashes. */
  lemma LeafAndNodeDiffer(h: Bytes -> Bytes, a: seq<Entry>, b: seq<Entry>, inputs: set<Bytes>)
    requires |a| == 1 && |b| > 1
    requires Hashed(h, a) <= inputs && Hashed(h, b) <= inputs && CollisionFree(h, inputs)
    ensures Tree(h, LeavesOf(h, a)) != Tree(h, LeavesOf(h, b))
  {
    hide LeafInput, NodeInput, Tree, LeavesOf, Hashed;
    var x := RootIsHashed(h, a);
    var y := RootIsHashed(h, b);
    LeafIsNoNode(a[0].path, a[0].fileHash, Tree(h, LeavesOf(h, LeftPart(b))), Tree(h, LeavesOf(h, RightPart(b))));
  }

  /** Equal roots, equal entry lists: numbers of leaves, paths, hashes and order. */
  lemma {:induction false} TreeBinds(h: Bytes -> Bytes, a: seq<Entry>, b: seq<Entry>, inputs: set<Bytes>)
    requires a != [] && b != [] && HashesAreDigests(a) && HashesAreDigests(b)
    requires Hashed(h, a) <= inputs && Hashed(h, b) <= inputs
    requires CollisionFree(h, inputs) && DigestLength(h, inputs)
    requires Tree(h, LeavesOf(h, a)) == Tree(h, LeavesOf(h, b))
    ensures a == b
    decreases |a|
  {
    hide Tree, LeavesOf, Hashed, DigestLength, LeafInput, NodeInput;
    if |a| == 1 && |b| == 1 {
      var x := RootIsHashed(h, a);
      var y := RootIsHashed(h, b);
      LeafInputInjective(a[0].path, a[0].fileHash, b[0].path, b[0].fileHash);
      assert a[0] == b[0];
    } else if |a| == 1 {
      LeafAndNodeDiffer(h, a, b, inputs);
    } else if |b| == 1 {
      LeafAndNodeDiffer(h, b, a, inputs);
    } else {
      NodesBind(h, a, b, inputs);
      TreeBinds(h, LeftPart(a), LeftPart(b), inputs);
      TreeBinds(h, RightPart(a), RightPart(b), inputs);
      assert a == LeftPart(a) + RightPart(a) && b == LeftPart(b) + RightPart(b);
    }
  }

  /** The entries of a file map, in path order. */
  function Entries(files: Files, paths: seq<Bytes>): (r: seq<Entry>)
    requires forall i :: 0 <= i < |paths| ==> paths[i] in files
    ensures |r| == |paths|
    ensures forall i :: 0 <= i < |r| ==> paths[i] in files && r[i] == Entry(paths[i], files[paths[i]])
  {
    seq(|paths|, i requires 0 <= i < |paths| => Entry(paths[i], files[paths[i]]))
  }

  function HashedFor(h: Bytes -> Bytes, files: Files): set<Bytes> {
    if files == map[] then {}
    else
      var paths := Sorted(files.Keys);
      assert |paths| == |files.Keys| && files.Keys != {};
      Hashed(h, Entries(files, paths))
  }

  predicate FileHashes(files: Files) {
    forall p :: p in files ==> |files[p]| == DIGEST
  }

  lemma RootOfEntries(h: Bytes -> Bytes, files: Files)
    requires files != map[]
    ensures |Sorted(files.Keys)| > 0
    ensures Root(h, files) == Tree(h, LeavesOf(h, Entries(files, Sorted(files.Keys))))
  {
    var paths := Sorted(files.Keys);
    assert |paths| == |files.Keys| && files.Keys != {};
    assert Leaves(h, files, paths) == LeavesOf(h, Entries(files, paths));
  }

  /** Equal roots imply equal file maps, for a hash that neither collides on the strings hashed for
      these two maps nor yields the empty map's root on one of them. */
  lemma RootBindsFiles(h: Bytes -> Bytes, a: Files, b: Files)
    requires FileHashes(a) && FileHashes(b)
    requires CollisionFree(h, HashedFor(h, a) + HashedFor(h, b))
    requires DigestLength(h, HashedFor(h, a) + HashedFor(h, b))
    requires forall x :: x in HashedFor(h, a) + HashedFor(h, b) ==> h(x) != EMPTY_ROOT
    requires Root(h, a) == Root(h, b)
    ensures a == b
  {
    hide Tree, LeavesOf, Hashed, Root, CollisionFree, DigestLength;
    var inputs := HashedFor(h, a) + HashedFor(h, b);
    if a == map[] || b == map[] {
      EmptyRootIsEmpty(h, a, b);
    } else {
      RootOfEntries(h, a);
      RootOfEntries(h, b);
      var p, q := Sorted(a.Keys), Sorted(b.Keys);
      var x, y := Entries(a, p), Entries(b, q);
      TreeBinds(h, x, y, inputs);
      EntriesDetermineFiles(a, b);
    }
  }

  lemma EmptyRootIsEmpty(h: Bytes -> Bytes, a: Files, b: Files)
    requires a == map[] || b == map[]
    requires forall x :: x in HashedFor(h, a) + HashedFor(h, b) ==> h(x) != EMPTY_ROOT
    requires Root(h, a) == Root(h, b)
    ensures a == b
  {
    hide Tree, LeavesOf, Hashed;
    if a != map[] {
      RootOfEntries(h, a);
      var _ := RootIsHashed(h, Entries(a, Sorted(a.Keys)));
    }
    if b != map[] {
      RootOfEntries(h, b);
      var _ := RootIsHashed(h, Entries(b, Sorted(b.Keys)));
    }
  }

  lemma EntriesDetermineFiles(a: Files, b: Files)
    requires Entries(a, Sorted(a.Keys)) == Entries(b, Sorted(b.Keys))
    ensures a == b
  {
    hide Sorted, Leq, Entries;
    var p := Sorted(a.Keys);
    EntriesAgree(a, b, p, Sorted(b.Keys));
    assert forall path :: path in a <==> path in p;
    assert forall path :: path in b <==> path in p;
    assert a.Keys == b.Keys;
  }

  lemma EntriesAgree(a: Files, b: Files, p: seq<Bytes>, q: seq<Bytes>)
    requires forall i :: 0 <= i < |p| ==> p[i] in a
    requires forall i :: 0 <= i < |q| ==> q[i] in b
    requires Entries(a, p) == Entries(b, q)
    ensures p == q && forall path :: path in p ==> path in a && path in b && a[path] == b[path]
  {
    var x, y := Entries(a, p), Entries(b, q);
    forall i | 0 <= i < |p|
      ensures i < |q| && p[i] == q[i] && a[p[i]] == b[q[i]]
    {
      assert x[i] == y[i];
    }
  }
}
