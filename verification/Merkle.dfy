/**
 The guardian Merkle tree: root builder, proof builder and verifier, and what ties the three
 loops together. The digest is a parameter, so no property of keccak256 is assumed; where a
 property needs collision resistance, the colliding pair is exhibited instead.
 */
module Merkle {
  import opened Bytes

  type Address = a: Bytes | |a| == 20 witness seq(20, _ => 0)

  /** `abi.encode(address)`: the address left-padded with zeros to 32 bytes. */
  function Padded(a: Address): (w: Bytes)
    ensures |w| == 32
    ensures w[12..] == a && forall i :: 0 <= i < 12 ==> w[i] == 0
  {
    seq(12, _ => 0) + a
  }

  function Leaf(h: Hash, a: Address): Word {
    h(Padded(a))
  }

  /** The 64-byte buffer that a pair is hashed from: smaller node first. */
  function PairBuffer(a: Word, b: Word): (w: Bytes)
    ensures |w| == 64
  {
    if LexLeq(a, b) then a + b else b + a
  }

  function HashPair(h: Hash, a: Word, b: Word): Word {
    h(PairBuffer(a, b))
  }

  lemma {:induction false} PairBufferSymmetric(a: Word, b: Word)
    ensures PairBuffer(a, b) == PairBuffer(b, a)
  {
    LexTotal(a, b);
    if LexLeq(a, b) && LexLeq(b, a) {
      LexAntisymmetric(a, b);
    }
  }

  /** The buffer starts with the node of the smaller big-endian value. */
  lemma {:induction false} SmallerComesFirst(a: Word, b: Word)
    ensures PairBuffer(a, b) == if BigEndian(a) <= BigEndian(b) then a + b else b + a
  {
    LexIsBigEndian(a, b);
  }

  // ---------------------------------------------------------------------
  // Sorting
  // ---------------------------------------------------------------------

  predicate Ordered(s: seq<Word>) {
    forall i, j :: 0 <= i < j < |s| ==> LexLeq(s[i], s[j])
  }

  function Insert(x: Word, s: seq<Word>): seq<Word> {
    if s == [] || LexLeq(x, s[0]) then [x] + s else [s[0]] + Insert(x, s[1..])
  }

  /** What `sort_unstable` leaves behind; `SortUnique` shows that any sort gives this result. */
  function Sort(s: seq<Word>): seq<Word> {
    if s == [] then [] else Insert(s[0], Sort(s[1..]))
  }

  lemma {:induction false} InsertOrders(x: Word, s: seq<Word>)
    requires Ordered(s)
    ensures Ordered(Insert(x, s))
    ensures multiset(Insert(x, s)) == multiset{x} + multiset(s)
  {
    if s == [] {
    } else if LexLeq(x, s[0]) {
      forall i | 0 <= i < |s| ensures LexLeq(x, s[i]) {
        if i > 0 { LexTransitive(x, s[0], s[i]); }
      }
    } else {
      LexTotal(x, s[0]);
      InsertOrders(x, s[1..]);
      var rest := Insert(x, s[1..]);
      assert s == [s[0]] + s[1..];
      forall i | 0 <= i < |rest| ensures LexLeq(s[0], rest[i]) {
        assert rest[i] in multiset(rest);
        assert rest[i] == x || rest[i] in s[1..];
      }
    }
  }

  lemma {:induction false} SortOrders(s: seq<Word>)
    ensures Ordered(Sort(s)) && multiset(Sort(s)) == multiset(s) && |Sort(s)| == |s|
  {
    if s != [] {
      SortOrders(s[1..]);
      InsertOrders(s[0], Sort(s[1..]));
      assert s == [s[0]] + s[1..];
    }
    assert |multiset(Sort(s))| == |multiset(s)|;
  }

  lemma {:induction false} HeadIsLeast(a: seq<Word>, b: seq<Word>)
    requires Ordered(a) && Ordered(b) && multiset(a) == multiset(b) && a != [] && b != []
    ensures LexLeq(a[0], b[0])
  {
    assert b[0] in multiset(a);
    var j :| 0 <= j < |a| && a[j] == b[0];
    if j == 0 { LexTotal(a[0], b[0]); }
  }

  lemma {:induction false} TailsAgree(x: Word, s: seq<Word>, t: seq<Word>)
    requires multiset([x] + s) == multiset([x] + t)
    ensures multiset(s) == multiset(t)
  {
    assert multiset(s) == multiset([x] + s) - multiset{x};
    assert multiset(t) == multiset([x] + t) - multiset{x};
  }

  /** Two ordered arrangements of the same words are equal: sorting has only one result. */
  lemma {:induction false} SortUnique(a: seq<Word>, b: seq<Word>)
    requires Ordered(a) && Ordered(b) && multiset(a) == multiset(b)
    ensures a == b
  {
    assert |multiset(a)| == |multiset(b)|;
    if a != [] {
      HeadIsLeast(a, b);
      HeadIsLeast(b, a);
      LexAntisymmetric(a[0], b[0]);
      assert a == [a[0]] + a[1..] && b == [a[0]] + b[1..];
      TailsAgree(a[0], a[1..], b[1..]);
      SortUnique(a[1..], b[1..]);
    }
  }

  function Leaves(h: Hash, addresses: seq<Address>): (ls: seq<Word>)
    ensures |ls| == |addresses|
    ensures forall i :: 0 <= i < |ls| ==> ls[i] == Leaf(h, addresses[i])
  {
    seq(|addresses|, i requires 0 <= i < |addresses| => Leaf(h, addresses[i]))
  }

  function SortedLeaves(h: Hash, addresses: seq<Address>): (s: seq<Word>)
    ensures |s| == |addresses|
  {
    SortOrders(Leaves(h, addresses));
    Sort(Leaves(h, addresses))
  }

  // ---------------------------------------------------------------------
  // The tree, one level at a time
  // ---------------------------------------------------------------------

  /** One pass of the builder: adjacent nodes are paired, an odd trailing node is carried up. */
  function NextLevel(h: Hash, level: seq<Word>): (next: seq<Word>)
    ensures |next| == (|level| + 1) / 2
  {
    seq((|level| + 1) / 2, k requires 0 <= k < (|level| + 1) / 2 =>
      if 2 * k + 1 < |level| then HashPair(h, level[2 * k], level[2 * k + 1]) else level[2 * k])
  }

  function Root(h: Hash, level: seq<Word>): Word
    requires level != []
    decreases |level|
  {
    if |level| == 1 then level[0] else Root(h, NextLevel(h, level))
  }

  /** The sibling of node `idx`, if it has one at this level. */
  function Sibling(level: seq<Word>, idx: nat): seq<Word>
    requires idx < |level|
  {
    if idx % 2 == 1 then [level[idx - 1]]
    else if idx + 1 < |level| then [level[idx + 1]]
    else []
  }

  function Siblings(h: Hash, level: seq<Word>, idx: nat): seq<Word>
    requires idx < |level|
    decreases |level|
  {
    if |level| == 1 then [] else Sibling(level, idx) + Siblings(h, NextLevel(h, level), idx / 2)
  }

  /** The verifier's running digest after the whole proof. */
  function Fold(h: Hash, proof: seq<Word>, leaf: Word): Word {
    if proof == [] then leaf
    else HashPair(h, Fold(h, proof[..|proof| - 1], leaf), proof[|proof| - 1])
  }

  lemma {:induction false} FoldFirst(h: Hash, p: Word, proof: seq<Word>, leaf: Word)
    ensures Fold(h, [p] + proof, leaf) == Fold(h, proof, HashPair(h, leaf, p))
  {
    var all := [p] + proof;
    if proof == [] {
      assert all[..0] == [];
    } else {
      assert all[..|all| - 1] == [p] + proof[..|proof| - 1];
      FoldFirst(h, p, proof[..|proof| - 1], leaf);
    }
  }

  /** Sorted leaves stand in ascending order of their big-endian values, and are the leaves. */
  lemma {:induction false} SortedLeavesAscend(h: Hash, addresses: seq<Address>)
    ensures var ls := SortedLeaves(h, addresses);
            && multiset(ls) == multiset(Leaves(h, addresses))
            && forall i, j :: 0 <= i < j < |ls| ==> BigEndian(ls[i]) <= BigEndian(ls[j])
  {
    var ls := SortedLeaves(h, addresses);
    SortOrders(Leaves(h, addresses));
    forall i, j | 0 <= i < j < |ls| ensures BigEndian(ls[i]) <= BigEndian(ls[j]) {
      LexIsBigEndian(ls[i], ls[j]);
    }
  }

  /** Three guardians: the first two leaves are paired, the third is carried up to the root. */
  lemma {:induction false} ThreeLeaves(h: Hash, a: Word, b: Word, c: Word)
    ensures Root(h, [a, b, c]) == HashPair(h, HashPair(h, a, b), c)
  {
    var top := HashPair(h, HashPair(h, a, b), c);
    assert NextLevel(h, [a, b, c]) == [HashPair(h, a, b), c];
    assert NextLevel(h, [HashPair(h, a, b), c]) == [top];
    assert Root(h, [top]) == top;
    assert Root(h, [HashPair(h, a, b), c]) == Root(h, [top]);
  }

  // ---------------------------------------------------------------------
  // The three loops
  // ---------------------------------------------------------------------

  /** One level of the root builder, node by node. */
  method BuildNextLevel(h: Hash, level: seq<Word>) returns (next: seq<Word>)
    ensures next == NextLevel(h, level)
  {
    next := [];
    var i := 0;
    while i < |level|
      invariant 0 <= i <= |level| && (i % 2 == 0 || i == |level|)
      invariant |next| == (i + 1) / 2
      invariant next == NextLevel(h, level)[..(i + 1) / 2]
    {
      if i + 1 < |level| {
        next := next + [HashPair(h, level[i], level[i + 1])];
        i := i + 2;
      } else {
        next := next + [level[i]];
        i := i + 1;
      }
    }
  }

  method BuildGuardianRoot(h: Hash, addresses: seq<Address>) returns (root: Word)
    requires addresses != []
    ensures root == Root(h, SortedLeaves(h, addresses))
  {
    var level := SortedLeaves(h, addresses);
    while |level| > 1
      invariant level != []
      invariant Root(h, level) == Root(h, SortedLeaves(h, addresses))
      decreases |level|
    {
      level := BuildNextLevel(h, level);
    }
    root := level[0];
  }

  function Position(s: seq<Word>, x: Word): (p: Option<nat>)
    ensures p.Some? ==> p.value < |s| && s[p.value] == x && x !in s[..p.value]
    ensures p.None? ==> x !in s
  {
    if s == [] then None
    else if s[0] == x then Some(0)
    else match Position(s[1..], x)
      case None => None
      case Some(k) => assert s[..k + 1] == [s[0]] + s[1..][..k]; Some(k + 1)
  }

  /** One level of the proof builder: the next level, and the sibling of `idx` if it is met. */
  method BuildProofLevel(h: Hash, level: seq<Word>, idx: nat)
    returns (next: seq<Word>, sibling: seq<Word>)
    requires idx < |level|
    ensures next == NextLevel(h, level) && sibling == Sibling(level, idx)
  {
    next := [];
    sibling := [];
    var i := 0;
    while i < |level|
      invariant 0 <= i <= |level| && (i % 2 == 0 || i == |level|)
      invariant |next| == (i + 1) / 2
      invariant next == NextLevel(h, level)[..(i + 1) / 2]
      invariant sibling == if idx < i then Sibling(level, idx) else []
    {
      if i + 1 < |level| {
        var combined := HashPair(h, level[i], level[i + 1]);
        if i == idx {
          sibling := sibling + [level[i + 1]];
        } else if i + 1 == idx {
          sibling := sibling + [level[i]];
        }
        next := next + [combined];
        i := i + 2;
      } else {
        next := next + [level[i]];
        i := i + 1;
      }
    }
  }

  /** The proof a builder run returns: the siblings of the first leaf equal to the guardian's. */
  function MembershipProof(h: Hash, addresses: seq<Address>, guardian: Address): Option<seq<Word>> {
    var leaves := SortedLeaves(h, addresses);
    match Position(leaves, Leaf(h, guardian))
    case None => None
    case Some(idx) => Some(Siblings(h, leaves, idx))
  }

  method BuildMembershipProof(h: Hash, addresses: seq<Address>, guardian: Address)
    returns (r: Option<seq<Word>>)
    ensures r == MembershipProof(h, addresses, guardian)
  {
    var leaves := SortedLeaves(h, addresses);
    var found := Position(leaves, Leaf(h, guardian));
    if found.None? {
      return None;
    }
    var idx: nat, level, proof: seq<Word> := found.value, leaves, [];
    while |level| > 1
      invariant idx < |level|
      invariant proof + Siblings(h, level, idx) == Siblings(h, leaves, found.value)
      decreases |level|
    {
      var next, sibling := BuildProofLevel(h, level, idx);
      assert proof + (sibling + Siblings(h, next, idx / 2))
          == (proof + sibling) + Siblings(h, next, idx / 2);
      proof := proof + sibling;
      idx := idx / 2;
      level := next;
    }
    assert proof + [] == proof;
    return Some(proof);
  }

  method VerifyMembershipProof(h: Hash, proof: seq<Word>, root: Word, leaf: Word) returns (ok: bool)
    ensures ok <==> Fold(h, proof, leaf) == root
  {
    var computed := leaf;
    for i := 0 to |proof|
      invariant computed == Fold(h, proof[..i], leaf)
    {
      assert proof[..i + 1][..i] == proof[..i];
      computed := HashPair(h, computed, proof[i]);
    }
    assert proof[..|proof|] == proof;
    ok := computed == root;
  }

  // ---------------------------------------------------------------------
  // Completeness, order independence, length
  // ---------------------------------------------------------------------

  /** A node's parent is the node paired with its sibling, or the node itself when it has none. */
  lemma {:induction false} ParentOf(h: Hash, level: seq<Word>, idx: nat)
    requires idx < |level|
    ensures var sibling, parent := Sibling(level, idx), NextLevel(h, level)[idx / 2];
            if sibling == [] then parent == level[idx] else parent == HashPair(h, level[idx], sibling[0])
  {
    if idx % 2 == 1 {
      PairBufferSymmetric(level[idx - 1], level[idx]);
    }
  }

  /** Folding in one level's sibling moves from a node to its parent. */
  lemma {:induction false} LevelStep(h: Hash, level: seq<Word>, idx: nat, rest: seq<Word>)
    requires idx < |level|
    ensures Fold(h, Sibling(level, idx) + rest, level[idx]) == Fold(h, rest, NextLevel(h, level)[idx / 2])
  {
    ParentOf(h, level, idx);
    var sibling := Sibling(level, idx);
    if sibling == [] {
      assert sibling + rest == rest;
    } else {
      assert sibling == [sibling[0]];
      FoldFirst(h, sibling[0], rest, level[idx]);
    }
  }

  /** Folding the siblings of any node of a level gives that level's root. */
  lemma {:induction false} SiblingsReachRoot(h: Hash, level: seq<Word>, idx: nat)
    requires idx < |level|
    ensures Fold(h, Siblings(h, level, idx), level[idx]) == Root(h, level)
    decreases |level|
  {
    if |level| > 1 {
      var next := NextLevel(h, level);
      LevelStep(h, level, idx, Siblings(h, next, idx / 2));
      SiblingsReachRoot(h, next, idx / 2);
    }
  }

  lemma {:induction false} SameWords(s: seq<Word>, x: Word)
    ensures x in Sort(s) <==> x in s
  {
    SortOrders(s);
    assert x in multiset(Sort(s)) <==> x in multiset(s);
  }

  /**
   Completeness. A proof is built exactly when the guardian's leaf is among the leaves (so for
   every member, duplicates or not), and every proof that is built is accepted.
   */
  lemma {:induction false} Completeness(h: Hash, addresses: seq<Address>, guardian: Address)
    ensures MembershipProof(h, addresses, guardian).Some? <==> Leaf(h, guardian) in Leaves(h, addresses)
    ensures guardian in addresses ==> MembershipProof(h, addresses, guardian).Some?
    ensures MembershipProof(h, addresses, guardian).Some? ==>
              addresses != []
              && Fold(h, MembershipProof(h, addresses, guardian).value, Leaf(h, guardian))
                 == Root(h, SortedLeaves(h, addresses))
  {
    var leaves := SortedLeaves(h, addresses);
    SameWords(Leaves(h, addresses), Leaf(h, guardian));
    if guardian in addresses {
      var i :| 0 <= i < |addresses| && addresses[i] == guardian;
      assert Leaves(h, addresses)[i] == Leaf(h, guardian);
    }
    var found := Position(leaves, Leaf(h, guardian));
    if found.Some? {
      SiblingsReachRoot(h, leaves, found.value);
    }
  }

  lemma {:induction false} LeavesConcat(h: Hash, a: seq<Address>, b: seq<Address>)
    ensures Leaves(h, a + b) == Leaves(h, a) + Leaves(h, b)
  {
  }

  function Without<T>(s: seq<T>, i: nat): seq<T>
    requires i < |s|
  {
    s[..i] + s[i + 1..]
  }

  lemma {:induction false} WithoutMultiset<T>(s: seq<T>, i: nat)
    requires i < |s|
    ensures multiset(s) == multiset{s[i]} + multiset(Without(s, i))
  {
    assert s == s[..i] + ([s[i]] + s[i + 1..]);
  }

  lemma {:induction false} LeavesWithout(h: Hash, s: seq<Address>, i: nat)
    requires i < |s|
    ensures multiset(Leaves(h, s)) == multiset{Leaf(h, s[i])} + multiset(Leaves(h, Without(s, i)))
  {
    LeavesConcat(h, s[..i], s[i + 1..]);
    WithoutMultiset(Leaves(h, s), i);
    assert Leaves(h, s)[..i] == Leaves(h, s[..i]);
    assert Leaves(h, s)[i + 1..] == Leaves(h, s[i + 1..]);
  }

  lemma {:induction false} LeavesMultiset(h: Hash, a: seq<Address>, b: seq<Address>)
    requires multiset(a) == multiset(b)
    ensures multiset(Leaves(h, a)) == multiset(Leaves(h, b))
  {
    assert |multiset(a)| == |multiset(b)|;
    if a != [] {
      assert a[0] in multiset(b);
      var i :| 0 <= i < |b| && b[i] == a[0];
      WithoutMultiset(a, 0);
      WithoutMultiset(b, i);
      assert multiset(Without(a, 0)) == multiset(a) - multiset{a[0]};
      assert multiset(Without(b, i)) == multiset(b) - multiset{a[0]};
      LeavesMultiset(h, Without(a, 0), Without(b, i));
      LeavesWithout(h, a, 0);
      LeavesWithout(h, b, i);
    }
  }

  /** The root depends on the guardians as a multiset only, not on the order they are listed in. */
  lemma {:induction false} OrderIndependence(h: Hash, a: seq<Address>, b: seq<Address>)
    requires a != [] && multiset(a) == multiset(b)
    ensures b != [] && SortedLeaves(h, a) == SortedLeaves(h, b)
    ensures Root(h, SortedLeaves(h, a)) == Root(h, SortedLeaves(h, b))
  {
    LeavesMultiset(h, a, b);
    SortOrders(Leaves(h, a));
    SortOrders(Leaves(h, b));
    SortUnique(SortedLeaves(h, a), SortedLeaves(h, b));
  }

  function Pow2(k: nat): nat {
    if k == 0 then 1 else 2 * Pow2(k - 1)
  }

  /** The number of levels above `n` leaves: ceil(log2 n). */
  function Depth(n: nat): nat {
    if n <= 1 then 0 else 1 + Depth((n + 1) / 2)
  }

  lemma {:induction false} DepthIsLog(n: nat, k: nat)
    requires n <= Pow2(k)
    ensures Depth(n) <= k
    decreases k
  {
    if n > 1 {
      DepthIsLog((n + 1) / 2, k - 1);
    }
  }

  lemma {:induction false} SiblingsPerLevel(h: Hash, level: seq<Word>, idx: nat)
    requires idx < |level|
    ensures |Siblings(h, level, idx)| <= Depth(|level|)
    decreases |level|
  {
    if |level| > 1 {
      SiblingsPerLevel(h, NextLevel(h, level), idx / 2);
    }
  }

  /** At most ceil(log2 n) siblings: no more than k of them when n <= 2^k. */
  lemma {:induction false} ProofLength(h: Hash, level: seq<Word>, idx: nat, k: nat)
    requires idx < |level| <= Pow2(k)
    ensures |Siblings(h, level, idx)| <= k
  {
    SiblingsPerLevel(h, level, idx);
    DepthIsLog(|level|, k);
  }

  // ---------------------------------------------------------------------
  // Soundness by collision extraction
  // ---------------------------------------------------------------------

  /** How a node of the builder's tree came about. */
  datatype Tree = Tip(word: Word) | Branch(left: Tree, right: Tree)

  function Value(h: Hash, t: Tree): Word {
    match t
    case Tip(w) => w
    case Branch(l, r) => HashPair(h, Value(h, l), Value(h, r))
  }

  ghost predicate TipsIn(t: Tree, leaves: seq<Word>) {
    match t
    case Tip(w) => w in leaves
    case Branch(l, r) => TipsIn(l, leaves) && TipsIn(r, leaves)
  }

  /** The pair buffers hashed while the tree was built. */
  function Buffers(h: Hash, t: Tree): set<Bytes> {
    match t
    case Tip(_) => {}
    case Branch(l, r) => {PairBuffer(Value(h, l), Value(h, r))} + Buffers(h, l) + Buffers(h, r)
  }

  /** The byte strings that a verifier run hashes, its guardian's leaf word included. */
  function VerifierInputs(h: Hash, guardian: Address, proof: seq<Word>): set<Bytes> {
    if proof == [] then {Padded(guardian)}
    else
      var front := proof[..|proof| - 1];
      VerifierInputs(h, guardian, front)
      + {PairBuffer(Fold(h, front, Leaf(h, guardian)), proof[|proof| - 1])}
  }

  function Values(h: Hash, ts: seq<Tree>): (vs: seq<Word>)
    ensures |vs| == |ts|
  {
    seq(|ts|, i requires 0 <= i < |ts| => Value(h, ts[i]))
  }

  function NextTrees(ts: seq<Tree>): (next: seq<Tree>)
    ensures |next| == (|ts| + 1) / 2
  {
    seq((|ts| + 1) / 2, k requires 0 <= k < (|ts| + 1) / 2 =>
      if 2 * k + 1 < |ts| then Branch(ts[2 * k], ts[2 * k + 1]) else ts[2 * k])
  }

  function RootTree(ts: seq<Tree>): Tree
    requires ts != []
    decreases |ts|
  {
    if |ts| == 1 then ts[0] else RootTree(NextTrees(ts))
  }

  function Tips(leaves: seq<Word>): (ts: seq<Tree>)
    ensures |ts| == |leaves|
  {
    seq(|leaves|, i requires 0 <= i < |leaves| => Tip(leaves[i]))
  }

  /** Every byte string hashed by a root-builder run over `addresses`. */
  function BuilderInputs(h: Hash, addresses: seq<Address>): set<Bytes>
    requires addresses != []
  {
    (set a | a in addresses :: Padded(a)) + Buffers(h, RootTree(Tips(SortedLeaves(h, addresses))))
  }

  lemma {:induction false} NextValues(h: Hash, ts: seq<Tree>)
    ensures Values(h, NextTrees(ts)) == NextLevel(h, Values(h, ts))
  {
  }

  lemma {:induction false} RootTreeValue(h: Hash, ts: seq<Tree>, leaves: seq<Word>)
    requires ts != []
    requires forall i :: 0 <= i < |ts| ==> TipsIn(ts[i], leaves)
    ensures Value(h, RootTree(ts)) == Root(h, Values(h, ts))
    ensures TipsIn(RootTree(ts), leaves)
    decreases |ts|
  {
    if |ts| > 1 {
      RootTreeValue(h, NextTrees(ts), leaves);
      NextValues(h, ts);
    }
  }

  /** Equal pair buffers hold the same two words. */
  lemma {:induction false} PairBufferInjective(a: Word, b: Word, c: Word, d: Word)
    requires PairBuffer(a, b) == PairBuffer(c, d)
    ensures (a == c && b == d) || (a == d && b == c)
  {
    var p := PairBuffer(a, b);
    assert p[..32] == a || p[..32] == b;
    assert p[32..] == a || p[32..] == b;
    assert p[..32] == c || p[..32] == d;
    assert p[32..] == c || p[32..] == d;
  }

  /**
   Walks an accepting proof down the tree. Either the walk ends in a leaf equal to the guardian's
   digest, or it meets a byte string that the verifier hashed, different from the one the builder
   hashed to the same digest; leaf words (32 bytes) and pair buffers (64 bytes) never coincide.
   */
  lemma {:induction false} Descend(h: Hash, t: Tree, addresses: seq<Address>, proof: seq<Word>, guardian: Address)
    returns (x: Bytes, y: Bytes)
    requires TipsIn(t, Leaves(h, addresses))
    requires Fold(h, proof, Leaf(h, guardian)) == Value(h, t)
    ensures guardian in addresses
            || (x != y && h(x) == h(y)
                && y in VerifierInputs(h, guardian, proof)
                && x in (set a | a in addresses :: Padded(a)) + Buffers(h, t))
    decreases t
  {
    y := Padded(guardian);
    if proof != [] {
      y := PairBuffer(Fold(h, proof[..|proof| - 1], Leaf(h, guardian)), proof[|proof| - 1]);
    }
    match t {
      case Tip(w) =>
        var i :| 0 <= i < |addresses| && Leaves(h, addresses)[i] == w;
        x := Padded(addresses[i]);
        if x == y {
          assert x[12..] == addresses[i] && y[12..] == guardian;
        }
      case Branch(l, r) =>
        x := PairBuffer(Value(h, l), Value(h, r));
        if x == y {
          var front := proof[..|proof| - 1];
          PairBufferInjective(Value(h, l), Value(h, r), Fold(h, front, Leaf(h, guardian)), proof[|proof| - 1]);
          var child := if Value(h, l) == Fold(h, front, Leaf(h, guardian)) then l else r;
          x, y := Descend(h, child, addresses, front, guardian);
        }
    }
  }

  /**
   Soundness. If a proof for `guardian` is accepted against the root built from `addresses`, then
   `guardian` is one of them, or two different byte strings with the same digest are at hand, one
   hashed by the root builder and one by the verifier.
   */
  lemma {:induction false} Soundness(h: Hash, addresses: seq<Address>, proof: seq<Word>, guardian: Address)
    returns (x: Bytes, y: Bytes)
    requires addresses != []
    requires Fold(h, proof, Leaf(h, guardian)) == Root(h, SortedLeaves(h, addresses))
    ensures guardian in addresses
            || (x != y && h(x) == h(y)
                && x in BuilderInputs(h, addresses) && y in VerifierInputs(h, guardian, proof))
  {
    var leaves := SortedLeaves(h, addresses);
    var ts := Tips(leaves);
    forall i | 0 <= i < |ts| ensures TipsIn(ts[i], Leaves(h, addresses)) {
      SameWords(Leaves(h, addresses), leaves[i]);
    }
    RootTreeValue(h, ts, Leaves(h, addresses));
    assert Values(h, ts) == leaves;
    x, y := Descend(h, RootTree(ts), addresses, proof, guardian);
  }
}
