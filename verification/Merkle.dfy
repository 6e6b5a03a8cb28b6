/** Merkle roots and inclusion proofs: the level-by-level loop computes a recursive tree hash,
    every leaf has a proof, and a proof of the right length binds its leaf. */
module Merkle {
  import opened Hashing

  function Pow2(d: nat): (p: nat)
    ensures p >= 1
  {
    if d == 0 then 1 else 2 * Pow2(d - 1)
  }

  /** The height of the tree over n leaves. */
  function Height(n: nat): (d: nat)
    ensures n <= Pow2(d)
  {
    if n <= 1 then 0 else 1 + Height((n + 1) / 2)
  }

  /** Height is the rounded-up binary logarithm. */
  lemma {:induction false} HeightIsCeilLog(n: nat, d: nat)
    requires n >= 1
    ensures n <= Pow2(d) <==> Height(n) <= d
  {
    if n > 1 && d > 0 { HeightIsCeilLog((n + 1) / 2, d - 1); }
    if n > 1 && d == 0 { assert Height(n) >= 1; }
  }

  /** The node over the pair at 2k; a last unpaired node is hashed with itself. */
  function Parent(h: Hash, ls: seq<Bytes>, k: nat): Digest
    requires 2 * k < |ls|
  {
    h(ParentInput(ls, k))
  }

  function ParentInput(ls: seq<Bytes>, k: nat): Bytes
    requires 2 * k < |ls|
  {
    ls[2 * k] + ls[if 2 * k + 1 < |ls| then 2 * k + 1 else 2 * k]
  }

  function Level(h: Hash, ls: seq<Bytes>): seq<Bytes> {
    seq((|ls| + 1) / 2, k requires 0 <= k < (|ls| + 1) / 2 => Parent(h, ls, k))
  }

  /** The messages hashed to build the next level. */
  ghost function LevelInputs(ls: seq<Bytes>): set<Bytes> {
    set k | 0 <= k < (|ls| + 1) / 2 :: ParentInput(ls, k)
  }

  /** The messages hashed level by level down to the root. */
  ghost function LoopInputs(h: Hash, ls: seq<Bytes>): set<Bytes>
    decreases |ls|
  {
    if |ls| <= 1 then {} else LevelInputs(ls) + LoopInputs(h, Level(h, ls))
  }

  /** The leaves under one child of a tree of height d + 1: the left half is full, and a
      missing right half repeats the left one. */
  function Child(ls: seq<Bytes>, d: nat, right: bool): (c: seq<Bytes>)
    requires 1 <= |ls| <= Pow2(d + 1)
    ensures 1 <= |c| <= Pow2(d)
  {
    if |ls| <= Pow2(d) then ls else if right then ls[Pow2(d)..] else ls[..Pow2(d)]
  }

  /** The hash of the tree of height d over a non-empty list. */
  function Tree(h: Hash, ls: seq<Bytes>, d: nat): Bytes
    requires 1 <= |ls| <= Pow2(d)
  {
    if d == 0 then ls[0] else h(Tree(h, Child(ls, d - 1, false), d - 1) + Tree(h, Child(ls, d - 1, true), d - 1))
  }

  function Root(h: Hash, ls: seq<Bytes>): Bytes {
    if ls == [] then Zeros() else Tree(h, ls, Height(|ls|))
  }

  lemma LevelHalves(h: Hash, ls: seq<Bytes>, m: nat)
    requires 2 * m <= |ls|
    ensures Level(h, ls[..2 * m]) == Level(h, ls)[..m] && Level(h, ls[2 * m..]) == Level(h, ls)[m..]
  {
    forall k | 0 <= k < m ensures Level(h, ls[..2 * m])[k] == Level(h, ls)[k] {}
    forall k | 0 <= k < |Level(h, ls)| - m ensures Level(h, ls[2 * m..])[k] == Level(h, ls)[m + k] {}
  }

  /** Hashing one level lowers the tree by one. */
  lemma {:induction false} TreeOfLevel(h: Hash, ls: seq<Bytes>, d: nat)
    requires 1 <= |ls| <= Pow2(d + 1)
    ensures Tree(h, ls, d + 1) == Tree(h, Level(h, ls), d)
  {
    var half := Pow2(d);
    if d == 0 {
      assert Level(h, ls)[0] == Parent(h, ls, 0);
    } else if |ls| <= half {
      TreeOfLevel(h, ls, d - 1);
    } else {
      LevelHalves(h, ls, Pow2(d - 1));
      TreeOfLevel(h, ls[..half], d - 1);
      TreeOfLevel(h, ls[half..], d - 1);
    }
  }

  lemma HeightStep(n: nat)
    requires n > 1
    ensures Height(n) == Height((n + 1) / 2) + 1
  {}

  lemma TreeLowered(h: Hash, ls: seq<Bytes>, up: nat, level: seq<Bytes>, d: nat)
    requires up == d + 1 && 1 <= |ls| <= Pow2(up) && level == Level(h, ls) && 1 <= |level| <= Pow2(d)
    ensures Tree(h, level, d) == Tree(h, ls, up)
  {
    TreeOfLevel(h, ls, d);
  }

  lemma RootOfLevel(h: Hash, ls: seq<Bytes>)
    requires |ls| > 1
    ensures Root(h, Level(h, ls)) == Root(h, ls)
  {
    HeightStep(|ls|);
    TreeLowered(h, ls, Height(|ls|), Level(h, ls), Height(|Level(h, ls)|));
  }

  /** One pass of the outer loop, and what it hashed. */
  method NextLevel(h: Hash, current: seq<Bytes>) returns (next: seq<Bytes>, ghost hashed: set<Bytes>)
    ensures next == Level(h, current) && hashed == LevelInputs(current)
  {
    next, hashed := [], {};
    var i := 0;
    while i < |current|
      invariant 0 <= i <= |current| + 1 && i % 2 == 0 && |next| == i / 2
      invariant forall k :: 0 <= k < |next| ==> next[k] == Parent(h, current, k)
      invariant hashed == set k | 0 <= k < |next| :: ParentInput(current, k)
    {
      hashed := hashed + {ParentInput(current, i / 2)};
      if i + 1 < |current| {
        next := next + [h(current[i] + current[i + 1])];
      } else {
        next := next + [h(current[i] + current[i])];
      }
      i := i + 2;
    }
  }

  method MerkleRoot(h: Hash, leaves: seq<Bytes>) returns (root: Bytes, ghost hashed: set<Bytes>)
    ensures root == Root(h, leaves) && hashed == LoopInputs(h, leaves)
  {
    hashed := {};
    if |leaves| == 0 { return Zeros(), {}; }
    if |leaves| == 1 { return leaves[0], {}; }
    var current := leaves;
    while |current| > 1
      invariant |current| >= 1 && Root(h, current) == Root(h, leaves)
      invariant hashed + LoopInputs(h, current) == LoopInputs(h, leaves)
      decreases |current|
    {
      RootOfLevel(h, current);
      ghost var more;
      current, more := NextLevel(h, current);
      hashed := hashed + more;
    }
    root := current[0];
  }

  // ----- inclusion proofs

  function Pair(current: Bytes, sibling: Bytes, isLeft: bool): Bytes {
    if isLeft then sibling + current else current + sibling
  }

  /** Hashing a leaf up along its siblings. */
  function Climb(h: Hash, leaf: Bytes, siblings: seq<Bytes>, isLeft: seq<bool>): Bytes
    requires |siblings| == |isLeft|
  {
    if siblings == [] then leaf
    else
      var n := |siblings| - 1;
      h(Pair(Climb(h, leaf, siblings[..n], isLeft[..n]), siblings[n], isLeft[n]))
  }

  method VerifyInclusionProof(h: Hash, leaf: Bytes, siblings: seq<Bytes>, isLeft: seq<bool>, root: Bytes)
    returns (ok: bool, ghost hashed: set<Bytes>)
    ensures ok <==> |siblings| == |isLeft| && Climb(h, leaf, siblings, isLeft) == root
    ensures |siblings| == |isLeft| ==> hashed == ProofInputs(h, leaf, siblings, isLeft)
  {
    hashed := {};
    if |siblings| != |isLeft| { return false, {}; }
    var current := leaf;
    for i := 0 to |siblings|
      invariant current == Climb(h, leaf, siblings[..i], isLeft[..i])
      invariant hashed == ProofInputs(h, leaf, siblings[..i], isLeft[..i])
    {
      hashed := hashed + {Pair(current, siblings[i], isLeft[i])};
      assert siblings[..i + 1][..i] == siblings[..i] && isLeft[..i + 1][..i] == isLeft[..i];
      if isLeft[i] {
        current := h(siblings[i] + current);
      } else {
        current := h(current + siblings[i]);
      }
    }
    assert siblings[..|siblings|] == siblings && isLeft[..|isLeft|] == isLeft;
    ok := current == root;
  }

  datatype Path = Path(siblings: seq<Bytes>, isLeft: seq<bool>)

  /** Which child of a tree of height d + 1 leaf i is under, and where. */
  function GoesRight(n: nat, d: nat, i: nat): bool { n > Pow2(d) && i >= Pow2(d) }

  function Below(n: nat, d: nat, i: nat): (k: nat) { if GoesRight(n, d, i) then i - Pow2(d) else i }

  lemma ChildHolds(ls: seq<Bytes>, d: nat, i: nat)
    requires i < |ls| <= Pow2(d + 1)
    ensures var child, k := Child(ls, d, GoesRight(|ls|, d, i)), Below(|ls|, d, i); k < |child| && child[k] == ls[i]
  {}

  /** The sibling path of leaf i in the tree of height d. */
  function SiblingPath(h: Hash, ls: seq<Bytes>, d: nat, i: nat): (p: Path)
    requires i < |ls| <= Pow2(d)
    ensures |p.siblings| == |p.isLeft| == d
  {
    if d == 0 then Path([], [])
    else
      ChildHolds(ls, d - 1, i);
      var right := GoesRight(|ls|, d - 1, i);
      var p := SiblingPath(h, Child(ls, d - 1, right), d - 1, Below(|ls|, d - 1, i));
      Path(p.siblings + [Tree(h, Child(ls, d - 1, !right), d - 1)], p.isLeft + [right])
  }

  lemma ClimbOneMore(h: Hash, leaf: Bytes, p: Path, sibling: Bytes, left: bool)
    requires |p.siblings| == |p.isLeft|
    ensures Climb(h, leaf, p.siblings + [sibling], p.isLeft + [left])
            == h(Pair(Climb(h, leaf, p.siblings, p.isLeft), sibling, left))
  {
    var n := |p.siblings|;
    assert (p.siblings + [sibling])[..n] == p.siblings && (p.isLeft + [left])[..n] == p.isLeft;
  }

  lemma PathUp(h: Hash, ls: seq<Bytes>, d: nat, i: nat, right: bool, p: Path)
    requires i < |ls| <= Pow2(d + 1) && |p.siblings| == |p.isLeft|
    requires Climb(h, ls[i], p.siblings, p.isLeft) == Tree(h, Child(ls, d, right), d)
    ensures Climb(h, ls[i], p.siblings + [Tree(h, Child(ls, d, !right), d)], p.isLeft + [right]) == Tree(h, ls, d + 1)
  {
    ClimbOneMore(h, ls[i], p, Tree(h, Child(ls, d, !right), d), right);
  }

  lemma PathIs(h: Hash, ls: seq<Bytes>, d: nat, i: nat)
    requires i < |ls| <= Pow2(d + 1)
    ensures var right := GoesRight(|ls|, d, i);
            && Below(|ls|, d, i) < |Child(ls, d, right)|
            && var p := SiblingPath(h, Child(ls, d, right), d, Below(|ls|, d, i));
               SiblingPath(h, ls, d + 1, i) == Path(p.siblings + [Tree(h, Child(ls, d, !right), d)], p.isLeft + [right])
  {
    ChildHolds(ls, d, i);
  }

  ghost predicate Climbs(h: Hash, ls: seq<Bytes>, d: nat, i: nat)
    requires i < |ls| <= Pow2(d)
  {
    Climb(h, ls[i], SiblingPath(h, ls, d, i).siblings, SiblingPath(h, ls, d, i).isLeft) == Tree(h, ls, d)
  }

  lemma ClimbsUp(h: Hash, ls: seq<Bytes>, d: nat, i: nat)
    requires i < |ls| <= Pow2(d + 1) && Below(|ls|, d, i) < |Child(ls, d, GoesRight(|ls|, d, i))|
    requires Climbs(h, Child(ls, d, GoesRight(|ls|, d, i)), d, Below(|ls|, d, i))
    ensures Climbs(h, ls, d + 1, i)
  {
    var right := GoesRight(|ls|, d, i);
    ChildHolds(ls, d, i);
    PathIs(h, ls, d, i);
    PathUp(h, ls, d, i, right, SiblingPath(h, Child(ls, d, right), d, Below(|ls|, d, i)));
  }

  lemma {:induction false} PathClimbs(h: Hash, ls: seq<Bytes>, d: nat, i: nat)
    requires i < |ls| <= Pow2(d)
    ensures Climbs(h, ls, d, i)
    decreases d, 1
  {
    if d == 0 { OneLeafClimbs(h, ls, i); } else { PathClimbsUp(h, ls, d - 1, i); }
  }

  lemma OneLeafClimbs(h: Hash, ls: seq<Bytes>, i: nat)
    requires i < |ls| <= Pow2(0)
    ensures Climbs(h, ls, 0, i)
  {}

  lemma {:induction false} PathClimbsUp(h: Hash, ls: seq<Bytes>, d: nat, i: nat)
    requires i < |ls| <= Pow2(d + 1)
    ensures Climbs(h, ls, d + 1, i)
    decreases d + 1, 0
  {
    ChildHolds(ls, d, i);
    PathClimbs(h, Child(ls, d, GoesRight(|ls|, d, i)), d, Below(|ls|, d, i));
    ClimbsUp(h, ls, d, i);
  }

  /** Completeness: every leaf of every non-empty list has a proof as long as the tree is high. */
  lemma Completeness(h: Hash, ls: seq<Bytes>, i: nat)
    requires i < |ls|
    ensures var p := SiblingPath(h, ls, Height(|ls|), i);
            |p.siblings| == |p.isLeft| == Height(|ls|) && Climb(h, ls[i], p.siblings, p.isLeft) == Root(h, ls)
  {
    PathClimbs(h, ls, Height(|ls|), i);
  }

  // ----- binding

  /** The messages hashed while building the tree, and while checking a proof. */
  ghost function TreeInputs(h: Hash, ls: seq<Bytes>, d: nat): set<Bytes>
    requires 1 <= |ls| <= Pow2(d)
  {
    if d == 0 then {}
    else
      var l, r := Child(ls, d - 1, false), Child(ls, d - 1, true);
      TreeInputs(h, l, d - 1) + TreeInputs(h, r, d - 1) + {Tree(h, l, d - 1) + Tree(h, r, d - 1)}
  }

  ghost function ProofInputs(h: Hash, leaf: Bytes, siblings: seq<Bytes>, isLeft: seq<bool>): set<Bytes>
    requires |siblings| == |isLeft|
  {
    if siblings == [] then {}
    else
      var n := |siblings| - 1;
      ProofInputs(h, leaf, siblings[..n], isLeft[..n]) +
      {Pair(Climb(h, leaf, siblings[..n], isLeft[..n]), siblings[n], isLeft[n])}
  }

  lemma LevelInputsSplit(ls: seq<Bytes>, m: nat)
    requires 2 * m <= |ls|
    ensures LevelInputs(ls) == LevelInputs(ls[..2 * m]) + LevelInputs(ls[2 * m..])
  {
    var l, r := ls[..2 * m], ls[2 * m..];
    forall k | 0 <= k < m ensures ParentInput(l, k) == ParentInput(ls, k) {}
    forall k | 0 <= k < (|r| + 1) / 2 ensures ParentInput(r, k) == ParentInput(ls, m + k) {}
    forall x | x in LevelInputs(ls) ensures x in LevelInputs(l) + LevelInputs(r) {
      var k :| 0 <= k < (|ls| + 1) / 2 && ParentInput(ls, k) == x;
      if k < m { assert ParentInput(l, k) == x; } else { assert ParentInput(r, k - m) == x; }
    }
  }

  /** What `TreeInputsOfLevel` says of one list. */
  ghost predicate SplitsOff(h: Hash, ls: seq<Bytes>, d: nat)
    requires 1 <= |ls| <= Pow2(d + 1)
  {
    && TreeInputs(h, ls, d + 1) == LevelInputs(ls) + TreeInputs(h, Level(h, ls), d)
    && Tree(h, ls, d + 1) == Tree(h, Level(h, ls), d)
  }

  lemma TopInputs(h: Hash, ls: seq<Bytes>, d: nat, l: seq<Bytes>, r: seq<Bytes>)
    requires 1 <= |ls| <= Pow2(d + 1) && l == Child(ls, d, false) && r == Child(ls, d, true)
    ensures TreeInputs(h, ls, d + 1) == TreeInputs(h, l, d) + TreeInputs(h, r, d) + {Tree(h, l, d) + Tree(h, r, d)}
  {}

  lemma OnePair(h: Hash, ls: seq<Bytes>, d: nat)
    requires d == 0 && 1 <= |ls| <= Pow2(d + 1)
    ensures SplitsOff(h, ls, d)
  {
    TreeOfLevel(h, ls, 0);
    TopInputs(h, ls, 0, Child(ls, 0, false), Child(ls, 0, true));
    assert LevelInputs(ls) == {ParentInput(ls, 0)};
  }

  lemma Twice(a: set<Bytes>, l: set<Bytes>, b: set<Bytes>, m: Bytes)
    requires a == l + b
    ensures a + a + {m} == l + (b + b + {m})
  {}

  lemma LevelSize(h: Hash, ls: seq<Bytes>, d: nat)
    requires 1 <= |ls| <= Pow2(d + 1)
    ensures 1 <= |Level(h, ls)| <= Pow2(d)
  {}

  /** Where there is no right half the left one is hashed with itself. */
  lemma LoneChild(h: Hash, ls: seq<Bytes>, d: nat)
    requires 1 <= |ls| <= Pow2(d)
    ensures TreeInputs(h, ls, d + 1) == TreeInputs(h, ls, d) + TreeInputs(h, ls, d) + {Tree(h, ls, d) + Tree(h, ls, d)}
  {
    TopInputs(h, ls, d, ls, ls);
  }

  lemma SplitsOffSmall(h: Hash, ls: seq<Bytes>, d: nat)
    requires 1 <= |ls| <= Pow2(d + 1) && SplitsOff(h, ls, d)
    ensures SplitsOff(h, ls, d + 1)
  {
    LevelSize(h, ls, d);
    TreeOfLevel(h, ls, d + 1);
    LoneChild(h, ls, d + 1);
    LoneChild(h, Level(h, ls), d);
    var t := Tree(h, ls, d + 1);
    Twice(TreeInputs(h, ls, d + 1), LevelInputs(ls), TreeInputs(h, Level(h, ls), d), t + t);
  }

  lemma SplitsOffBig(h: Hash, ls: seq<Bytes>, d: nat, l: seq<Bytes>, r: seq<Bytes>)
    requires Pow2(d + 1) < |ls| <= Pow2(d + 2) && l == ls[..Pow2(d + 1)] && r == ls[Pow2(d + 1)..]
    requires SplitsOff(h, l, d) && SplitsOff(h, r, d)
    ensures SplitsOff(h, ls, d + 1)
  {
    TreeOfLevel(h, ls, d + 1);
    LevelInputsSplit(ls, Pow2(d));
    LevelHalves(h, ls, Pow2(d));
    TopInputs(h, ls, d + 1, l, r);
    TopInputs(h, Level(h, ls), d, Level(h, l), Level(h, r));
  }

  /** The tree's messages are those of the lowest level and those of the tree over it. */
  lemma {:induction false} TreeInputsOfLevel(h: Hash, ls: seq<Bytes>, d: nat)
    requires 1 <= |ls| <= Pow2(d + 1)
    ensures SplitsOff(h, ls, d)
    decreases d, 1
  {
    if d == 0 { OnePair(h, ls, d); } else { TreeInputsOfLevelUp(h, ls, d - 1, d); }
  }

  lemma {:induction false} TreeInputsOfLevelUp(h: Hash, ls: seq<Bytes>, d: nat, up: nat)
    requires up == d + 1 && 1 <= |ls| <= Pow2(up + 1)
    ensures SplitsOff(h, ls, up)
    decreases d + 1, 0
  {
    if |ls| <= Pow2(d + 1) {
      TreeInputsOfLevel(h, ls, d);
      SplitsOffSmall(h, ls, d);
    } else {
      var l, r := ls[..Pow2(d + 1)], ls[Pow2(d + 1)..];
      TreeInputsOfLevel(h, l, d);
      TreeInputsOfLevel(h, r, d);
      SplitsOffBig(h, ls, d, l, r);
    }
  }

  /** The messages of the tree over a list are those the loops hash. */
  lemma {:induction false} TreeInputsAreHashed(h: Hash, ls: seq<Bytes>)
    requires ls != []
    ensures TreeInputs(h, ls, Height(|ls|)) == LoopInputs(h, ls)
    decreases |ls|
  {
    if |ls| > 1 {
      var d := Height((|ls| + 1) / 2);
      assert Height(|ls|) == d + 1 && |Level(h, ls)| == (|ls| + 1) / 2;
      TreeInputsOfLevel(h, ls, d);
      TreeInputsAreHashed(h, Level(h, ls));
    }
  }

  /** The leaf the direction bits lead to, among n leaves under a tree of height |isLeft|. */
  ghost function Locate(n: nat, isLeft: seq<bool>): (i: nat)
    requires 1 <= n <= Pow2(|isLeft|)
    ensures i < n
  {
    if isLeft == [] then 0
    else
      var d := |isLeft| - 1;
      if n <= Pow2(d) then Locate(n, isLeft[..d])
      else if isLeft[d] then Pow2(d) + Locate(n - Pow2(d), isLeft[..d])
      else Locate(Pow2(d), isLeft[..d])
  }

  ghost predicate Digests(ls: seq<Bytes>) { forall i :: 0 <= i < |ls| ==> |ls[i]| == 32 }

  lemma TreeIsDigest(h: Hash, ls: seq<Bytes>, d: nat)
    requires 1 <= |ls| <= Pow2(d) && Digests(ls)
    ensures |Tree(h, ls, d)| == 32
  {}

  lemma ClimbIsDigest(h: Hash, leaf: Bytes, siblings: seq<Bytes>, isLeft: seq<bool>)
    requires |siblings| == |isLeft| && |leaf| == 32
    ensures |Climb(h, leaf, siblings, isLeft)| == 32
  {}

  /** Concatenations of 32-byte parts split in only one way. */
  lemma Split(a: Bytes, b: Bytes, c: Bytes, d: Bytes)
    requires a + b == c + d && |a| + |b| == 64 && |c| == 32 && (|a| == 32 || |b| == 32)
    ensures a == c && b == d
  {
    assert |a| == 32;
    assert a == (a + b)[..32] && c == (c + d)[..32];
    assert b == (a + b)[32..] && d == (c + d)[32..];
  }

  lemma ChildDigests(ls: seq<Bytes>, d: nat)
    requires 1 <= |ls| <= Pow2(d + 1) && Digests(ls)
    ensures Digests(Child(ls, d, false)) && Digests(Child(ls, d, true))
  {}

  lemma ChildInputs(h: Hash, ls: seq<Bytes>, d: nat, right: bool)
    requires 1 <= |ls| <= Pow2(d + 1)
    ensures TreeInputs(h, Child(ls, d, right), d) <= TreeInputs(h, ls, d + 1)
  {}

  lemma TopParts(h: Hash, ls: seq<Bytes>, d: nat)
    requires 1 <= |ls| <= Pow2(d + 1) && Digests(ls)
    ensures |Tree(h, Child(ls, d, false), d)| == 32 && |Tree(h, Child(ls, d, true), d)| == 32
  {
    TreeIsDigest(h, Child(ls, d, false), d);
    TreeIsDigest(h, Child(ls, d, true), d);
  }

  /** Either the top messages differ and collide, or the climb arrives at a child. */
  lemma TopStep(h: Hash, leaf: Bytes, siblings: seq<Bytes>, isLeft: seq<bool>, ls: seq<Bytes>, d: nat)
    returns (x: Bytes, y: Bytes)
    requires |siblings| == |isLeft| == d + 1 && 1 <= |ls| <= Pow2(d + 1) && |leaf| == 32 && Digests(ls)
    requires Climb(h, leaf, siblings, isLeft) == Tree(h, ls, d + 1)
    ensures Collide(h, x, ProofInputs(h, leaf, siblings, isLeft), y, TreeInputs(h, ls, d + 1))
         || Climb(h, leaf, siblings[..d], isLeft[..d]) == Tree(h, Child(ls, d, isLeft[d]), d)
  {
    var current := Climb(h, leaf, siblings[..d], isLeft[..d]);
    var l, r := Tree(h, Child(ls, d, false), d), Tree(h, Child(ls, d, true), d);
    x, y := Pair(current, siblings[d], isLeft[d]), l + r;
    if x == y {
      ClimbIsDigest(h, leaf, siblings[..d], isLeft[..d]);
      TopParts(h, ls, d);
      if isLeft[d] { Split(siblings[d], current, l, r); } else { Split(current, siblings[d], l, r); }
    }
  }

  /** Binding: a 32-byte leaf that verifies with a path as long as the tree is high is the leaf
      at the position its direction bits name, or the two computations hash different messages
      x and y to one digest. */
  lemma {:induction false} Binding(h: Hash, leaf: Bytes, siblings: seq<Bytes>, isLeft: seq<bool>, ls: seq<Bytes>,
                                   d: nat)
    returns (x: Bytes, y: Bytes)
    requires |siblings| == |isLeft| == d && 1 <= |ls| <= Pow2(d) && |leaf| == 32 && Digests(ls)
    requires Climb(h, leaf, siblings, isLeft) == Tree(h, ls, d)
    ensures leaf == ls[Locate(|ls|, isLeft)]
         || Collide(h, x, ProofInputs(h, leaf, siblings, isLeft), y, TreeInputs(h, ls, d))
    decreases d, 1
  {
    if d == 0 { x, y := [], []; } else { x, y := BindingStep(h, leaf, siblings, isLeft, ls, d - 1); }
  }

  lemma {:induction false} BindingStep(h: Hash, leaf: Bytes, siblings: seq<Bytes>, isLeft: seq<bool>, ls: seq<Bytes>,
                                       d: nat)
    returns (x: Bytes, y: Bytes)
    requires |siblings| == |isLeft| == d + 1 && 1 <= |ls| <= Pow2(d + 1) && |leaf| == 32 && Digests(ls)
    requires Climb(h, leaf, siblings, isLeft) == Tree(h, ls, d + 1)
    ensures leaf == ls[Locate(|ls|, isLeft)]
         || Collide(h, x, ProofInputs(h, leaf, siblings, isLeft), y, TreeInputs(h, ls, d + 1))
    decreases d + 1, 0, 1
  {
    x, y := TopStep(h, leaf, siblings, isLeft, ls, d);
    if Climb(h, leaf, siblings[..d], isLeft[..d]) == Tree(h, Child(ls, d, isLeft[d]), d) {
      x, y := BindingBelow(h, leaf, siblings, isLeft, ls, d);
    }
  }

  lemma {:induction false} BindingBelow(h: Hash, leaf: Bytes, siblings: seq<Bytes>, isLeft: seq<bool>,
                                        ls: seq<Bytes>, d: nat)
    returns (x: Bytes, y: Bytes)
    requires |siblings| == |isLeft| == d + 1 && 1 <= |ls| <= Pow2(d + 1) && |leaf| == 32 && Digests(ls)
    requires Climb(h, leaf, siblings[..d], isLeft[..d]) == Tree(h, Child(ls, d, isLeft[d]), d)
    ensures leaf == ls[Locate(|ls|, isLeft)]
         || Collide(h, x, ProofInputs(h, leaf, siblings, isLeft), y, TreeInputs(h, ls, d + 1))
    decreases d + 1, 0, 0
  {
    var child := Child(ls, d, isLeft[d]);
    ChildDigests(ls, d);
    x, y := Binding(h, leaf, siblings[..d], isLeft[..d], child, d);
    LocateChild(ls, isLeft);
    var xs, ys := ProofInputs(h, leaf, siblings[..d], isLeft[..d]), TreeInputs(h, child, d);
    if Collide(h, x, xs, y, ys) {
      ChildInputs(h, ls, d, isLeft[d]);
      CollideAmongMore(h, x, xs, y, ys, ProofInputs(h, leaf, siblings, isLeft), TreeInputs(h, ls, d + 1));
    }
  }

  lemma LocateChild(ls: seq<Bytes>, isLeft: seq<bool>)
    requires isLeft != [] && 1 <= |ls| <= Pow2(|isLeft|)
    ensures var d := |isLeft| - 1; var child := Child(ls, d, isLeft[d]);
            ls[Locate(|ls|, isLeft)] == child[Locate(|child|, isLeft[..d])]
  {}

  lemma InclusionBinding(h: Hash, leaf: Bytes, siblings: seq<Bytes>, isLeft: seq<bool>, ls: seq<Bytes>)
    returns (x: Bytes, y: Bytes)
    requires ls != [] && |siblings| == |isLeft| == Height(|ls|) && |leaf| == 32 && Digests(ls)
    requires Climb(h, leaf, siblings, isLeft) == Root(h, ls)
    ensures leaf in ls || Collide(h, x, ProofInputs(h, leaf, siblings, isLeft), y, LoopInputs(h, ls))
  {
    TreeInputsAreHashed(h, ls);
    x, y := Binding(h, leaf, siblings, isLeft, ls, Height(|ls|));
  }

  /** Two lists of 32-byte leaves that fit a tree of height d alike. */
  ghost predicate Alike(ls: seq<Bytes>, ms: seq<Bytes>, d: nat) {
    1 <= |ls| == |ms| <= Pow2(d) && Digests(ls) && Digests(ms)
  }

  lemma ChildrenAlike(ls: seq<Bytes>, ms: seq<Bytes>, d: nat, right: bool)
    requires Alike(ls, ms, d + 1)
    ensures Alike(Child(ls, d, right), Child(ms, d, right), d)
  {
    ChildDigests(ls, d);
    ChildDigests(ms, d);
  }

  lemma TwoTops(h: Hash, ls: seq<Bytes>, ms: seq<Bytes>, d: nat) returns (x: Bytes, y: Bytes)
    requires Alike(ls, ms, d + 1) && Tree(h, ls, d + 1) == Tree(h, ms, d + 1)
    ensures Collide(h, x, TreeInputs(h, ls, d + 1), y, TreeInputs(h, ms, d + 1))
         || (Tree(h, Child(ls, d, false), d) == Tree(h, Child(ms, d, false), d)
             && Tree(h, Child(ls, d, true), d) == Tree(h, Child(ms, d, true), d))
  {
    var l, r := Tree(h, Child(ls, d, false), d), Tree(h, Child(ls, d, true), d);
    var l', r' := Tree(h, Child(ms, d, false), d), Tree(h, Child(ms, d, true), d);
    x, y := l + r, l' + r';
    if x == y {
      TopParts(h, ls, d);
      TopParts(h, ms, d);
      Split(l, r, l', r');
    }
  }

  lemma Halves(ls: seq<Bytes>, ms: seq<Bytes>, d: nat)
    requires 1 <= |ls| == |ms| <= Pow2(d + 1)
    requires Child(ls, d, false) == Child(ms, d, false) && Child(ls, d, true) == Child(ms, d, true)
    ensures ls == ms
  {
    if |ls| > Pow2(d) {
      assert ls == ls[..Pow2(d)] + ls[Pow2(d)..] && ms == ms[..Pow2(d)] + ms[Pow2(d)..];
    }
  }

  /** Lists of one length with one root are equal, or the two computations hash different
      messages x and y to one digest. */
  lemma RootBinding(h: Hash, ls: seq<Bytes>, ms: seq<Bytes>) returns (x: Bytes, y: Bytes)
    requires |ls| == |ms| && Digests(ls) && Digests(ms) && Root(h, ls) == Root(h, ms)
    ensures ls == ms || Collide(h, x, LoopInputs(h, ls), y, LoopInputs(h, ms))
  {
    if ls == [] {
      x, y := [], [];
    } else {
      TreeInputsAreHashed(h, ls);
      TreeInputsAreHashed(h, ms);
      x, y := TreeBinding(h, ls, ms, Height(|ls|));
    }
  }

  lemma {:induction false} TreeBinding(h: Hash, ls: seq<Bytes>, ms: seq<Bytes>, d: nat) returns (x: Bytes, y: Bytes)
    requires Alike(ls, ms, d) && Tree(h, ls, d) == Tree(h, ms, d)
    ensures ls == ms || Collide(h, x, TreeInputs(h, ls, d), y, TreeInputs(h, ms, d))
    decreases d, 1
  {
    if d == 0 { x, y := [], []; OneLeaf(ls, ms); } else { x, y := TreeBindingStep(h, ls, ms, d - 1); }
  }

  lemma OneLeaf(ls: seq<Bytes>, ms: seq<Bytes>)
    requires |ls| == |ms| == 1 && ls[0] == ms[0]
    ensures ls == ms
  {}

  lemma {:induction false} TreeBindingStep(h: Hash, ls: seq<Bytes>, ms: seq<Bytes>, d: nat) returns (x: Bytes, y: Bytes)
    requires Alike(ls, ms, d + 1) && Tree(h, ls, d + 1) == Tree(h, ms, d + 1)
    ensures ls == ms || Collide(h, x, TreeInputs(h, ls, d + 1), y, TreeInputs(h, ms, d + 1))
    decreases d + 1, 0, 1
  {
    x, y := TwoTops(h, ls, ms, d);
    if Tree(h, Child(ls, d, false), d) == Tree(h, Child(ms, d, false), d)
       && Tree(h, Child(ls, d, true), d) == Tree(h, Child(ms, d, true), d) {
      x, y := SameChild(h, ls, ms, d, false);
      if Child(ls, d, false) == Child(ms, d, false) {
        x, y := SameChild(h, ls, ms, d, true);
        if Child(ls, d, true) == Child(ms, d, true) { Halves(ls, ms, d); }
      }
    }
  }

  lemma {:induction false} SameChild(h: Hash, ls: seq<Bytes>, ms: seq<Bytes>, d: nat, right: bool)
    returns (x: Bytes, y: Bytes)
    requires Alike(ls, ms, d + 1) && Tree(h, Child(ls, d, right), d) == Tree(h, Child(ms, d, right), d)
    ensures Child(ls, d, right) == Child(ms, d, right)
         || Collide(h, x, TreeInputs(h, ls, d + 1), y, TreeInputs(h, ms, d + 1))
    decreases d + 1, 0, 0
  {
    ChildrenAlike(ls, ms, d, right);
    ChildInputs(h, ls, d, right);
    ChildInputs(h, ms, d, right);
    x, y := SameBelow(h, Child(ls, d, right), Child(ms, d, right), d,
                      TreeInputs(h, ls, d + 1), TreeInputs(h, ms, d + 1));
  }

  lemma {:induction false} SameBelow(h: Hash, l: seq<Bytes>, m: seq<Bytes>, d: nat, xs: set<Bytes>, ys: set<Bytes>)
    returns (x: Bytes, y: Bytes)
    requires Alike(l, m, d) && Tree(h, l, d) == Tree(h, m, d)
    requires TreeInputs(h, l, d) <= xs && TreeInputs(h, m, d) <= ys
    ensures l == m || Collide(h, x, xs, y, ys)
    decreases d, 2
  {
    x, y := TreeBinding(h, l, m, d);
    if l != m { CollideAmongMore(h, x, TreeInputs(h, l, d), y, TreeInputs(h, m, d), xs, ys); }
  }

  /** Equal length is needed: repeating the last of an odd number of leaves keeps the root. */
  lemma RepeatedLastLeaf(h: Hash, ls: seq<Bytes>)
    requires |ls| > 1 && |ls| % 2 == 1
    ensures Root(h, ls + [ls[|ls| - 1]]) == Root(h, ls)
  {
    var ms := ls + [ls[|ls| - 1]];
    assert Level(h, ms) == Level(h, ls);
    RootOfLevel(h, ls);
    RootOfLevel(h, ms);
  }

  function Copies(e: Bytes, n: nat): (ls: seq<Bytes>)
    ensures |ls| == n && forall i :: 0 <= i < n ==> ls[i] == e
  {
    if n == 0 then [] else Copies(e, n - 1) + [e]
  }

  /** A leaf hashed with itself d times. */
  function Paired(h: Hash, e: Bytes, d: nat): Bytes {
    if d == 0 then e else h(Paired(h, e, d - 1) + Paired(h, e, d - 1))
  }

  lemma {:induction false} PairedMore(h: Hash, e: Bytes, a: nat, b: nat)
    ensures Paired(h, Paired(h, e, a), b) == Paired(h, e, a + b)
  {
    if b > 0 { PairedMore(h, e, a, b - 1); }
  }

  /** The tree over equal leaves depends on its height alone. */
  lemma {:induction false} EqualLeaves(h: Hash, ls: seq<Bytes>, e: Bytes, d: nat)
    requires 1 <= |ls| <= Pow2(d) && forall i :: 0 <= i < |ls| ==> ls[i] == e
    ensures Tree(h, ls, d) == Paired(h, e, d)
  {
    if d > 0 {
      EqualLeaves(h, Child(ls, d - 1, false), e, d - 1);
      EqualLeaves(h, Child(ls, d - 1, true), e, d - 1);
    }
  }

  /** Equal length is the exact condition on the lengths: for any two different lengths of
      non-empty lists there are lists of 32-byte leaves with one root, whatever the hash. */
  lemma LengthsMustAgree(h: Hash, n: nat, m: nat) returns (ls: seq<Bytes>, ms: seq<Bytes>)
    requires 1 <= n < m
    ensures |ls| == n && |ms| == m && Digests(ls) && Digests(ms) && Root(h, ls) == Root(h, ms)
  {
    HeightIsCeilLog(n, Height(m));
    var d := Height(m) - Height(n);
    var e := Paired(h, Zeros(), d);
    ls, ms := Copies(e, n), Copies(Zeros(), m);
    RootOfCopies(h, e, n);
    RootOfCopies(h, Zeros(), m);
    PairedMore(h, Zeros(), d, Height(n));
  }

  lemma RootOfCopies(h: Hash, e: Bytes, n: nat)
    requires n >= 1
    ensures Root(h, Copies(e, n)) == Paired(h, e, Height(n))
  {
    EqualLeaves(h, Copies(e, n), e, Height(n));
  }

  lemma TopIsHashed(h: Hash, ls: seq<Bytes>, d: nat, up: nat) returns (x: Bytes)
    requires up == d + 1 && 1 <= |ls| <= Pow2(up)
    ensures x in TreeInputs(h, ls, up) && h(x) == Tree(h, ls, up)
  {
    x := TopMessage(h, ls, d);
    TopInputs(h, ls, d, Child(ls, d, false), Child(ls, d, true));
    TopHash(h, ls, d);
  }

  /** The last message the tree hashes. */
  ghost function TopMessage(h: Hash, ls: seq<Bytes>, d: nat): Bytes
    requires 1 <= |ls| <= Pow2(d + 1)
  {
    Tree(h, Child(ls, d, false), d) + Tree(h, Child(ls, d, true), d)
  }

  lemma TopHash(h: Hash, ls: seq<Bytes>, d: nat)
    requires 1 <= |ls| <= Pow2(d + 1)
    ensures h(TopMessage(h, ls, d)) == Tree(h, ls, d + 1)
  {}

  lemma RootIsHashed(h: Hash, ls: seq<Bytes>) returns (x: Bytes)
    requires |ls| > 1
    ensures x in LoopInputs(h, ls) && h(x) == Root(h, ls)
  {
    HeightStep(|ls|);
    TreeInputsAreHashed(h, ls);
    x := TopIsHashed(h, ls, Height(|ls|) - 1, Height(|ls|));
  }

  /** The empty list shares its root with one leaf of zeros, and with a longer list only if the
      hash of a message of its tree is zero. */
  lemma EmptyRoot(h: Hash, ls: seq<Bytes>)
    requires ls != [] && Root(h, ls) == Root(h, [])
    ensures ls == [Zeros()] || exists x :: x in LoopInputs(h, ls) && h(x) == Zeros()
  {
    if |ls| > 1 {
      var x := RootIsHashed(h, ls);
    } else {
      assert Height(|ls|) == 0 && ls == [ls[0]];
    }
  }

  /** Small trees and a one-step proof, written out: which side is hashed first. */
  lemma SmallRoots(h: Hash, a: Bytes, b: Bytes, c: Bytes)
    ensures Root(h, []) == Zeros() && Root(h, [a]) == a && Root(h, [a, b]) == h(a + b)
    ensures Root(h, [a, b, c]) == h(h(a + b) + h(c + c))
    ensures Climb(h, a, [b], [true]) == h(b + a) && Climb(h, a, [b], [false]) == h(a + b)
  {
    assert Level(h, [a, b]) == [h(a + b)] && Level(h, [a, b, c]) == [h(a + b), h(c + c)];
    assert Level(h, [h(a + b), h(c + c)]) == [h(h(a + b) + h(c + c))];
    RootOfLevel(h, [a, b]);
    RootOfLevel(h, [a, b, c]);
    RootOfLevel(h, [h(a + b), h(c + c)]);
    assert [b][..0] == [] && [true][..0] == [] && [false][..0] == [];
  }
}
