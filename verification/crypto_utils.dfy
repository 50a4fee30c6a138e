/**
 * Two operations of `CryptoUtils` in backup_scheduler.py: `_pad_data`, the
 * block padding of section 6.3 of RFC 5652 (PKCS #7) that `aes_encrypt` applies
 * before CBC encryption, and `merkle_tree_mock`, which hashes a list of leaves
 * pairwise, level by level, up to a single root.
 *
 * SHA-256 (with the `encode`/`hexdigest` around it) is the parameter `sha`, a
 * function from text to text.
 */
module CryptoUtils {
  import opened Wrappers
  import Numerals

  newtype Byte = x: int | 0 <= x < 256

  /** How `_pad_data` fails in Python: `% 0`, or `bytes()` given a value above 255. */
  datatype PadError = ZeroDivision | ByteOutOfRange

  const DefaultBlockSize: int := 16

  /** Python's `a // b`: the quotient rounded towards negative infinity. */
  function FloorDiv(a: int, b: int): int
    requires b != 0
  {
    if 0 < b then a / b
    else if a % -b == 0 then -(a / -b)
    else -(a / -b) - 1
  }

  /**
   * Python's `a % b`: the remainder takes the sign of the divisor, and `a` is
   * `a // b` times `b` plus the remainder.
   */
  function FloorMod(a: int, b: int): (r: int)
    requires b != 0
    ensures 0 < b ==> 0 <= r < b
    ensures b < 0 ==> b < r <= 0
    ensures r == 0 <==> a % b == 0
    ensures a == FloorDiv(a, b) * b + r
  {
    if 0 < b then a % b
    else if a % -b == 0 then 0
    else a % -b + b
  }

  /** `padding_length` of `_pad_data` for data of length `n`. */
  function PadLength(n: nat, blockSize: int): int
    requires blockSize != 0
  {
    blockSize - FloorMod(n, blockSize)
  }

  /** `[v] * count`: `count` copies of `v`, none when `count` is not positive. */
  function Repeat(v: Byte, count: int): (r: seq<Byte>)
    ensures |r| == if count <= 0 then 0 else count
    ensures forall k :: 0 <= k < |r| ==> r[k] == v
    decreases count
  {
    if count <= 0 then [] else [v] + Repeat(v, count - 1)
  }

  /**
   * `_pad_data(data, block_size)`. A block size of 0 divides by zero; a negative one
   * yields a negative padding length and no padding; a padding length above 255 is
   * not a byte.
   */
  function PadData(data: seq<Byte>, blockSize: int := DefaultBlockSize): (r: Result<seq<Byte>, PadError>)
    ensures r == Err(ZeroDivision) <==> blockSize == 0
    ensures r == Err(ByteOutOfRange) <==> blockSize != 0 && PadLength(|data|, blockSize) > 255
    ensures blockSize < 0 ==> r == Ok(data)
  {
    if blockSize == 0 then Err(ZeroDivision)
    else
      var padLength := PadLength(|data|, blockSize);
      if padLength <= 0 then Ok(data)
      else if padLength > 255 then Err(ByteOutOfRange)
      else Ok(data + Repeat(padLength as Byte, padLength))
  }

  /** The padding length lies in 1..`blockSize`; it is a whole block exactly when the data is aligned. */
  lemma PadLengthBounds(n: nat, blockSize: int)
    requires 0 < blockSize
    ensures 1 <= PadLength(n, blockSize) <= blockSize
    ensures PadLength(n, blockSize) == blockSize <==> n % blockSize == 0
    ensures n + PadLength(n, blockSize) == (n / blockSize + 1) * blockSize
  {
    var q, m := n / blockSize, n % blockSize;
    assert n == q * blockSize + m;
    assert (q + 1) * blockSize == q * blockSize + blockSize;
  }

  /**
   * With a positive block size whose padding length for this data is a byte (always
   * so for block sizes up to 255) padding succeeds: the output keeps the data
   * as its prefix, is strictly longer, is a whole number of blocks, and every byte
   * added holds the padding length.
   */
  lemma PadDataShape(data: seq<Byte>, blockSize: int)
    requires 0 < blockSize && PadLength(|data|, blockSize) <= 255
    ensures PadData(data, blockSize).Ok?
    ensures var padded := PadData(data, blockSize).value;
      && |data| < |padded| <= |data| + blockSize
      && |padded| == (|data| / blockSize + 1) * blockSize
      && padded[..|data|] == data
      && forall k :: |data| <= k < |padded| ==> padded[k] as int == |padded| - |data|
  {
    PadLengthBounds(|data|, blockSize);
    var padLength := PadLength(|data|, blockSize);
    var padded := PadData(data, blockSize).value;
    assert padded == data + Repeat(padLength as Byte, padLength);
    assert padded[..|data|] == data;
  }

  /** A block size of 256 fails exactly on aligned data, whose padding length 256 is not a byte. */
  lemma PadDataBlock256(data: seq<Byte>)
    ensures PadData(data, 256).Err? <==> |data| % 256 == 0
  {
    PadLengthBounds(|data|, 256);
  }

  /**
   * The padding removal of section 6.3 of RFC 5652: the last byte gives the padding
   * length, which must be between 1 and the length of the input, and every padding
   * byte must hold it.
   */
  function Unpad(padded: seq<Byte>): (r: Option<seq<Byte>>)
    ensures r.Some? ==> |r.value| < |padded| && r.value == padded[..|r.value|]
  {
    if padded == [] then None
    else
      var padLength := padded[|padded| - 1] as int;
      if 1 <= padLength <= |padded| &&
         forall k :: |padded| - padLength <= k < |padded| ==> padded[k] as int == padLength
      then Some(padded[..|padded| - padLength])
      else None
  }

  /** Removing the padding gives back the data whenever padding succeeds with a positive block size. */
  lemma UnpadPadData(data: seq<Byte>, blockSize: int)
    requires 0 < blockSize && PadLength(|data|, blockSize) <= 255
    ensures Unpad(PadData(data, blockSize).value) == Some(data)
  {
    PadDataShape(data, blockSize);
    var padded := PadData(data, blockSize).value;
    assert padded[|padded| - 1] as int == |padded| - |data|;
  }

  /** The summary `merkle_tree_mock` returns. */
  datatype MerkleSummary = MerkleSummary(leaves: int, root: string, depth: nat, nodes: nat)

  /** `tree[-1][0]` on a tree whose only level is empty. */
  datatype MerkleError = IndexError

  /** The parent `merkle_tree_mock` makes for position `k` of the next level; a lone last node pairs with itself. */
  function Parent(level: seq<string>, sha: string -> string, k: nat): string
    requires 2 * k < |level|
  {
    sha(level[2 * k] + (if 2 * k + 1 < |level| then level[2 * k + 1] else level[2 * k]))
  }

  /** The level above `level`: one parent per pair of nodes. */
  function NextLevel(level: seq<string>, sha: string -> string): (next: seq<string>)
    ensures |next| == (|level| + 1) / 2
    ensures forall k :: 0 <= k < |next| ==> next[k] == Parent(level, sha, k)
    decreases |level|
  {
    if |level| == 0 then []
    else if |level| == 1 then [sha(level[0] + level[0])]
    else
      var rest := NextLevel(level[2..], sha);
      assert forall k :: 0 <= k < |rest| ==> Parent(level[2..], sha, k) == Parent(level, sha, k + 1);
      [sha(level[0] + level[1])] + rest
  }

  /** `tree` as `merkle_tree_mock` leaves it: `level`, then the levels above it up to one node. */
  function Levels(level: seq<string>, sha: string -> string): (tree: seq<seq<string>>)
    ensures |tree| >= 1 && tree[0] == level
    decreases |level|
  {
    if |level| <= 1 then [level] else [level] + Levels(NextLevel(level, sha), sha)
  }

  /** The leaf level: the hash of the decimal text of each of `0 .. leaves - 1`. */
  function Leaves(leaves: int, sha: string -> string): (level: seq<string>)
    ensures |level| == if leaves <= 0 then 0 else leaves
    ensures forall i :: 0 <= i < |level| ==> level[i] == sha(Numerals.Decimal(i))
    decreases leaves
  {
    if leaves <= 0 then [] else Leaves(leaves - 1, sha) + [sha(Numerals.Decimal(leaves - 1))]
  }

  /** `sum(len(l) for l in tree)`. */
  function NodeCount(tree: seq<seq<string>>): nat
  {
    if tree == [] then 0 else NodeCount(tree[..|tree| - 1]) + |tree[|tree| - 1]|
  }

  /** What `merkle_tree_mock(leaves)` returns, or the `IndexError` it raises for no leaves. */
  function Merkle(leaves: int, sha: string -> string): Result<MerkleSummary, MerkleError>
  {
    var tree := Levels(Leaves(leaves, sha), sha);
    var top := tree[|tree| - 1];
    if top == [] then Err(IndexError)
    else Ok(MerkleSummary(leaves, top[0], |tree|, NodeCount(tree)))
  }

  /** The `for` loop of `merkle_tree_mock`: hash the nodes of `level` two by two. */
  method PairUp(level: seq<string>, sha: string -> string) returns (next: seq<string>)
    ensures next == NextLevel(level, sha)
  {
    next := [];
    var i := 0;
    while i < |level|
      invariant 0 <= i <= |level| + 1 && i % 2 == 0
      invariant |next| == i / 2
      invariant forall k :: 0 <= k < |next| ==> next[k] == Parent(level, sha, k)
    {
      var combined := if i + 1 < |level| then level[i] + level[i + 1] else level[i] + level[i];
      next := next + [sha(combined)];
      i := i + 2;
    }
  }

  /** The `while` loop of `merkle_tree_mock`: add levels to `tree` until one holds a single node. */
  method BuildLevels(leafLevel: seq<string>, sha: string -> string) returns (tree: seq<seq<string>>)
    ensures tree == Levels(leafLevel, sha)
  {
    var level := leafLevel;
    tree := [level];
    ghost var full := Levels(level, sha);
    assert full == [level] + full[1..];
    while |level| > 1
      invariant |tree| >= 1 && tree[|tree| - 1] == level
      invariant full == tree + Levels(level, sha)[1..]
      decreases |level|
    {
      var next := PairUp(level, sha);
      assert Levels(level, sha)[1..] == Levels(next, sha);
      assert Levels(next, sha) == [next] + Levels(next, sha)[1..];
      assert tree + Levels(next, sha) == (tree + [next]) + Levels(next, sha)[1..];
      tree := tree + [next];
      level := next;
    }
    assert Levels(level, sha) == [level];
    assert tree + Levels(level, sha)[1..] == tree;
  }

  /** `merkle_tree_mock(leaves)`: the leaf hashes, the levels above them, and the summary. */
  method MerkleTree(leaves: int, sha: string -> string) returns (r: Result<MerkleSummary, MerkleError>)
    ensures r == Merkle(leaves, sha)
  {
    var tree := BuildLevels(Leaves(leaves, sha), sha);
    var top := tree[|tree| - 1];
    if top == [] {
      return Err(IndexError);
    }
    return Ok(MerkleSummary(leaves, top[0], |tree|, NodeCount(tree)));
  }

  function Pow2(k: nat): (p: nat)
    ensures p >= 1
  {
    if k == 0 then 1 else 2 * Pow2(k - 1)
  }

  /**
   * Every level above a nonempty one is the parent level of the one below it, and the
   * last level holds exactly one node.
   */
  lemma {:induction false} LevelsShape(level: seq<string>, sha: string -> string)
    requires |level| >= 1
    ensures var tree := Levels(level, sha);
      && |tree[|tree| - 1]| == 1
      && forall j :: 0 <= j < |tree| - 1 ==> tree[j + 1] == NextLevel(tree[j], sha) && |tree[j]| > 1
    decreases |level|
  {
    if |level| > 1 {
      var next := NextLevel(level, sha);
      LevelsShape(next, sha);
      var tree := Levels(level, sha);
      assert tree == [level] + Levels(next, sha);
    }
  }

  /** The depth is the least `d` with `2^(d-1)` at least the number of leaves. */
  lemma {:induction false} DepthBounds(level: seq<string>, sha: string -> string)
    requires |level| >= 1
    ensures var depth := |Levels(level, sha)|;
      && |level| <= Pow2(depth - 1)
      && (|level| >= 2 ==> depth >= 2 && Pow2(depth - 2) < |level|)
    decreases |level|
  {
    if |level| > 1 {
      var next := NextLevel(level, sha);
      DepthBounds(next, sha);
      assert Levels(level, sha) == [level] + Levels(next, sha);
      var d := |Levels(next, sha)|;
      assert Pow2(d) == 2 * Pow2(d - 1);
      if |next| >= 2 {
        assert Pow2(d - 1) == 2 * Pow2(d - 2);
      }
    }
  }

  /** The node count of two lists of levels together is the sum of their counts. */
  lemma {:induction false} NodeCountAppend(a: seq<seq<string>>, b: seq<seq<string>>)
    ensures NodeCount(a + b) == NodeCount(a) + NodeCount(b)
    decreases |b|
  {
    if b == [] {
      assert a + b == a;
    } else {
      assert (a + b)[..|a + b| - 1] == a + b[..|b| - 1];
      assert (a + b)[|a + b| - 1] == b[|b| - 1];
      NodeCountAppend(a, b[..|b| - 1]);
    }
  }

  /** With `n` leaves the tree holds at least `2n - 1` nodes and at most `2n - 2` plus its depth. */
  lemma {:induction false} NodeBounds(level: seq<string>, sha: string -> string)
    requires |level| >= 1
    ensures var tree := Levels(level, sha);
      2 * |level| - 1 <= NodeCount(tree) <= 2 * |level| + |tree| - 2
    decreases |level|
  {
    var tree := Levels(level, sha);
    if |level| == 1 {
      assert NodeCount(tree) == NodeCount([]) + |level|;
    } else {
      var next := NextLevel(level, sha);
      NodeBounds(next, sha);
      assert tree == [level] + Levels(next, sha);
      NodeCountAppend([level], Levels(next, sha));
      assert NodeCount([level]) == NodeCount([]) + |level|;
    }
  }

  /**
   * For at least one leaf `merkle_tree_mock` succeeds, reports the number of leaves,
   * and its root is the one node of the top level; for none it raises `IndexError`.
   */
  lemma MerkleOutcome(leaves: int, sha: string -> string)
    ensures Merkle(leaves, sha).Err? <==> leaves <= 0
    ensures leaves >= 1 ==>
      var tree := Levels(Leaves(leaves, sha), sha);
      && Merkle(leaves, sha) == Ok(MerkleSummary(leaves, tree[|tree| - 1][0], |tree|, NodeCount(tree)))
      && tree[|tree| - 1] == [Merkle(leaves, sha).value.root]
  {
    var level := Leaves(leaves, sha);
    var tree := Levels(level, sha);
    if leaves >= 1 {
      LevelsShape(level, sha);
      var top := tree[|tree| - 1];
      assert |top| == 1 && top == [top[0]];
    } else {
      assert tree == [[]];
    }
  }

  /** One leaf is its own root; two leaves hash into the root together. */
  lemma SmallTrees(sha: string -> string)
    ensures Merkle(1, sha) == Ok(MerkleSummary(1, sha(Numerals.Decimal(0)), 1, 1))
    ensures var l := Leaves(2, sha);
      Merkle(2, sha) == Ok(MerkleSummary(2, sha(l[0] + l[1]), 2, 3))
  {
    var one := Leaves(1, sha);
    assert NodeCount([one]) == NodeCount([]) + 1;
    var two := Leaves(2, sha);
    var top := NextLevel(two, sha);
    assert Levels(top, sha) == [top];
    assert Levels(two, sha) == [two, top];
    assert NodeCount([two, top]) == NodeCount([two]) + 1;
    assert NodeCount([two]) == NodeCount([]) + 2;
  }
}
