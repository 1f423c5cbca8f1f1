/** The mock block DAG of blockdag.py. Blocks `B0`, `B1`, ... are built
    oldest first; each block after the first two takes one or two distinct
    parents among the blocks built before it, and carries one to six mock
    transfers; the list is returned reversed, newest block first.
    Every random draw is a nondeterministic choice (`:|`) within the bounds of
    the corresponding `random` call, so what is proved holds for every
    outcome of the draws. */
module BlockDag {
  import opened Prelude

  /** One mock transaction. `value` counts ten-thousandths of a unit:
      `round(random.uniform(0.01, 1.0), 4)` lies between 100 and 10000 of them. */
  datatype Transfer = Transfer(from: string, to: string, value: nat)

  /** One block. The timestamp is kept as the number of minutes before the
      moment of the call. */
  datatype Block = Block(
    id: string,
    minutesAgo: int,
    parents: seq<string>,
    txCount: nat,
    transactions: seq<Transfer>,
    producer: string)

  const MinAddress: nat := 1_000_000_000_000_000     // 10**15
  const MaxAddress: nat := 9_999_999_999_999_999     // 10**16 - 1
  const MinValue: nat := 100                         // 0.01
  const MaxValue: nat := 10000                       // 1.0
  const MaxTxCount: nat := 6
  const MinerCount: nat := 4

  function BlockId(i: nat): string { "B" + Decimal(i) }

  function MinerName(m: nat): string { "Miner-" + Decimal(m) }

  /** `f"0x{a:x}"`. */
  function MockAddressOf(a: nat): string { "0x" + Hex(a) }

  predicate MockAddress(s: string) {
    exists a: nat :: MinAddress <= a <= MaxAddress && s == MockAddressOf(a)
  }

  predicate MockTransfer(t: Transfer) {
    MockAddress(t.from) && MockAddress(t.to) && MinValue <= t.value <= MaxValue
  }

  /** What the loop body builds for the block of index `i` out of `n`. */
  predicate BuiltAt(b: Block, i: nat, n: int) {
    && b.id == BlockId(i)
    && b.minutesAgo == (n - i) * 2
    && (i == 0 ==> b.parents == [])
    && (i == 1 ==> b.parents == [BlockId(0)])
    && (i >= 2 ==> 1 <= |b.parents| <= 2 && (|b.parents| == 2 ==> b.parents[0] != b.parents[1]))
    && (forall p :: p in b.parents ==> exists j: nat :: j < i && p == BlockId(j))
    && 1 <= b.txCount <= MaxTxCount && |b.transactions| == b.txCount
    && (forall t :: t in b.transactions ==> MockTransfer(t))
    && (exists m: nat :: 1 <= m <= MinerCount && b.producer == MinerName(m))
  }

  /** A possible result of `get_blockdag_data(n)`: position `k` holds the
      block built at index `|dag| - 1 - k`. */
  predicate Generated(dag: seq<Block>, n: int) {
    && |dag| == (if n > 0 then n else 0)
    && forall k :: 0 <= k < |dag| ==> BuiltAt(dag[k], |dag| - 1 - k, n)
  }

  lemma BlockIdInjective(i: nat, j: nat)
    requires BlockId(i) == BlockId(j)
    ensures i == j
  {
    assert BlockId(i)[1..] == Decimal(i);
    assert BlockId(j)[1..] == Decimal(j);
    DecimalInjective(i, j);
  }

  /** The transactions of one block: `tx_count` draws of two addresses in
      `[10**15, 10**16 - 1]` and a value. */
  method MockTransactions(txCount: nat) returns (transactions: seq<Transfer>)
    ensures |transactions| == txCount
    ensures forall t :: t in transactions ==> MockTransfer(t)
  {
    transactions := [];
    while |transactions| < txCount
      invariant |transactions| <= txCount
      invariant forall t :: t in transactions ==> MockTransfer(t)
    {
      var from: nat :| MinAddress <= from <= MaxAddress;
      var to: nat :| MinAddress <= to <= MaxAddress;
      var value: nat :| MinValue <= value <= MaxValue;
      var t := Transfer(MockAddressOf(from), MockAddressOf(to), value);
      assert MockAddress(t.from) && MockAddress(t.to);
      transactions := transactions + [t];
    }
  }

  /** `get_blockdag_data`. */
  method GetBlockDagData(numBlocks: int) returns (dag: seq<Block>)
    ensures Generated(dag, numBlocks)
  {
    var blocks: seq<Block> := [];
    var i: nat := 0;
    while i < numBlocks
      invariant i <= (if numBlocks > 0 then numBlocks else 0)
      invariant |blocks| == i
      invariant forall j :: 0 <= j < i ==> BuiltAt(blocks[j], j, numBlocks)
    {
      var parents: seq<string>;
      if i == 0 {
        parents := [];
      } else if i == 1 {
        parents := [blocks[0].id];
      } else {
        // random.sample(ids, k=random.randint(1, 2)): k distinct earlier ids
        var k :| 1 <= k <= 2;
        assert 0 < 1 < i;
        var a, b :| 0 <= a < i && 0 <= b < i && a != b;
        if blocks[a].id == blocks[b].id {
          BlockIdInjective(a, b);
        }
        parents := if k == 1 then [blocks[a].id] else [blocks[a].id, blocks[b].id];
      }
      var txCount :| 1 <= txCount <= MaxTxCount;
      var transactions := MockTransactions(txCount);
      var miner: nat :| 1 <= miner <= MinerCount;
      var block := Block(BlockId(i), (numBlocks - i) * 2, parents, txCount, transactions, MinerName(miner));
      blocks := blocks + [block];
      i := i + 1;
    }
    dag := Reversed(blocks);
  }

  /** Block ids are pairwise different. */
  lemma IdsDistinct(dag: seq<Block>, n: int, k: nat, k': nat)
    requires Generated(dag, n) && k < |dag| && k' < |dag| && k != k'
    ensures dag[k].id != dag[k'].id
  {
    if dag[k].id == dag[k'].id {
      BlockIdInjective(|dag| - 1 - k, |dag| - 1 - k');
    }
  }

  /** `dag[k']` is a parent of `dag[k]`. */
  predicate Edge(dag: seq<Block>, k: nat, k': nat) {
    k < |dag| && k' < |dag| && dag[k'].id in dag[k].parents
  }

  /** Every parent names a block of the result, and that block stands later
      in the list. */
  lemma ParentPresent(dag: seq<Block>, n: int, k: nat, p: string)
    requires Generated(dag, n) && k < |dag| && p in dag[k].parents
    ensures exists k': nat :: k < k' < |dag| && dag[k'].id == p
  {
    var j: nat :| j < |dag| - 1 - k && p == BlockId(j);
    var k': nat := |dag| - 1 - j;
    assert dag[k'].id == p;
  }

  /** Parent edges point strictly towards the end of the list. */
  lemma EdgePointsLater(dag: seq<Block>, n: int, k: nat, k': nat)
    requires Generated(dag, n) && Edge(dag, k, k')
    ensures k < k'
  {
    var i := |dag| - 1 - k;
    var j: nat :| j < i && dag[k'].id == BlockId(j);
    BlockIdInjective(j, |dag| - 1 - k');
  }

  /** Following parent edges never comes back: the graph is acyclic. */
  lemma {:induction false} Acyclic(dag: seq<Block>, n: int, path: seq<nat>)
    requires Generated(dag, n) && |path| >= 2
    requires forall m :: 0 <= m < |path| - 1 ==> Edge(dag, path[m], path[m + 1])
    ensures path[0] < path[|path| - 1]
    decreases |path|
  {
    EdgePointsLater(dag, n, path[0], path[1]);
    if |path| > 2 {
      Acyclic(dag, n, path[1..]);
    }
  }

  /** The last block of the list, `B0`, is the only one without parents. */
  lemma GenesisOnlyRoot(dag: seq<Block>, n: int, k: nat)
    requires Generated(dag, n) && k < |dag|
    ensures dag[k].parents == [] <==> k == |dag| - 1
    ensures k == |dag| - 1 ==> dag[k].id == "B0"
  {
  }

  /** Newest first: timestamps grow older along the list. */
  lemma NewestFirst(dag: seq<Block>, n: int, k: nat, k': nat)
    requires Generated(dag, n) && k < k' < |dag|
    ensures dag[k].minutesAgo < dag[k'].minutesAgo
    ensures dag[0].minutesAgo == 2 && dag[|dag| - 1].minutesAgo == 2 * n
  {
  }
}
