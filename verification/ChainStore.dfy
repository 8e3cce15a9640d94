/**
 * The persistent block store and the blockchain object over it: blocks by height, heights by
 * hash, receipts, and the tip.  Writing a block is one atomic batch that may fail as a whole.
 */
module ChainStore {
  import opened Collections
  import opened ChainState
  import opened Blocks
  import opened TxExecutor

  /** A receipt tagged with the block height and the position of its transaction in that block. */
  datatype StoredReceipt = StoredReceipt(receipt: Receipt, height: nat, index: nat)

  ghost predicate Contiguous(blocks: map<nat, Block>, n: nat) {
    && (forall h: nat :: h in blocks <==> h < n)
    && (forall h :: h in blocks ==> blocks[h].header.height == h && blocks[h].hash == HeaderHash(blocks[h].header))
  }

  /** The blocks by increasing height. */
  ghost function InOrder(blocks: map<nat, Block>, n: nat): (r: seq<Block>)
    requires Contiguous(blocks, n)
    ensures |r| == n && forall h :: 0 <= h < n ==> r[h] == blocks[h]
  {
    seq(n, h requires h in blocks => blocks[h])
  }

  ghost predicate Indexed(blocks: map<nat, Block>, heights: map<BlockHash, nat>) {
    && (forall h :: h in blocks ==> blocks[h].hash in heights && heights[blocks[h].hash] == h)
    && (forall x :: x in heights ==> heights[x] in blocks && blocks[heights[x]].hash == x)
  }

  /** A receipt of success says where the transaction is. */
  ghost predicate Located(blocks: map<nat, Block>, r: StoredReceipt) {
    r.receipt.error.None? ==>
      r.height in blocks && r.index < |blocks[r.height].txs| && blocks[r.height].txs[r.index].hash == r.receipt.tx
  }

  ghost predicate ReceiptsLocate(blocks: map<nat, Block>, receipts: map<Hash, StoredReceipt>) {
    forall x :: x in receipts ==> receipts[x].receipt.tx == x && Located(blocks, receipts[x])
  }

  class BlockStore {
    var blocks: map<nat, Block>
    var heights: map<BlockHash, nat>
    var receipts: map<Hash, StoredReceipt>
    var savedHeight: Option<nat>

    /** Blocks at all heights up to the recorded one, found by height and by hash. */
    ghost predicate Valid()
      reads this
    {
      Contiguous(blocks, Count()) && Indexed(blocks, heights)
    }

    /** Every stored receipt of success locates its transaction. */
    ghost predicate ReceiptsOk()
      reads this
    {
      ReceiptsLocate(blocks, receipts)
    }

    ghost function Count(): nat
      reads this
    {
      if savedHeight.None? then 0 else savedHeight.value + 1
    }

    /** The stored blocks by height. */
    ghost function Chain(): seq<Block>
      reads this
    {
      if Contiguous(blocks, Count()) then InOrder(blocks, Count()) else []
    }

    constructor ()
      ensures Valid() && ReceiptsOk() && Chain() == []
    {
      blocks, heights, receipts, savedHeight := map[], map[], map[], None;
    }
  }

  /** The receipts after writing a list of them in order. */
  ghost function WithReceipts(m: map<Hash, StoredReceipt>, receipts: seq<StoredReceipt>): map<Hash, StoredReceipt> {
    if receipts == [] then m
    else
      var last := receipts[|receipts| - 1];
      WithReceipts(m, receipts[..|receipts| - 1])[last.receipt.tx := last]
  }

  lemma {:induction false} WithReceiptsLocate(blocks: map<nat, Block>, m: map<Hash, StoredReceipt>, receipts: seq<StoredReceipt>)
    requires ReceiptsLocate(blocks, m) && forall i :: 0 <= i < |receipts| ==> Located(blocks, receipts[i])
    ensures ReceiptsLocate(blocks, WithReceipts(m, receipts))
  {
    hide Located;
    if receipts != [] {
      WithReceiptsLocate(blocks, m, receipts[..|receipts| - 1]);
    }
  }

  lemma {:induction false} LocateGrows(blocks: map<nat, Block>, m: map<Hash, StoredReceipt>, b: Block)
    requires ReceiptsLocate(blocks, m) && b.header.height !in blocks
    ensures ReceiptsLocate(blocks[b.header.height := b], m)
  {}

  lemma {:induction false} IndexGrows(blocks: map<nat, Block>, heights: map<BlockHash, nat>, n: nat, b: Block)
    requires Contiguous(blocks, n) && Indexed(blocks, heights) && b.header.height == n && b.hash == HeaderHash(b.header)
    ensures Contiguous(blocks[n := b], n + 1) && Indexed(blocks[n := b], heights[b.hash := n])
  {
    forall h | h in blocks ensures blocks[h].hash != b.hash {
      assert blocks[h].header.height != b.header.height;
    }
  }

  /** The next block keeps the store in order, and located receipts keep it located. */
  lemma {:induction false} StoreKeeps(blocks: map<nat, Block>, heights: map<BlockHash, nat>, m: map<Hash, StoredReceipt>, n: nat,
                                     b: Block, receipts: seq<StoredReceipt>)
    requires Contiguous(blocks, n) && Indexed(blocks, heights) && b.header.height == n
    ensures b.hash == HeaderHash(b.header) ==>
      && Contiguous(blocks[n := b], n + 1) && Indexed(blocks[n := b], heights[b.hash := n])
      && InOrder(blocks[n := b], n + 1) == InOrder(blocks, n) + [b]
    ensures ReceiptsLocate(blocks, m) && (forall i :: 0 <= i < |receipts| ==> Located(blocks[n := b], receipts[i])) ==>
      ReceiptsLocate(blocks[n := b], WithReceipts(m, receipts))
  {
    hide Located, Indexed, ReceiptsLocate;
    if b.hash == HeaderHash(b.header) {
      IndexGrows(blocks, heights, n, b);
    }
    if ReceiptsLocate(blocks, m) && forall i :: 0 <= i < |receipts| ==> Located(blocks[n := b], receipts[i]) {
      LocateGrows(blocks, m, b);
      WithReceiptsLocate(blocks[n := b], m, receipts);
    }
  }

  class Blockchain {
    const store: BlockStore
    var tip: Option<Block>
    var height: nat

    ghost predicate Valid()
      reads this, store
    {
      && store.Valid()
      && tip == TipOf(store.Chain())
      && height == (if tip.None? then 0 else tip.value.header.height)
    }

    ghost function Chain(): seq<Block>
      reads this, store
    {
      store.Chain()
    }

    constructor (store: BlockStore)
      ensures this.store == store && tip == None && height == 0
    {
      this.store, tip, height := store, None, 0;
    }

    /**
     * Load the tip of an existing chain, or start a new one with the genesis block.  A recorded
     * height without a block leaves the tip empty.
     */
    method Init(genesisBlock: Block, flushed: bool) returns (ok: bool)
      modifies this, store
      ensures ok <==> old(store.savedHeight).Some? || flushed
      ensures old(store.savedHeight).Some? ==>
        && unchanged(store) && height == old(store.savedHeight).value
        && tip == if height in store.blocks then Some(store.blocks[height]) else None
      ensures old(store.savedHeight).None? && ok ==> tip == Some(genesisBlock)
      ensures !ok ==> unchanged(this) && unchanged(store)
      ensures ok && old(store.Valid()) && genesisBlock.header.height == 0 && genesisBlock.hash == HeaderHash(genesisBlock.header) ==>
        Valid() && Chain() == if old(store.savedHeight).Some? then old(store.Chain()) else [genesisBlock]
      ensures old(store.Valid()) && old(store.ReceiptsOk()) && genesisBlock.header.height == 0 ==> store.ReceiptsOk()
    {
      if store.savedHeight.Some? {
        height := store.savedHeight.value;
        tip := if height in store.blocks then Some(store.blocks[height]) else None;
        return true;
      }
      ok := StoreBlock(genesisBlock, [], flushed);
    }

    /** The block extends the tip and carries its true hash. */
    method CheckLinkage(block: Block) returns (ok: bool)
      requires Valid()
      ensures ok <==> Extends(tip, block)
    {
      if tip.Some? && block.header.previous != tip.value.hash {
        return false;
      }
      var expected := if tip.None? then 0 else height + 1;
      if block.header.height != expected {
        return false;
      }
      ok := block.hash == HeaderHash(block.header);
    }

    method CommitBlock(block: Block, receipts: seq<StoredReceipt>, flushed: bool) returns (ok: bool)
      requires Valid()
      modifies this, store
      ensures Valid()
      ensures ok <==> old(Extends(tip, block)) && flushed
      ensures ok ==> Chain() == old(Chain()) + [block] && store.receipts == WithReceipts(old(store.receipts), receipts)
      ensures !ok ==> unchanged(this) && unchanged(store)
      ensures old(store.ReceiptsOk()) && (forall i :: 0 <= i < |receipts| ==> Located(old(store.blocks)[block.header.height := block], receipts[i]))
        ==> store.ReceiptsOk()
    {
      hide Located;
      var linked := CheckLinkage(block);
      if !linked {
        return false;
      }
      ok := StoreBlock(block, receipts, flushed);
    }

    /** One batch: block, hash index, height and receipts are written together or not at all. */
    method StoreBlock(block: Block, receipts: seq<StoredReceipt>, flushed: bool) returns (ok: bool)
      modifies this, store
      ensures ok == flushed
      ensures ok ==>
        && store.blocks == old(store.blocks)[block.header.height := block]
        && store.heights == old(store.heights)[block.hash := block.header.height]
        && store.savedHeight == Some(block.header.height) && store.receipts == WithReceipts(old(store.receipts), receipts)
        && tip == Some(block) && height == block.header.height
      ensures !ok ==> unchanged(this) && unchanged(store)
      ensures ok && old(store.Valid()) && block.header.height == old(store.Count()) && block.hash == HeaderHash(block.header) ==>
        Valid() && Chain() == old(store.Chain()) + [block]
      ensures old(store.Valid()) && old(store.ReceiptsOk()) && block.header.height == old(store.Count())
        && (forall i :: 0 <= i < |receipts| ==> Located(old(store.blocks)[block.header.height := block], receipts[i]))
        ==> store.ReceiptsOk()
    {
      hide Located;
      if !flushed {
        return false;
      }
      var batch := store.receipts;
      var i := 0;
      while i < |receipts|
        invariant 0 <= i <= |receipts| && batch == WithReceipts(store.receipts, receipts[..i])
      {
        assert receipts[..i + 1][..i] == receipts[..i];
        batch := batch[receipts[i].receipt.tx := receipts[i]];
        i := i + 1;
      }
      assert receipts[..i] == receipts;
      ghost var n := store.Count();
      if store.Valid() && block.header.height == n {
        StoreKeeps(store.blocks, store.heights, store.receipts, n, block, receipts);
      }
      store.blocks := store.blocks[block.header.height := block];
      store.heights := store.heights[block.hash := block.header.height];
      store.savedHeight := Some(block.header.height);
      store.receipts := batch;
      tip, height := Some(block), block.header.height;
      ok := true;
    }

    /** Receipts of failed transactions are written one by one, until a write fails. */
    method StoreReceipts(receipts: seq<StoredReceipt>, writable: nat)
      modifies store`receipts
      ensures old(Valid()) ==> Valid() && Chain() == old(Chain())
      ensures old(store.ReceiptsOk()) && (forall i :: 0 <= i < |receipts| ==> Located(store.blocks, receipts[i])) ==> store.ReceiptsOk()
      ensures store.receipts == WithReceipts(old(store.receipts), receipts[..if writable < |receipts| then writable else |receipts|])
    {
      hide Located;
      var i := 0;
      while i < |receipts| && i < writable
        invariant 0 <= i <= |receipts| && i <= writable
        invariant store.receipts == WithReceipts(old(store.receipts), receipts[..i])
      {
        assert receipts[..i + 1][..i] == receipts[..i];
        store.receipts := store.receipts[receipts[i].receipt.tx := receipts[i]];
        i := i + 1;
      }
      if old(store.ReceiptsOk()) && forall j :: 0 <= j < |receipts| ==> Located(store.blocks, receipts[j]) {
        WithReceiptsLocate(store.blocks, old(store.receipts), receipts[..i]);
      }
    }

    /** Look a block up by hash: found exactly when it is on the chain. */
    method GetBlock(hash: BlockHash) returns (block: Option<Block>)
      requires Valid()
      ensures block.Some? ==> block.value in Chain() && block.value.hash == hash
      ensures block.None? ==> forall b :: b in Chain() ==> b.hash != hash
    {
      assert forall b :: b in Chain() ==> b.hash in store.heights;
      if hash !in store.heights {
        return None;
      }
      var h := store.heights[hash];
      assert Chain()[h] == store.blocks[h];
      block := Some(store.blocks[h]);
    }
  }
}
