/** The test double of the chain, the only chain of this snapshot that holds
    state: committed blocks, a pool of pending transactions and the index the
    next block will take. */
module MockChain {
  import opened Common
  import MockTransactions

  const InvalidMockBlock: string := "Invalid mock block."

  /** The mocked block, as the double builds and stores it. */
  datatype Block = Block(
    index: int,
    hash: string,
    previousHash: string,
    transactions: seq<MockTransactions.Transaction>,
    timestamp: int)

  /** Mining template handed to a miner. */
  datatype BlockInfo = BlockInfo(
    index: int,
    previousHash: string,
    transactions: seq<MockTransactions.Transaction>,
    difficulty: int,
    feePerTx: int,
    maxDifficulty: int)

  /** Where a transaction was found; the double never fills `blockIndex`. */
  datatype TransactionSearch = TransactionSearch(
    txHash: string,
    mempoolIndex: int,
    blockIndex: Option<int>)

  /** Position of the first block carrying `hash`, scanning from genesis. */
  function FindBlock(blocks: seq<Block>, hash: string): (r: Option<nat>)
    ensures r.Some? ==> r.value < |blocks| && blocks[r.value].hash == hash
    ensures r.Some? ==> forall j :: 0 <= j < r.value ==> blocks[j].hash != hash
    ensures r.None? <==> forall j :: 0 <= j < |blocks| ==> blocks[j].hash != hash
    decreases |blocks|
  {
    if |blocks| == 0 then None
    else if blocks[0].hash == hash then Some(0)
    else match FindBlock(blocks[1..], hash)
      case None => None
      case Some(i) => Some(i + 1)
  }

  /** Appending a block never changes what an existing hash finds: a later
      block with a hash already present is shadowed, and a new hash is found
      at the tail. */
  lemma {:induction false} FindBlockAfterAppend(blocks: seq<Block>, b: Block, hash: string)
    ensures FindBlock(blocks + [b], hash) ==
              if FindBlock(blocks, hash).Some? then FindBlock(blocks, hash)
              else if b.hash == hash then Some(|blocks|)
              else None
  {
    if |blocks| > 0 && blocks[0].hash != hash {
      assert (blocks + [b])[1..] == blocks[1..] + [b];
      FindBlockAfterAppend(blocks[1..], b, hash);
    }
  }

  class Blockchain {
    var blocks: seq<Block>
    var mempool: seq<MockTransactions.Transaction>
    var nextIndex: int

    /** The chain is never empty and `nextIndex` counts its blocks. */
    ghost predicate Valid()
      reads this
    {
      |blocks| >= 1 && nextIndex == |blocks|
    }

    /** One genesis block (index 0, hash "genesis", no predecessor) holding a
        single FEE transaction whose hash is "genesis"; an empty pool.
        `blockNow` and `txNow` are the two clock readings. */
    constructor (blockNow: int, txNow: int)
      ensures Valid()
      ensures |blocks| == 1 && mempool == [] && nextIndex == 1
      ensures blocks[0].index == 0 && blocks[0].hash == "genesis"
      ensures blocks[0].previousHash == "" && blocks[0].timestamp == blockNow
      ensures |blocks[0].transactions| == 1
      ensures blocks[0].transactions[0].txType == Fee
      ensures blocks[0].transactions[0].hash == "genesis"
      ensures fresh(blocks[0].transactions[0].txInput)
      ensures GetBlock("genesis") == Some(blocks[0])
    {
      var fee := MockTransactions.NewTransaction(
        Some(TransactionFields(Some(Fee), 0, None, "", "genesis")), txNow);
      mempool := [];
      blocks := [Block(0, "genesis", "", [fee], blockNow)];
      nextIndex := 0;
      new;
      nextIndex := nextIndex + 1;
    }

    /** The tip: the most recently appended block. */
    function GetLastBlock(): (b: Block)
      reads this
      requires Valid()
      ensures b in blocks
      ensures b == blocks[|blocks| - 1]
    {
      blocks[|blocks| - 1]
    }

    /** Appends any block whose index is not negative, with no linkage
        check; a negative index is refused and nothing changes. */
    method AddBlock(block: Block) returns (v: Validation)
      requires Valid()
      modifies this`blocks, this`nextIndex
      ensures Valid()
      ensures v.success <==> block.index >= 0
      ensures block.index < 0 ==> v == Fail(InvalidMockBlock)
      ensures block.index < 0 ==> blocks == old(blocks) && nextIndex == old(nextIndex)
      ensures block.index >= 0 ==> v == Ok
      ensures block.index >= 0 ==> blocks == old(blocks) + [block] && nextIndex == old(nextIndex) + 1
      ensures block.index >= 0 ==> GetLastBlock() == block
    {
      if block.index < 0 {
        return Fail(InvalidMockBlock);
      }
      blocks := blocks + [block];
      nextIndex := nextIndex + 1;
      return Ok;
    }

    /** The first block whose hash is `hash`, or none. */
    function GetBlock(hash: string): (r: Option<Block>)
      reads this
      ensures r.None? <==> forall i :: 0 <= i < |blocks| ==> blocks[i].hash != hash
      ensures r.Some? ==> r.value.hash == hash
      ensures r.Some? ==>
                exists i :: 0 <= i < |blocks| && blocks[i] == r.value &&
                            forall j :: 0 <= j < i ==> blocks[j].hash != hash
    {
      match FindBlock(blocks, hash)
      case None => None
      case Some(i) => Some(blocks[i])
    }

    /** The double reports every chain as valid. */
    function IsValid(): (r: Validation)
      ensures r.success && r == Ok
    {
      Ok
    }

    /** The fee per transaction is fixed at 1. */
    function GetFeePerTx(): (r: int)
      ensures r == 1
    {
      1
    }

    /** A template on top of the tip: index 1, difficulty 0, fee 1, maximum
        difficulty 62, and one new REGULAR transaction stamped `now`. It reads
        the state and changes nothing. */
    method GetNextBlock(now: int) returns (info: BlockInfo)
      requires Valid()
      ensures info.index == 1 && info.difficulty == 0
      ensures info.feePerTx == 1 && info.maxDifficulty == 62
      ensures info.previousHash == GetLastBlock().hash
      ensures |info.transactions| == 1
      ensures info.transactions[0].txType == Regular && info.transactions[0].timestamp == now
      ensures info.transactions[0].to == "toAddress" && info.transactions[0].hash == "abc"
      ensures fresh(info.transactions[0].txInput)
      ensures info.transactions[0].IsValid().success
    {
      var tx := MockTransactions.NewTransaction(Some(TransactionFields(None, 0, None, "", "")), now);
      info := BlockInfo(1, GetLastBlock().hash, [tx], 0, GetFeePerTx(), 62);
    }

    /** Admits a transaction that passes its own validation, at the tail of
        the pool, with no duplicate check; otherwise returns that failing
        validation and leaves the pool alone. */
    method AddTransaction(transaction: MockTransactions.Transaction) returns (v: Validation)
      modifies this`mempool
      ensures v == transaction.IsValid()
      ensures v.success ==> mempool == old(mempool) + [transaction]
      ensures !v.success ==> mempool == old(mempool)
    {
      var validation := transaction.IsValid();
      if !validation.success {
        return validation;
      }
      mempool := mempool + [transaction];
      return Ok;
    }

    /** The double answers every lookup with position 0 in the pool, whatever
        the pool holds, echoing the hash it was asked for. */
    function GetTransaction(hash: string): (r: TransactionSearch)
      ensures r.mempoolIndex == 0 && r.txHash == hash && r.blockIndex.None?
    {
      TransactionSearch(hash, 0, None)
    }
  }
}
