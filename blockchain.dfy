/** The chain of this snapshot: only its construction exists. */
module Chain {
  import Blocks

  datatype Blockchain = Blockchain(blocks: seq<Blocks.Block>)

  /** `new Blockchain()`: a single genesis block at index 0 with an empty
      hash. The block keeps index and hash only, so the genesis label the
      constructor also passes is not kept, and by the block rule the genesis
      block is not valid. */
  function NewBlockchain(): (r: Blockchain)
    ensures |r.blocks| == 1
    ensures r.blocks[0].index == 0 && r.blocks[0].hash == ""
    ensures !r.blocks[0].IsValid()
  {
    Blockchain([Blocks.Block(0, "")])
  }
}
