/** A block of this snapshot: its position in the chain and its hash. */
module Blocks {

  datatype Block = Block(index: int, hash: string)
  {
    /** A block is valid when its index is not negative and its hash is not
        empty; the index is checked first. */
    function IsValid(): (r: bool)
      ensures index < 0 ==> !r
      ensures hash == "" ==> !r
      ensures r <==> index >= 0 && hash != ""
    {
      if index < 0 then false
      else if hash == "" then false
      else true
    }
  }
}
