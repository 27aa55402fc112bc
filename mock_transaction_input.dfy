/** The test double of the transaction input: fixed defaults, a constant
    hash, a constant signature, and no cryptographic check. */
module MockTransactionInputs {
  import opened Common

  class TransactionInput {
    var fromAddress: string
    var amount: int
    var signature: string

    /** Missing or falsy fields fall back to "carteira1", 10 and "abc". The
        signature is therefore never empty after construction, and the input
        is valid exactly when the amount it ends up with is at least 1: when
        the record passed no negative amount. */
    constructor (arg: Option<InputFields>)
      ensures fromAddress == (if arg.Some? && arg.value.fromAddress != "" then arg.value.fromAddress else "carteira1")
      ensures amount == (if arg.Some? && arg.value.amount != 0 then arg.value.amount else 10)
      ensures signature == (if arg.Some? && arg.value.signature != "" then arg.value.signature else "abc")
      ensures signature != ""
      ensures IsValid().success <==> (arg.None? || arg.value.amount >= 0)
    {
      fromAddress := if arg.Some? then OrText(arg.value.fromAddress, "carteira1") else "carteira1";
      amount := if arg.Some? then OrNumber(arg.value.amount, 10) else 10;
      signature := if arg.Some? then OrText(arg.value.signature, "abc") else "abc";
    }

    /** The identity hash is the constant "abc". */
    function GetHash(): string
    {
      "abc"
    }

    /** Sets the signature to "abc" whatever the key; nothing else changes. */
    method Sign(privateKey: string)
      modifies this`signature
      ensures signature == "abc"
      ensures fromAddress == old(fromAddress) && amount == old(amount)
    {
      signature := "abc";
    }

    /** Ordered, fail-fast checks: a signature is present, then the amount is
        at least 1. No signature is verified. */
    function IsValid(): (r: Validation)
      reads this
      ensures signature == "" ==> r == Fail(SignatureRequired)
      ensures signature != "" && amount < 1 ==> r == Fail(AmountNotPositive)
      ensures r.success <==> signature != "" && amount >= 1
      ensures r.success ==> r == Ok
    {
      if signature == "" then Fail(SignatureRequired)
      else if amount < 1 then Fail(AmountNotPositive)
      else Ok
    }
  }

  /** The mocked identity hash does not depend on any field. */
  lemma HashIsConstant(a: TransactionInput, b: TransactionInput)
    ensures a.GetHash() == b.GetHash() == "abc"
  {
  }
}
