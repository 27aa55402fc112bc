/** The authorisation record of a transfer: who spends, how much, and the
    spender's signature over the input's identity hash. */
module TransactionInputs {
  import opened Common

  const InvalidSignature: string := "Invalid tx input signature."

  class TransactionInput {
    var fromAddress: string
    var amount: int
    var signature: string

    /** Copies the given record; every fallback ("", 0, "") is the falsy
        value itself, so a field is kept verbatim, an explicit 0 included.
        Without a record the input is empty and, unsigned, invalid. */
    constructor (arg: Option<InputFields>)
      ensures arg.None? ==> fromAddress == "" && amount == 0 && signature == ""
      ensures arg.Some? ==> fromAddress == arg.value.fromAddress
      ensures arg.Some? ==> amount == arg.value.amount
      ensures arg.Some? ==> signature == arg.value.signature
      ensures arg.None? ==> forall p :: IsValid(p) == Fail(SignatureRequired)
    {
      fromAddress := if arg.Some? then OrText(arg.value.fromAddress, "") else "";
      amount := if arg.Some? then OrNumber(arg.value.amount, 0) else 0;
      signature := if arg.Some? then OrText(arg.value.signature, "") else "";
    }

    /** Identity hash: the digest of the spender followed by the amount. */
    function GetHash(p: Primitives): string
      reads this
    {
      p.sha256(fromAddress + NumberText(amount))
    }

    /** Signs the identity hash with the private key; only the signature
        changes, so the identity hash is the same afterwards. */
    method Sign(p: Primitives, privateKey: string)
      modifies this`signature
      ensures signature == p.sign(privateKey, old(GetHash(p)))
      ensures fromAddress == old(fromAddress) && amount == old(amount)
      ensures GetHash(p) == old(GetHash(p))
    {
      signature := p.sign(privateKey, GetHash(p));
    }

    /** Ordered, fail-fast checks: a signature is present, then the amount is
        at least 1, then the signature verifies against the spender and the
        identity hash. The first failing check names the reason. */
    function IsValid(p: Primitives): (r: Validation)
      reads this
      ensures signature == "" ==> r == Fail(SignatureRequired)
      ensures signature != "" && amount < 1 ==> r == Fail(AmountNotPositive)
      ensures r.success <==>
                signature != "" && amount >= 1 && p.verify(fromAddress, GetHash(p), signature)
      ensures signature != "" && amount >= 1 && !r.success ==> r == Fail(InvalidSignature)
      ensures r.success ==> r == Ok
    {
      if signature == "" then Fail(SignatureRequired)
      else if amount < 1 then Fail(AmountNotPositive)
      else if p.verify(fromAddress, GetHash(p), signature) then Ok
      else Fail(InvalidSignature)
    }
  }

  /** The identity hash ignores the signature: two inputs that agree on the
      spender and the amount hash alike. */
  lemma HashIgnoresSignature(a: TransactionInput, b: TransactionInput, p: Primitives)
    requires a.fromAddress == b.fromAddress && a.amount == b.amount
    ensures a.GetHash(p) == b.GetHash(p)
  {
  }
}
