/** The test double of the transaction: a constant hash that is never
    checked, a default recipient, a private copy of the input, and a validity
    rule that delegates to the input. */
module MockTransactions {
  import opened Common
  import MockTransactionInputs

  const InvalidMockTo: string := "Invalid mocked to transaction."
  const InvalidTxInput: string := "Invalid tx input."

  datatype Transaction = Transaction(
    txType: TransactionType,
    timestamp: int,
    hash: string,
    to: string,
    txInput: MockTransactionInputs.TransactionInput)
  {
    /** The mocked content hash is the constant "abc". */
    function GetHash(): string
    {
      "abc"
    }

    /** The recipient must be present, then the input must be valid. The
        stored hash is not checked. */
    function IsValid(): (r: Validation)
      reads txInput
      ensures to == "" ==> r == Fail(InvalidMockTo)
      ensures to != "" && !txInput.IsValid().success ==> r == Fail(InvalidTxInput)
      ensures r.success <==> to != "" && txInput.IsValid().success
      ensures r.success ==> r == Ok
    {
      if to == "" then Fail(InvalidMockTo)
      else if !txInput.IsValid().success then Fail(InvalidTxInput)
      else Ok
    }
  }

  /** `new Transaction(tx)` of the double: the recipient falls back to
      "toAddress" and the hash to "abc"; the input is always a new object,
      copied field by field (with the input's own fallbacks) from the one
      supplied. The recipient is therefore never empty after construction,
      and the transaction is valid unless the supplied input carried a
      negative amount. */
  method NewTransaction(arg: Option<TransactionFields<InputFields>>, now: int)
    returns (tx: Transaction)
    ensures tx.txType == (if arg.Some? && arg.value.txType.Some? then arg.value.txType.value else Regular)
    ensures tx.timestamp == (if arg.Some? && arg.value.timestamp != 0 then arg.value.timestamp else now)
    ensures tx.to == (if arg.Some? && arg.value.to != "" then arg.value.to else "toAddress")
    ensures tx.hash == (if arg.Some? && arg.value.hash != "" then arg.value.hash else "abc")
    ensures fresh(tx.txInput)
    ensures var given := if arg.Some? then arg.value.txInput else None;
            && tx.txInput.fromAddress == (if given.Some? && given.value.fromAddress != "" then given.value.fromAddress else "carteira1")
            && tx.txInput.amount == (if given.Some? && given.value.amount != 0 then given.value.amount else 10)
            && tx.txInput.signature == (if given.Some? && given.value.signature != "" then given.value.signature else "abc")
    ensures tx.to != ""
    ensures tx.IsValid().success <==> !(arg.Some? && arg.value.txInput.Some? && arg.value.txInput.value.amount < 0)
  {
    var txType := if arg.Some? && arg.value.txType.Some? then arg.value.txType.value else Regular;
    var timestamp := if arg.Some? then OrNumber(arg.value.timestamp, now) else now;
    var to := if arg.Some? then OrText(arg.value.to, "toAddress") else "toAddress";
    var input := new MockTransactionInputs.TransactionInput(if arg.Some? then arg.value.txInput else None);
    tx := Transaction(txType, timestamp, "", to, input);
    var hash := if arg.Some? then OrText(arg.value.hash, tx.GetHash()) else tx.GetHash();
    tx := tx.(hash := hash);
  }

  /** Neither the mocked hash nor the validity verdict looks at the stored
      hash: replacing it changes neither. */
  lemma StoredHashIsIgnored(t: Transaction, h: string)
    ensures t.(hash := h).GetHash() == t.GetHash()
    ensures t.(hash := h).IsValid() == t.IsValid()
  {
  }
}
