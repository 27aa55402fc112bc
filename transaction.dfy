/** A ledger entry: a type tag, a creation time, the input that authorises
    it, the recipient, and a content hash that makes tampering evident. */
module Transactions {
  import opened Common
  import TransactionInputs

  const InvalidHash: string := "Invalid Hash."
  const InvalidTo: string := "Invalid to."

  /** `txInput` is a reference: the transaction shares the input object its
      caller supplied. */
  datatype Transaction = Transaction(
    txType: TransactionType,
    timestamp: int,
    hash: string,
    txInput: TransactionInputs.TransactionInput,
    to: string)
  {
    /** Content hash over the type, the input's identity hash, the recipient
        and the timestamp. */
    function GetHash(p: Primitives): string
      reads txInput
    {
      p.sha256(NumberText(TypeCode(txType)) + txInput.GetHash(p) + to + NumberText(timestamp))
    }

    /** The stored hash must match the recomputed one, then the recipient must
        be present. The validity of the input is not among the checks. */
    function IsValid(p: Primitives): (r: Validation)
      reads txInput
      ensures hash != GetHash(p) ==> r == Fail(InvalidHash)
      ensures hash == GetHash(p) && to == "" ==> r == Fail(InvalidTo)
      ensures r.success <==> hash == GetHash(p) && to != ""
      ensures r.success ==> r == Ok
    {
      if hash != GetHash(p) then Fail(InvalidHash)
      else if to == "" then Fail(InvalidTo)
      else Ok
    }
  }

  /** `new Transaction(tx)`: every field falls back when missing or falsy; the
      hash is computed from the other fields unless one is supplied. `now` is
      the clock reading used when no timestamp is given. */
  method NewTransaction(
    arg: Option<TransactionFields<TransactionInputs.TransactionInput>>, now: int, p: Primitives)
    returns (tx: Transaction)
    ensures tx.txType == (if arg.Some? && arg.value.txType.Some? then arg.value.txType.value else Regular)
    ensures tx.timestamp == (if arg.Some? && arg.value.timestamp != 0 then arg.value.timestamp else now)
    ensures tx.to == (if arg.Some? then arg.value.to else "")
    ensures arg.Some? && arg.value.txInput.Some? ==> tx.txInput == arg.value.txInput.value
    ensures !(arg.Some? && arg.value.txInput.Some?) ==>
              && fresh(tx.txInput)
              && tx.txInput.fromAddress == "" && tx.txInput.amount == 0 && tx.txInput.signature == ""
    ensures arg.Some? && arg.value.hash != "" ==> tx.hash == arg.value.hash
    ensures !(arg.Some? && arg.value.hash != "") ==> tx.hash == tx.GetHash(p)
    ensures !(arg.Some? && arg.value.hash != "") ==> (tx.IsValid(p).success <==> tx.to != "")
    ensures arg.None? ==> tx.IsValid(p) == Fail(InvalidTo)
  {
    var txType := if arg.Some? && arg.value.txType.Some? then arg.value.txType.value else Regular;
    var timestamp := if arg.Some? then OrNumber(arg.value.timestamp, now) else now;
    var input: TransactionInputs.TransactionInput;
    if arg.Some? && arg.value.txInput.Some? {
      input := arg.value.txInput.value;
    } else {
      input := new TransactionInputs.TransactionInput(None);
    }
    var to := if arg.Some? then OrText(arg.value.to, "") else "";
    tx := Transaction(txType, timestamp, "", input, to);
    var hash := if arg.Some? then OrText(arg.value.hash, tx.GetHash(p)) else tx.GetHash(p);
    tx := tx.(hash := hash);
  }

  /** The content hash sees the input only through the input's identity hash:
      neither the input's signature nor the stored hash enters it (with
      `TransactionInputs.HashIgnoresSignature`, equal address and amount
      suffice). */
  lemma HashIgnoresSignatureAndStoredHash(t: Transaction, u: Transaction, p: Primitives)
    requires t.txType == u.txType && t.timestamp == u.timestamp && t.to == u.to
    requires t.txInput.GetHash(p) == u.txInput.GetHash(p)
    ensures t.GetHash(p) == u.GetHash(p)
  {
  }

  /** The decimal texts of the two timestamps used below. */
  lemma TimestampTexts()
    ensures NumberText(23) == "23" && NumberText(123) == "123"
  {
  }

  /** The content hash sees the recipient and the timestamp only through
      their concatenation. */
  lemma SameJoinedTextSameHash(t: Transaction, u: Transaction, p: Primitives)
    requires t.txType == u.txType && t.txInput == u.txInput
    requires t.to + NumberText(t.timestamp) == u.to + NumberText(u.timestamp)
    ensures t.GetHash(p) == u.GetHash(p)
  {
    var prefix := NumberText(TypeCode(t.txType)) + t.txInput.GetHash(p);
    assert prefix + t.to + NumberText(t.timestamp) == prefix + (t.to + NumberText(t.timestamp));
    assert prefix + u.to + NumberText(u.timestamp) == prefix + (u.to + NumberText(u.timestamp));
  }

  /** Tamper evidence covers each field on its own but not every pair: the
      recipient and the timestamp are joined with no separator, so moving a
      digit from one to the other leaves the hash, and hence the verdict,
      unchanged. */
  lemma RecipientAndTimestampCollide(t: Transaction, p: Primitives)
    requires t.to == "a1" && t.timestamp == 23
    ensures t.(to := "a", timestamp := 123).GetHash(p) == t.GetHash(p)
    ensures t.(to := "a", timestamp := 123).IsValid(p) == t.IsValid(p)
  {
    var u := t.(to := "a", timestamp := 123);
    TimestampTexts();
    assert t.to + NumberText(t.timestamp) == u.to + NumberText(u.timestamp) by {
      assert "a1" + "23" == "a" + "123";
    }
    SameJoinedTextSameHash(t, u, p);
  }
}
