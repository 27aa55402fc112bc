# Protochain ledger core: validation, identity and the stateful chain double

This project models the validation and identity logic of a small proof-of-work
ledger written in TypeScript, together with the one chain object in this
snapshot that holds state. The modelled entities are:

- **Transaction input** (`TransactionInputs`): a spender, an amount and a
  signature. Its identity hash is the digest of `fromAddress ‖ amount`.
  `Sign` replaces only the signature. `IsValid` runs ordered, fail-fast checks:
  a signature is present, the amount is at least 1, and the signature verifies.
- **Transaction** (`Transactions`): a type tag, a timestamp, the input, a
  recipient and a stored hash. Its content hash covers the type, the input's
  identity hash, the recipient and the timestamp. `IsValid` compares the stored
  hash with the recomputed one, then checks that the recipient is not empty.
- **Block** (`Blocks`) and **Blockchain** (`Chain`): in this snapshot a block
  holds only an index and a hash, and a chain only has its constructor, which
  builds one genesis block.
- **Test doubles**: the mocked transaction input (`MockTransactionInputs`), the
  mocked transaction (`MockTransactions`) and the mocked chain (`MockChain`).
  The mocked chain is a class with `blocks`, `mempool` and `nextIndex`. Its
  `AddBlock` is a guarded append that keeps `nextIndex == |blocks|`. Its
  `AddTransaction` validates a transaction, then appends it to the pool.
  `GetBlock` returns the first block whose hash matches.

Every validation returns a `Validation(success, message)` value. `new
Validation()` is modelled as success with an empty message. The shared
vocabulary lives in `Common`: the result type, the transaction type tag, the
plain records that callers pass to constructors, and JavaScript's decimal
rendering of an integer inside a hash preimage.

The model leaves three external pieces as parameters:

- **Hashing and signatures.** SHA-256, ECDSA signing and ECDSA verification are
  the fields of a `Primitives` value. Nothing is assumed about them: not
  injectivity, and not that a signature produced by `sign` verifies.
- **The clock.** Every `Date.now()` read is a `now` parameter.
- **Falsy fallbacks.** The JavaScript fallback `x || d` is written out: `""`
  and `0` count as missing. A field the caller leaves out is represented by its
  falsy value, which `||` treats the same way. A missing constructor argument
  is `None`.

Two facts about this snapshot's code shape the model:

- `Transactions.Transaction.IsValid` never consults the input's validity
  (`src/lib/transaction.ts:30-37`).
- The block of `src/lib/block.ts` holds only an index and a hash, and the
  chain of `src/lib/blockchain.ts` only has its constructor.

The mocked transaction imports the input class by the path of the real one.
The suite that runs the mocked chain (`__tests__/blockchainServer.test.ts:7-10`)
replaces that module with the mocked input. The model uses that binding: a
mocked transaction holds a mocked input.

## Model

| member | source | states |
|---|---|---|
| `Common.NumberText` | src/lib/transactionInput.ts:41 | An integer inside a hash preimage is rendered as a non-empty text with a minus sign exactly when the number is negative and decimal digits everywhere else |
| `Common.DigitsDenote` | src/lib/transactionInput.ts:41 | The digits rendered for a natural number read back, by an independent fold over the digits (`DecimalValue`), as that number, and carry no leading zero |
| `Common.NumberTextDenotes` | src/lib/transactionInput.ts:41 | The rendering is JavaScript's `"" + n`: after the optional minus sign, the digits denote the magnitude of the number and have no leading zero |
| `TransactionInputs.TransactionInput.constructor` | src/lib/transactionInput.ts:20-24 | The falsy fallbacks `""`, `0` and `""` equal the missing values, so the given fields are kept verbatim (an explicit amount of 0 stays 0). A default-constructed input fails with "Signature is required." under any primitives |
| `TransactionInputs.TransactionInput.Sign` | src/lib/transactionInput.ts:30-34 | The signature becomes the signing primitive applied to the key and the identity hash. `fromAddress` and `amount` are unchanged, and so is the identity hash |
| `TransactionInputs.TransactionInput.GetHash` | src/lib/transactionInput.ts:40-42 | The identity hash is the digest of `fromAddress` followed by the decimal text of `amount`; by `HashIgnoresSignature` it is fixed by those two fields, whatever the signature |
| `TransactionInputs.HashIgnoresSignature` | src/lib/transactionInput.ts:40-42 | Two inputs that agree on `fromAddress` and `amount` have the same identity hash, whatever their signatures |
| `TransactionInputs.TransactionInput.IsValid` | src/lib/transactionInput.ts:48-61 | An empty signature fails with "Signature is required." whatever the amount. With a signature, an amount below 1 fails with "Amount must be greater than zero.". Success holds iff the signature is present, the amount is at least 1 and `verify(fromAddress, hash, signature)` holds. Otherwise the result is "Invalid tx input signature.". Success is the default `Validation`. Being a function, it changes no field |
| `Transactions.NewTransaction` | src/lib/transaction.ts:16-22 | The type defaults to REGULAR and the timestamp to the clock reading. The recipient is kept verbatim. A supplied input is shared, not copied; without one, a new empty input is made. A non-empty supplied hash is kept; otherwise the stored hash equals the recomputed hash, so validity then reduces to "recipient non-empty". A default-constructed transaction fails with "Invalid to." |
| `Transactions.Transaction.GetHash` | src/lib/transaction.ts:24-28 | The content hash is the digest of the type code, the input's identity hash, the recipient and the timestamp text; `HashIgnoresSignatureAndStoredHash` shows it ignores the input's signature and the stored hash, and `RecipientAndTimestampCollide` shows the separator-free joining lets two field pairs collide |
| `Transactions.HashIgnoresSignatureAndStoredHash` | src/lib/transaction.ts:24-28 | The content hash depends only on type, timestamp, recipient and the input's identity hash, so the input enters only through its own hash. It ignores the input's signature and the stored hash |
| `Transactions.Transaction.IsValid` | src/lib/transaction.ts:30-37 | A stored hash that differs from the recomputed one fails with "Invalid Hash.", checked before the recipient. A matching hash with an empty recipient fails with "Invalid to.". Success holds iff the hash matches and the recipient is non-empty; the input's own validity is never consulted |
| `Transactions.SameJoinedTextSameHash` | src/lib/transaction.ts:24-28 | Two transactions with the same type and input whose recipient followed by timestamp text is the same string have the same content hash |
| `Transactions.RecipientAndTimestampCollide` | src/lib/transaction.ts:24-28 | Recipient and timestamp are concatenated without a separator. Recipient "a1" at time 23 and recipient "a" at time 123 hash alike and get the same verdict, so tamper evidence does not cover a change to both fields together |
| `Blocks.Block.IsValid` | src/lib/block.ts:22-26 | A negative index makes the block invalid, and so does an empty hash. The block is valid iff the index is at least 0 and the hash is non-empty |
| `Chain.NewBlockchain` | src/lib/blockchain.ts:12-15 | The new chain holds exactly one block, with index 0 and an empty hash. It keeps no genesis label, and by the block rule that genesis block is invalid |
| `MockTransactionInputs.TransactionInput.constructor` | src/lib/__mocks__/transactionInput.ts:19-23 | Missing or falsy fields fall back to "carteira1", 10 and "abc". The signature is therefore never empty after construction. The new input is valid iff no negative amount was passed, so a default-constructed mock input is valid |
| `MockTransactionInputs.TransactionInput.GetHash` | src/lib/__mocks__/transactionInput.ts:37-39 | The mocked identity hash is "abc" for every input (`HashIsConstant`) |
| `MockTransactionInputs.HashIsConstant` | src/lib/__mocks__/transactionInput.ts:37-39 | Every mocked input has the identity hash "abc" |
| `MockTransactionInputs.TransactionInput.Sign` | src/lib/__mocks__/transactionInput.ts:29-31 | The signature becomes "abc" whatever the key; the address and the amount are unchanged |
| `MockTransactionInputs.TransactionInput.IsValid` | src/lib/__mocks__/transactionInput.ts:45-51 | An empty signature fails with "Signature is required.", checked before the amount. A signature with an amount below 1 fails with "Amount must be greater than zero.". Success holds iff the signature is non-empty and the amount is at least 1 |
| `MockTransactions.NewTransaction` | src/lib/__mocks__/transaction.ts:15-23 | Defaults are REGULAR, the clock reading, recipient "toAddress" and hash "abc". The input is always a new object copied with the input's fallbacks, so it never aliases the caller's. The recipient is never empty, and the transaction is valid iff the supplied input did not carry a negative amount |
| `MockTransactions.Transaction.GetHash` | src/lib/__mocks__/transaction.ts:25-27 | The mocked content hash is "abc" whatever the fields, the stored hash included (`StoredHashIsIgnored`) |
| `MockTransactions.StoredHashIsIgnored` | src/lib/__mocks__/transaction.ts:25-34 | Replacing the stored hash changes neither the mocked hash "abc" nor the validity verdict |
| `MockTransactions.Transaction.IsValid` | src/lib/__mocks__/transaction.ts:29-34 | An empty recipient fails with "Invalid mocked to transaction.". With a recipient, an invalid input fails with "Invalid tx input.". Success holds iff the recipient is non-empty and the input is valid; the stored hash is never checked |
| `MockChain.Blockchain.constructor` | src/lib/__mocks__/blockchain.ts:19-38 | The chain holds one block: index 0, hash "genesis", previous hash "", and a single FEE transaction with hash "genesis". The pool is empty, `nextIndex` is 1 and the invariant that `nextIndex` equals the number of blocks holds. Looking up "genesis" finds that block |
| `MockChain.Blockchain.GetLastBlock` | src/lib/__mocks__/blockchain.ts:40-42 | Under the invariant the chain is non-empty, and the tip is its last block |
| `MockChain.Blockchain.AddBlock` | src/lib/__mocks__/blockchain.ts:44-51 | Success holds iff the index is non-negative, with no linkage check. A negative index returns "Invalid mock block." and leaves `blocks` and `nextIndex` unchanged. Otherwise the block is appended at the tail, `nextIndex` grows by one, the tip is the new block and the invariant is preserved. The pool is untouched |
| `MockChain.FindBlock` | src/lib/__mocks__/blockchain.ts:54 | Returns the position of the first block whose hash matches, with no earlier match, or none exactly when no block matches |
| `MockChain.FindBlockAfterAppend` | src/lib/__mocks__/blockchain.ts:47-54 | After an append, a hash that was found is still found at the same position, even if the new block repeats it. A hash that was missing is found at the tail iff the new block carries it |
| `MockChain.Blockchain.GetBlock` | src/lib/__mocks__/blockchain.ts:53-55 | Returns a block carrying the hash with no earlier block carrying it, or absent exactly when no block carries it |
| `MockChain.Blockchain.IsValid` | src/lib/__mocks__/blockchain.ts:57-59 | The double reports success for every state |
| `MockChain.Blockchain.GetFeePerTx` | src/lib/__mocks__/blockchain.ts:61-63 | The fee per transaction is 1 |
| `MockChain.Blockchain.GetNextBlock` | src/lib/__mocks__/blockchain.ts:65-78 | The template has index 1 whatever the chain length, difficulty 0, fee 1, maximum difficulty 62 and the tip's hash as previous hash. It holds exactly one new REGULAR transaction (recipient "toAddress", hash "abc"), which is valid. The state is unchanged |
| `MockChain.Blockchain.AddTransaction` | src/lib/__mocks__/blockchain.ts:80-86 | Returns the transaction's own validation. On success the transaction is appended at the pool's tail, with no duplicate check; on failure the pool is unchanged. The blocks are untouched |
| `MockChain.Blockchain.GetTransaction` | src/lib/__mocks__/blockchain.ts:88-95 | Every lookup reports pool position 0 and no block position, echoing the hash it was asked for, whatever the pool holds |

## Left out

- SHA-256 and ECDSA signing and verification are abstract parameters. Deriving key objects from hex strings can throw on malformed input; the model's primitives are total and return a value for every argument.
- Integers are unbounded `int`. JavaScript's exponent rendering of numbers of magnitude 10^21 or more, NaN and non-integer amounts, indices and timestamps are not modelled.
- `src/lib/transactionType.ts` is not part of this model. The model renders REGULAR as 1 and FEE as 2 inside the hash preimage. Both values are non-zero, so the `||` fallback keeps any supplied type.
- `src/lib/validation.ts`, `src/lib/blockInfo.ts`, `src/lib/transactionSearch.ts` and `src/lib/__mocks__/block.ts` are not part of this model. Each is a plain datatype holding the fields the shown code reads or writes.
- The `data` field that callers pass to the mocked transaction has no counterpart in that class, so it is dropped. The genesis label passed to the real block constructor is dropped the same way.
- The real transaction combined with the mocked input, and the mocked transaction combined with the real input, are not modelled. Both pairings arise from module substitution in other test suites.
- `MockChain.Blockchain.AddBlock`, `MockChain.Blockchain.GetNextBlock` and `MockChain.Blockchain.GetLastBlock` rely on the invariant that `nextIndex` equals the number of blocks and that the chain is non-empty. The class's `blocks`, `mempool` and `nextIndex` fields are public, and the invariant assumes no caller writes them directly. The direct pushes at `__tests__/blockchain.test.ts:36,68,82,112,133,148,167` write the fields of a later snapshot's real chain, not of this double.
- Transactions (real and mocked) and mocked blocks are values: the chain and the pool hold copies, where the source pushes object references (`src/lib/__mocks__/blockchain.ts:47,84`). A later write to a field of a pushed block or transaction changes the source's chain or pool but not the model's. Transaction inputs stay shared objects, as in the source.
- Proof-of-work mining, difficulty, linkage checks between blocks, mempool reconciliation, duplicate-transaction rejection and the real transaction search are absent: no source file of this snapshot implements them.
- The miner client's network loop, the HTTP server and the test harness are transport and I/O.
