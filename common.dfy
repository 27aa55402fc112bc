/** Vocabulary shared by every entity of the ledger: the uniform validation
    result, the transaction type tag, the plain records callers hand to the
    constructors, JavaScript's rendering of an integer inside a hash preimage,
    and the external hashing and signature primitives, which the model takes
    as values rather than implementing them. */
module Common {

  datatype Option<+T> = None | Some(value: T)

  /** Result of every validation: a success flag and, on failure, the reason. */
  datatype Validation = Validation(success: bool, message: string)

  /** What `new Validation()` yields: success, no message. */
  const Ok: Validation := Validation(true, "")

  function Fail(message: string): Validation
  {
    Validation(false, message)
  }

  // Failure reasons shared by the real and the mocked transaction input.
  const SignatureRequired: string := "Signature is required."
  const AmountNotPositive: string := "Amount must be greater than zero."

  /** The transaction type tag; REGULAR is the default of both transaction classes. */
  datatype TransactionType = Regular | Fee

  /** The numeric value of the tag, which is what string concatenation renders. */
  function TypeCode(t: TransactionType): int
  {
    match t
    case Regular => 1
    case Fee => 2
  }

  /** SHA-256 (hex digest of a string), ECDSA signing of a hex digest with a
      private key, and verification of a signature against a public key and a
      digest. Nothing is assumed about them: not injectivity, not that a
      signature produced by `sign` verifies. */
  datatype Primitives = Primitives(
    sha256: string -> string,
    sign: (string, string) -> string,
    verify: (string, string, string) -> bool)

  /** `value || fallback` on a string: the empty string is falsy. */
  function OrText(value: string, fallback: string): string
  {
    if value != "" then value else fallback
  }

  /** `value || fallback` on a number: zero is falsy. */
  function OrNumber(value: int, fallback: int): int
  {
    if value != 0 then value else fallback
  }

  function DigitChar(d: nat): (c: char)
    requires d < 10
    ensures '0' <= c <= '9'
    ensures c as int - '0' as int == d
  {
    (('0' as int) + d) as char
  }

  /** True when every character of `s` is a decimal digit. */
  predicate AllDigits(s: string)
  {
    forall i :: 0 <= i < |s| ==> '0' <= s[i] <= '9'
  }

  /** The number a string of decimal digits denotes, read most significant
      digit first. */
  function DecimalValue(s: string): nat
    requires AllDigits(s)
  {
    if |s| == 0 then 0
    else DecimalValue(s[..|s| - 1]) * 10 + (s[|s| - 1] as int - '0' as int)
  }

  /** Decimal digits of a natural number, most significant first. What they
      denote is stated by `DigitsDenote`. */
  function Digits(n: nat): (s: string)
    ensures |s| >= 1
    ensures AllDigits(s)
    ensures n < 10 <==> |s| == 1
    decreases n
  {
    if n < 10 then [DigitChar(n)] else Digits(n / 10) + [DigitChar(n % 10)]
  }

  /** The digits of `n` denote `n` again and carry no leading zero. */
  lemma {:induction false} DigitsDenote(n: nat)
    ensures DecimalValue(Digits(n)) == n
    ensures |Digits(n)| > 1 ==> Digits(n)[0] != '0'
    decreases n
  {
    if n >= 10 {
      DigitsDenote(n / 10);
      var s := Digits(n);
      assert s[..|s| - 1] == Digits(n / 10);
    }
  }

  /** How `"" + n` renders an integer: a minus sign exactly for negatives,
      then the digits of its magnitude. What they denote is stated by
      `NumberTextDenotes`. */
  function NumberText(n: int): (s: string)
    ensures |s| >= 1
    ensures n < 0 <==> s[0] == '-'
    ensures forall i :: (if n < 0 then 1 else 0) <= i < |s| ==> '0' <= s[i] <= '9'
  {
    if n < 0 then "-" + Digits(-n) else Digits(n)
  }

  /** The digit part of the rendering denotes the magnitude of `n` and has no
      leading zero, as JavaScript's rendering of an integer. */
  lemma NumberTextDenotes(n: int)
    ensures var s := NumberText(n);
            && (n < 0 ==> |s| >= 2 && AllDigits(s[1..]) && DecimalValue(s[1..]) == -n)
            && (n < 0 && |s| > 2 ==> s[1] != '0')
            && (n >= 0 ==> AllDigits(s) && DecimalValue(s) == n)
            && (n >= 0 && |s| > 1 ==> s[0] != '0')
  {
    if n < 0 {
      DigitsDenote(-n);
      assert NumberText(n)[1..] == Digits(-n);
    } else {
      DigitsDenote(n);
    }
  }

  /** A transaction input as a caller passes it to a constructor (a plain
      record, or another input being copied). A field the caller leaves out is
      written as its falsy value, "" or 0: `||` treats both alike. */
  datatype InputFields = InputFields(fromAddress: string, amount: int, signature: string)

  /** A transaction as a caller passes it to a constructor. `I` is what the
      caller supplies for the input: the input object itself, or its fields. */
  datatype TransactionFields<I> = TransactionFields(
    txType: Option<TransactionType>,
    timestamp: int,
    txInput: Option<I>,
    to: string,
    hash: string)
}
