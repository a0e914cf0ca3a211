/** Machine-width types, results and the ideal hash shared by the account's modules. */
module Primitives {

  const TWO_64: nat := 0x1_0000_0000_0000_0000
  const TWO_128: nat := 0x1_0000_0000_0000_0000_0000_0000_0000_0000
  const TWO_256: nat := 0x1_0000_0000_0000_0000_0000_0000_0000_0000_0000_0000_0000_0000_0000_0000_0000_0000

  type u64 = n: nat | n < 0x1_0000_0000_0000_0000
  type u128 = n: nat | n < 0x1_0000_0000_0000_0000_0000_0000_0000_0000
  type u256 = n: nat | n < 0x1_0000_0000_0000_0000_0000_0000_0000_0000_0000_0000_0000_0000_0000_0000_0000_0000

  /** An address; the zero address is 0. */
  type Address = nat

  datatype Option<+T> = None | Some(value: T)

  datatype Result<+T, +E> = Ok(value: T) | Err(error: E)

  /**
   * A 32-byte word. keccak256 is ideal: a digest is its preimage, so two digests are equal exactly when their
   * preimages are, and no digest is a word somebody wrote down (in particular none is zero).
   */
  datatype B256 = Word(value: u256) | Keccak(preimage: Preimage)

  datatype Preimage =
    | ActionPreimage(action: Action)
    | ChangePreimage(changeKind: nat, payload: Payload)
    | GuardianPreimage(account: Address, guardian: Address, salt: B256)

  /** What a passkey authorizes (the typed fields, before encoding). */
  datatype Action = Action(
    chainId: u64,
    account: Address,
    nonce: nat,
    kind: nat,
    target: Address,
    amount: u256,
    dataHash: B256,
    fee: u256,
    deadline: u64)

  /** An ABI payload: its whole 32-byte words and the bytes after the last whole word. */
  datatype Payload = Payload(words: seq<B256>, tail: seq<nat>)

  const ZERO_WORD: B256 := Word(0)

  /** A word read as a number. A digest read as a number is outside every range the account accepts. */
  function Value(word: B256): (n: u256)
  {
    match word
    case Word(v) => v
    case Keccak(_) => 0xffff_ffff_ffff_ffff_ffff_ffff_ffff_ffff_ffff_ffff_ffff_ffff_ffff_ffff_ffff_ffff
  }

  function Min(a: nat, b: nat): nat {
    if a <= b then a else b
  }
}
