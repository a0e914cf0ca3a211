/** The 320-byte layout the WebAuthn challenge hashes (contracts/stylus/core/src/action.rs). */
module ActionCodec {
  import opened Primitives
  import opened Bytes

  const ENCODED_LEN: nat := 320
  const WORDS: nat := 10

  const ACTION_TYPEHASH: seq<byte> := [
    0x49, 0xb7, 0x51, 0x85, 0x11, 0x22, 0x3f, 0xf2, 0x4d, 0x5b, 0xc3, 0x1d, 0x13, 0x7c, 0xf0, 0xf6,
    0x57, 0x84, 0xf0, 0x57, 0x0d, 0x50, 0xae, 0xe3, 0x8d, 0xc0, 0x53, 0x78, 0x4e, 0x2b, 0x51, 0x4d]

  type AddressBytes = b: seq<byte> | |b| == 20 witness ACTION_TYPEHASH[..20]
  type WordBytes = b: seq<byte> | |b| == 32 witness ACTION_TYPEHASH

  /** An action as fixed-width fields. */
  datatype WireAction = WireAction(
    chainId: u64,
    account: AddressBytes,
    nonce: u256,
    kind: byte,
    target: AddressBytes,
    amount: u256,
    dataHash: WordBytes,
    fee: u256,
    deadline: u64)

  const ZEROS_12: seq<byte> := [0, 0, 0, 0, 0, 0, 0, 0, 0, 0, 0, 0]

  /** The ABI encoding, word by word: numbers big-endian, addresses right-aligned. */
  function Word(a: WireAction, w: nat): (word: WordBytes)
    requires w < WORDS
  {
    if w == 0 then ACTION_TYPEHASH
    else if w == 1 then BigEndian(a.chainId, 32)
    else if w == 2 then ZEROS_12 + a.account
    else if w == 3 then BigEndian(a.nonce, 32)
    else if w == 4 then BigEndian(a.kind, 32)
    else if w == 5 then ZEROS_12 + a.target
    else if w == 6 then BigEndian(a.amount, 32)
    else if w == 7 then a.dataHash
    else if w == 8 then BigEndian(a.fee, 32)
    else BigEndian(a.deadline, 32)
  }

  /** `bytes` is the encoding of `a`. */
  ghost predicate Encodes(bytes: seq<byte>, a: WireAction) {
    |bytes| == ENCODED_LEN && forall w: nat :: w < WORDS ==> bytes[32 * w..32 * w + 32] == Word(a, w)
  }

  /** The first `n` words are written and the rest is still zero. */
  ghost predicate Written(bytes: seq<byte>, a: WireAction, n: nat) {
    && |bytes| == ENCODED_LEN && n <= WORDS
    && (forall w: nat :: w < n ==> bytes[32 * w..32 * w + 32] == Word(a, w))
    && (forall i :: 32 * n <= i < ENCODED_LEN ==> bytes[i] == 0)
  }

  method PutU256(out: array<byte>, word: nat, value: u256)
    requires out.Length == ENCODED_LEN && word < WORDS
    modifies out
    ensures out[..] == old(out[..32 * word]) + BigEndian(value, 32) + old(out[32 * word + 32..])
  {
    var bytes := BigEndian(value, 32);
    forall i | 0 <= i < 32 {
      out[word * 32 + i] := bytes[i];
    }
  }

  method PutAddress(out: array<byte>, word: nat, value: AddressBytes)
    requires out.Length == ENCODED_LEN && word < WORDS
    modifies out
    ensures out[..] == old(out[..32 * word + 12]) + value + old(out[32 * word + 32..])
  {
    forall i | 0 <= i < 20 {
      out[word * 32 + 12 + i] := value[i];
    }
  }

  /** One more word written after the first `n` leaves the first `n + 1` written. */
  lemma WriteWord(before: seq<byte>, after: seq<byte>, a: WireAction, n: nat)
    requires Written(before, a, n) && n < WORDS
    requires after == before[..32 * n] + Word(a, n) + before[32 * n + 32..]
    ensures Written(after, a, n + 1)
  {
    forall w: nat | w < n + 1 ensures after[32 * w..32 * w + 32] == Word(a, w) {
      if w < n {
        assert after[32 * w..32 * w + 32] == before[32 * w..32 * w + 32];
      }
    }
  }

  method Encode(a: WireAction) returns (out: array<byte>)
    ensures fresh(out) && Encodes(out[..], a)
  {
    out := new byte[ENCODED_LEN](_ => 0);
    assert Written(out[..], a, 0);
    ghost var was := out[..];
    forall i | 0 <= i < 32 { out[i] := ACTION_TYPEHASH[i]; }
    assert out[..] == was[..32 * 0] + Word(a, 0) + was[32 * 0 + 32..];
    WriteWord(was, out[..], a, 0);
    PutWord(out, a, 1);
    PutWord(out, a, 2);
    PutWord(out, a, 3);
    PutWord(out, a, 4);
    PutWord(out, a, 5);
    PutWord(out, a, 6);
    was := out[..];
    forall i | 0 <= i < 32 { out[7 * 32 + i] := a.dataHash[i]; }
    assert out[..] == was[..32 * 7] + Word(a, 7) + was[32 * 7 + 32..];
    WriteWord(was, out[..], a, 7);
    PutWord(out, a, 8);
    PutWord(out, a, 9);
  }

  /** Writes a number or address word after the words before it. */
  method PutWord(out: array<byte>, a: WireAction, n: nat)
    requires 0 < n < WORDS && n != 7 && Written(out[..], a, n)
    modifies out
    ensures Written(out[..], a, n + 1)
  {
    ghost var was := out[..];
    if n == 2 {
      PutAddress(out, n, a.account);
      AddressWord(was, out[..], a.account, n);
    } else if n == 5 {
      PutAddress(out, n, a.target);
      AddressWord(was, out[..], a.target, n);
    } else {
      var value := if n == 1 then a.chainId else if n == 3 then a.nonce else if n == 4 then a.kind
                   else if n == 6 then a.amount else if n == 8 then a.fee else a.deadline;
      PutU256(out, n, value);
    }
    WriteWord(was, out[..], a, n);
  }

  lemma AddressWord(before: seq<byte>, after: seq<byte>, value: AddressBytes, n: nat)
    requires |before| == ENCODED_LEN && n < WORDS && forall i :: 32 * n <= i < 32 * n + 12 ==> before[i] == 0
    requires after == before[..32 * n + 12] + value + before[32 * n + 32..]
    ensures after == before[..32 * n] + (ZEROS_12 + value) + before[32 * n + 32..]
  {
    assert before[..32 * n + 12] == before[..32 * n] + ZEROS_12;
  }

  /** Different actions have different encodings: every field is bound. */
  lemma EncodingIsInjective(bytes: seq<byte>, a: WireAction, b: WireAction)
    requires Encodes(bytes, a) && Encodes(bytes, b)
    ensures a == b
  {
    hide BigEndian;
    forall w: nat | w < WORDS ensures Word(a, w) == Word(b, w) {
      assert bytes[32 * w..32 * w + 32] == Word(a, w);
    }
    Power256Of32();
    assert Word(a, 1) == Word(b, 1) && Word(a, 3) == Word(b, 3) && Word(a, 4) == Word(b, 4) && Word(a, 6) == Word(b, 6);
    assert Word(a, 8) == Word(b, 8) && Word(a, 9) == Word(b, 9) && Word(a, 7) == Word(b, 7);
    BigEndianInjective(a.chainId, b.chainId, 32);
    BigEndianInjective(a.nonce, b.nonce, 32);
    BigEndianInjective(a.kind, b.kind, 32);
    BigEndianInjective(a.amount, b.amount, 32);
    BigEndianInjective(a.fee, b.fee, 32);
    BigEndianInjective(a.deadline, b.deadline, 32);
    assert Word(a, 2)[12..] == a.account && Word(b, 2)[12..] == b.account;
    assert Word(a, 5)[12..] == a.target && Word(b, 5)[12..] == b.target;
  }

  /** The number in bytes `at` up to `at + 32`, most significant byte first. */
  function NumberAt(bytes: seq<byte>, at: nat): nat
    requires at + 32 <= |bytes|
  {
    FromBigEndian(bytes[at..at + 32])
  }

  /**
   * Where the fields stand, as `abi.encode` puts them: the type first, numbers in whole words, addresses in the last twenty
   * bytes of theirs.
   */
  ghost predicate Lays(bytes: seq<byte>, a: WireAction) {
    && |bytes| == 320
    && bytes[..32] == ACTION_TYPEHASH
    && NumberAt(bytes, 32) == a.chainId
    && bytes[76..96] == a.account
    && NumberAt(bytes, 96) == a.nonce
    && NumberAt(bytes, 128) == a.kind
    && bytes[172..192] == a.target
    && NumberAt(bytes, 192) == a.amount
    && bytes[224..256] == a.dataHash
    && NumberAt(bytes, 256) == a.fee
    && NumberAt(bytes, 288) == a.deadline
    && (forall i :: 64 <= i < 76 || 160 <= i < 172 ==> bytes[i] == 0)
  }

  lemma NumberReads(bytes: seq<byte>, a: WireAction, w: nat, value: u256)
    requires Encodes(bytes, a) && w < WORDS && Word(a, w) == BigEndian(value, 32)
    ensures NumberAt(bytes, 32 * w) == value
  {
    Power256Of32();
    BigEndianRoundTrip(value, 32);
    assert bytes[32 * w..32 * w + 32] == Word(a, w);
  }

  lemma AddressReads(bytes: seq<byte>, a: WireAction, w: nat, value: AddressBytes)
    requires Encodes(bytes, a) && w < WORDS && Word(a, w) == ZEROS_12 + value
    ensures bytes[32 * w + 12..32 * w + 32] == value && forall i :: 32 * w <= i < 32 * w + 12 ==> bytes[i] == 0
  {
    var word := bytes[32 * w..32 * w + 32];
    assert word == ZEROS_12 + value;
    assert bytes[32 * w + 12..32 * w + 32] == word[12..] == value;
    forall i | 32 * w <= i < 32 * w + 12 ensures bytes[i] == 0 {
      assert bytes[i] == word[i - 32 * w] == ZEROS_12[i - 32 * w];
    }
  }

  lemma NumbersReadBack(bytes: seq<byte>, a: WireAction)
    requires Encodes(bytes, a)
    ensures NumberAt(bytes, 32) == a.chainId && NumberAt(bytes, 96) == a.nonce && NumberAt(bytes, 128) == a.kind
    ensures NumberAt(bytes, 192) == a.amount && NumberAt(bytes, 256) == a.fee && NumberAt(bytes, 288) == a.deadline
  {
    NumberReads(bytes, a, 1, a.chainId);
    NumberReads(bytes, a, 3, a.nonce);
    NumberReads(bytes, a, 4, a.kind);
    NumberReads(bytes, a, 6, a.amount);
    NumberReads(bytes, a, 8, a.fee);
    NumberReads(bytes, a, 9, a.deadline);
    hide NumberAt, BigEndian, Encodes;
  }

  lemma AddressesReadBack(bytes: seq<byte>, a: WireAction)
    requires Encodes(bytes, a)
    ensures bytes[76..96] == a.account && bytes[172..192] == a.target
    ensures forall i :: 64 <= i < 76 || 160 <= i < 172 ==> bytes[i] == 0
  {
    AddressReads(bytes, a, 2, a.account);
    AddressReads(bytes, a, 5, a.target);
    hide Word;
  }

  lemma WordsReadBack(bytes: seq<byte>, a: WireAction)
    requires Encodes(bytes, a)
    ensures bytes[..32] == ACTION_TYPEHASH && bytes[224..256] == a.dataHash
  {
    assert bytes[32 * 0..32 * 0 + 32] == Word(a, 0) && bytes[32 * 7..32 * 7 + 32] == Word(a, 7);
    assert bytes[..32] == bytes[0..32];
  }

  /** Reading each field back from its place gives the action that was encoded. */
  lemma EncodedFieldsReadBack(bytes: seq<byte>, a: WireAction)
    requires Encodes(bytes, a)
    ensures Lays(bytes, a)
  {
    NumbersReadBack(bytes, a);
    AddressesReadBack(bytes, a);
    WordsReadBack(bytes, a);
    assert |bytes| == 320;
    hide NumberAt, Encodes;
  }
}
