/** The ten kinds of change: their well-formed payloads, and those that need no delay (changes.rs, config.rs). */
module Changes {
  import opened Primitives

  const ADD_OWNER := 1
  const REMOVE_OWNER := 2
  const SET_LIMITS := 3
  const SET_RECIPIENT := 4
  const SET_ALLOWLIST := 5
  const SET_GUARDIAN := 6
  const SET_NEW_PAYEE_CAP := 7
  const FREEZE := 8
  const UNFREEZE := 9
  const SET_PAYMENT_SHEET := 10

  const BN254_R: nat := 0x30644e72e131a029b85045b68181585d2833e84879b9709143e1f593f0000001

  const MAX_DELAY: nat := 30 * 86_400
  const MAX_ORIGIN_LEN: nat := 128

  predicate IsFieldElement(word: B256) {
    Value(word) < BN254_R
  }

  function WordAddress(word: B256): Option<Address> {
    if Value(word) < 0x1_0000_0000_0000_0000_0000_0000_0000_0000_0000_0000 then Some(Value(word)) else None
  }

  function WordBool(word: B256): Option<bool> {
    if Value(word) == 0 then Some(false) else if Value(word) == 1 then Some(true) else None
  }

  function WordU128(word: B256): Option<u128> {
    if Value(word) < TWO_128 then Some(Value(word)) else None
  }

  /** `n` words and no odd bytes. */
  predicate HasWords(payload: Payload, n: nat) {
    |payload.words| == n && payload.tail == []
  }

  /** Non-zero and canonical. */
  predicate IsNullifier(word: B256) {
    word != ZERO_WORD && IsFieldElement(word)
  }

  predicate IsValid(kind: nat, payload: Payload) {
    if kind == ADD_OWNER || kind == REMOVE_OWNER then
      HasWords(payload, 1) && IsNullifier(payload.words[0])
    else if kind == SET_LIMITS then
      && HasWords(payload, 2)
      && var perTx, daily := WordU128(payload.words[0]), WordU128(payload.words[1]);
      perTx.Some? && daily.Some? && perTx.value != 0 && perTx.value <= daily.value
    else if kind == SET_RECIPIENT then
      && HasWords(payload, 2)
      && WordAddress(payload.words[0]).Some? && WordAddress(payload.words[0]).value != 0
      && WordBool(payload.words[1]).Some?
    else if kind == SET_ALLOWLIST || kind == SET_PAYMENT_SHEET then
      HasWords(payload, 1) && WordBool(payload.words[0]).Some?
    else if kind == SET_GUARDIAN then
      HasWords(payload, 1)
    else if kind == SET_NEW_PAYEE_CAP then
      HasWords(payload, 1) && WordU128(payload.words[0]).Some?
    else if kind == FREEZE || kind == UNFREEZE then
      HasWords(payload, 0)
    else
      false
  }

  /** Limits under which every fee up to `maxFee` can still be paid; changes of other kinds pass. */
  predicate KeepsFeesPayable(kind: nat, payload: Payload, maxFee: nat) {
    kind != SET_LIMITS || (HasWords(payload, 2) && Value(payload.words[0]) >= maxFee)
  }

  datatype Limits = Limits(perTxCap: nat, dailyCap: nat, newPayeeCap: nat)

  /** Tightens for sure: see `RestrictiveMeansTighter`. */
  predicate IsRestrictive(kind: nat, payload: Payload, current: Limits) {
    && IsValid(kind, payload)
    && if kind == SET_LIMITS then
         Value(payload.words[0]) <= current.perTxCap && Value(payload.words[1]) <= current.dailyCap
       else if kind == SET_NEW_PAYEE_CAP then
         Value(payload.words[0]) <= current.newPayeeCap
       else if kind == SET_ALLOWLIST || kind == SET_PAYMENT_SHEET then
         WordBool(payload.words[0]) == Some(true)
       else if kind == SET_RECIPIENT then
         WordBool(payload.words[1]) == Some(false)
       else
         kind == FREEZE
  }

  function DataHash(kind: nat, payload: Payload): B256 {
    Keccak(ChangePreimage(kind, payload))
  }

  /** The numbers `initialize` takes; `originLen` is the length of the allowed origin (config.rs). */
  datatype Policy = Policy(
    perTxCap: u256,
    dailyCap: u256,
    newPayeeCap: u256,
    changeDelay: u64,
    recoveryDelay: u64,
    maxFee: u256,
    originLen: nat)

  predicate IsValidPolicy(policy: Policy) {
    && 0 < policy.originLen <= MAX_ORIGIN_LEN
    && policy.perTxCap != 0
    && policy.perTxCap <= policy.dailyCap
    && policy.dailyCap < TWO_128
    && policy.newPayeeCap < TWO_128
    && policy.changeDelay <= MAX_DELAY
    && policy.recoveryDelay <= MAX_DELAY
    && policy.maxFee < TWO_64
    && policy.maxFee <= policy.perTxCap
  }
}
