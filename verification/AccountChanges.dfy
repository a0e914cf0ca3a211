/** The changes an account can make, as values: which payloads stand for one (contracts/stylus/core/src/changes.rs). */
module AccountChanges {
  import opened Primitives
  import opened Changes

  datatype Change =
    | Adds(nullifier: B256)
    | Drops(nullifier: B256)
    | Caps(perTx: nat, daily: nat)
    | Allows(to: Address)
    | Forbids(to: Address)
    | Allowlists(on: bool)
    | Entrusts(commitment: B256)
    | CapsNewPayees(cap: nat)
    | Stops
    | Thaws
    | RequiresSheet(on: bool)
  {
    /** It makes sense: owners are non-zero field elements, caps are ordered and fit 128 bits, a recipient is an address but not zero. */
    predicate Sound() {
      match this
      case Adds(n) => IsOwnerName(n)
      case Drops(n) => IsOwnerName(n)
      case Caps(perTx, daily) => 0 < perTx <= daily < 340282366920938463463374607431768211456
      case Allows(to) => 0 < to < 1461501637330902918203684832716283019655932542976
      case Forbids(to) => 0 < to < 1461501637330902918203684832716283019655932542976
      case CapsNewPayees(cap) => cap < 340282366920938463463374607431768211456
      case _ => true
    }

    function Kind(): nat {
      match this
      case Adds(_) => 1
      case Drops(_) => 2
      case Caps(_, _) => 3
      case Allows(_) => 4
      case Forbids(_) => 4
      case Allowlists(_) => 5
      case Entrusts(_) => 6
      case CapsNewPayees(_) => 7
      case Stops => 8
      case Thaws => 9
      case RequiresSheet(_) => 10
    }

    /** Its ABI words. */
    function Words(): seq<B256>
      requires Sound()
    {
      match this
      case Adds(n) => [n]
      case Drops(n) => [n]
      case Caps(perTx, daily) => [Word(perTx), Word(daily)]
      case Allows(to) => [Word(to), Word(1)]
      case Forbids(to) => [Word(to), Word(0)]
      case Allowlists(on) => [Word(if on then 1 else 0)]
      case Entrusts(commitment) => [commitment]
      case CapsNewPayees(cap) => [Word(cap)]
      case Stops => []
      case Thaws => []
      case RequiresSheet(on) => [Word(if on then 1 else 0)]
    }
  }

  predicate IsOwnerName(n: B256) {
    n.Word? && 0 < n.value < 21888242871839275222246405745257275088548364400416034343698204186575808495617
  }

  /** `payload` stands for this change. */
  ghost predicate StandsFor(kind: nat, payload: Payload, change: Change) {
    change.Sound() && kind == change.Kind() && payload == Payload(change.Words(), [])
  }

  /** The change a valid payload stands for. */
  function Meant(kind: nat, payload: Payload): Change
    requires IsValid(kind, payload)
  {
    var w := payload.words;
    if kind == ADD_OWNER then Adds(w[0])
    else if kind == REMOVE_OWNER then Drops(w[0])
    else if kind == SET_LIMITS then Caps(Value(w[0]), Value(w[1]))
    else if kind == SET_RECIPIENT then (if Value(w[1]) == 1 then Allows(Value(w[0])) else Forbids(Value(w[0])))
    else if kind == SET_ALLOWLIST then Allowlists(Value(w[0]) == 1)
    else if kind == SET_GUARDIAN then Entrusts(w[0])
    else if kind == SET_NEW_PAYEE_CAP then CapsNewPayees(Value(w[0]))
    else if kind == FREEZE then Stops
    else if kind == UNFREEZE then Thaws
    else RequiresSheet(Value(w[0]) == 1)
  }

  lemma ValidStandsFor(kind: nat, payload: Payload)
    requires IsValid(kind, payload)
    ensures StandsFor(kind, payload, Meant(kind, payload))
  {
    var w := payload.words;
    assert |w| == 1 ==> w == [w[0]];
    assert |w| == 2 ==> w == [w[0], w[1]];
  }

  /** A payload is valid exactly when it is the encoding of a sound change. */
  lemma ValidMeansAChange(kind: nat, payload: Payload)
    ensures IsValid(kind, payload) <==> exists change :: StandsFor(kind, payload, change)
  {
    if IsValid(kind, payload) {
      ValidStandsFor(kind, payload);
    }
  }

  /** And of one change only: nothing an owner signs can be read in two ways. */
  lemma OneMeaning(kind: nat, payload: Payload, a: Change, b: Change)
    requires StandsFor(kind, payload, a) && StandsFor(kind, payload, b)
    ensures a == b && IsValid(kind, payload) && Meant(kind, payload) == a
  {
  }

  /** Fees stay payable under every valid change but limits whose per-transaction cap is below the largest fee. */
  lemma FeesStayPayableUnless(kind: nat, payload: Payload, maxFee: nat)
    requires IsValid(kind, payload)
    ensures KeepsFeesPayable(kind, payload, maxFee) <==>
            !(Meant(kind, payload).Caps? && Meant(kind, payload).perTx < maxFee)
  {
  }

  /** What may apply at once, by its meaning: lower caps, a recipient gone, a protection on. */
  lemma RestrictiveChanges(kind: nat, payload: Payload, current: Limits)
    requires IsValid(kind, payload)
    ensures IsRestrictive(kind, payload, current) <==>
            match Meant(kind, payload)
            case Caps(perTx, daily) => perTx <= current.perTxCap && daily <= current.dailyCap
            case CapsNewPayees(cap) => cap <= current.newPayeeCap
            case Forbids(_) => true
            case Allowlists(on) => on
            case RequiresSheet(on) => on
            case Stops => true
            case _ => false
  {
  }
}
