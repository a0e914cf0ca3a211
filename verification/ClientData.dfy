/**
 * The client data a passkey signs, checked byte by byte without a JSON parser (contracts/stylus/core/src/client_data.rs).
 * Bytes are characters here.
 */
module ClientData {
  import opened Primitives
  import opened Text
  import opened Bytes
  import Base64Url

  const MAX_CLIENT_DATA_LEN: nat := 1024

  const TYPE_AND_CHALLENGE_KEY: string := "{\"type\":\"webauthn.get\",\"challenge\":\""
  const ORIGIN_KEY: string := "\",\"origin\":\""
  const CROSS_ORIGIN_TRUE: string := ",\"crossOrigin\":true"
  const SPC_PREFIX: string := "{\"type\":\"payment.get\",\"challenge\":\""
  const SPC_RP_ID_KEY: string := "\",\"crossOrigin\":false,\"payment\":{\"rpId\":\""
  const SPC_TOP_ORIGIN_KEY: string := "\",\"topOrigin\":\""
  const SPC_PAYEE_NAME_KEY: string := "\",\"payeeName\":\""
  const SPC_AFTER_PAYEE: string := "\","
  const SPC_LOGOS: string := "\"paymentEntitiesLogos\":[],"
  const SPC_TOTAL_KEY: string := "\"total\":{\"value\":\""
  const SPC_CURRENCY_AND_INSTRUMENT: string := "\",\"currency\":\"USD\"},\"instrument\":{"

  datatype Error = TooLong | NotAnAssertion | ChallengeMismatch | OriginMismatch | Malformed | CrossOrigin | PaymentMismatch

  type Hash = b: seq<byte> | |b| == 32 witness seq(32, _ => 0)
  type Payee = b: seq<byte> | |b| == 20 witness seq(20, _ => 0)

  datatype Payment = Payment(payee: Payee, total: u128)

  // ---------------------------------------------------------------------------------------------------------------
  // How a payment is written.

  function HexDigit(n: nat): char
    requires n < 16
  {
    if n < 10 then (n + '0' as int) as char else (n - 10 + 'a' as int) as char
  }

  function HexBytes(bytes: seq<byte>): (s: string)
    ensures |s| == 2 * |bytes|
    ensures forall i :: 0 <= i < |bytes| ==> s[2 * i] == HexDigit(bytes[i] / 16) && s[2 * i + 1] == HexDigit(bytes[i] % 16)
  {
    if bytes == [] then ""
    else
      var last := |bytes| - 1;
      HexBytes(bytes[..last]) + [HexDigit(bytes[last] / 16), HexDigit(bytes[last] % 16)]
  }

  /** `0x` and forty lower-case digits. */
  function PayeeText(payee: Payee): (s: string)
    ensures |s| == 42
  {
    "0x" + HexBytes(payee)
  }

  /** The last `k` decimal digits of `n`. */
  function LowDigits(n: nat, k: nat): (s: string)
    ensures |s| == k && forall i :: 0 <= i < k ==> '0' <= s[i] <= '9'
  {
    if k == 0 then "" else LowDigits(n / 10, k - 1) + [(n % 10 + '0' as int) as char]
  }

  /** Trailing zeros dropped, but not below two digits. */
  function Trimmed(s: string): (t: string)
    ensures |t| <= |s| && t == s[..|t|]
  {
    if |s| > 2 && s[|s| - 1] == '0' then Trimmed(s[..|s| - 1]) else s
  }

  /** An amount of base units with six decimals, at least two of them written. */
  function TotalText(units: nat): string {
    Decimal(units / 1_000_000) + "." + Trimmed(LowDigits(units % 1_000_000, 6))
  }

  lemma OneMoreByte(bytes: seq<byte>, b: byte)
    ensures HexBytes([]) == ""
    ensures HexBytes(bytes + [b]) == HexBytes(bytes) + [HexDigit(b / 16), HexDigit(b % 16)]
  {
    assert (bytes + [b])[..|bytes|] == bytes;
  }

  method PutByte(out: array<char>, at: nat, b: byte)
    requires at + 2 <= out.Length
    modifies out
    ensures out[..at + 2] == old(out[..at]) + [HexDigit(b / 16), HexDigit(b % 16)]
  {
    hide HexDigit;
    out[at] := HexDigit(b / 16);
    out[at + 1] := HexDigit(b % 16);
  }

  method PayeeName(payee: Payee) returns (out: array<char>)
    ensures fresh(out) && out.Length == 42 && out[..] == PayeeText(payee)
  {
    hide HexDigit, HexBytes;
    OneMoreByte([], 0);
    out := new char[42](_ => '0');
    out[0] := '0';
    out[1] := 'x';
    for i := 0 to 20
      invariant out[..2 + 2 * i] == "0x" + HexBytes(payee[..i])
    {
      OneMoreByte(payee[..i], payee[i]);
      assert payee[..i + 1] == payee[..i] + [payee[i]];
      PutByte(out, 2 + 2 * i, payee[i]);
    }
    assert payee[..20] == payee && out[..] == out[..42];
  }

  function Reversed(s: string): (r: string)
    ensures |r| == |s|
  {
    if s == "" then "" else Reversed(s[1..]) + [s[0]]
  }

  lemma {:induction false} ReversedSnoc(s: string, c: char)
    ensures Reversed(s + [c]) == [c] + Reversed(s)
  {
    if s == "" {
      assert s + [c] == [c];
    } else {
      ReversedSnoc(s[1..], c);
      assert (s + [c])[1..] == s[1..] + [c];
    }
  }

  function LowestDigit(w: nat): char {
    (w % 10 + '0' as int) as char
  }

  /** The digits of `whole` are those still to come, of `w`, and those in `s`, backwards. */
  ghost predicate Left(whole: nat, w: nat, more: bool, s: string) {
    Decimal(whole) == (if more then Decimal(w) else "") + Reversed(s)
  }

  lemma OneRound(whole: nat, w: nat, s: string)
    requires Left(whole, w, true, s)
    ensures |s| < |Decimal(whole)|
    ensures Left(whole, w / 10, w / 10 != 0, s + [LowestDigit(w)])
  {
    ReversedSnoc(s, LowestDigit(w));
    assert Decimal(w) == (if w / 10 != 0 then Decimal(w / 10) else "") + [LowestDigit(w)];
  }

  /** The digits of `whole`, least significant first; `n` of them. */
  method WholeDigits(whole: nat, digits: array<char>) returns (n: nat)
    requires digits.Length == 40 && whole < TWO_128
    modifies digits
    ensures n <= 40 && Reversed(digits[..n]) == Decimal(whole)
  {
    DigitsAreEnough();
    DecimalLength(whole, 39);
    n := 0;
    var w: nat, more: bool := whole, true;
    assert Left(whole, w, more, digits[..0]);
    hide Left, LowestDigit, Pow10;
    while more
      invariant n <= 40 && Left(whole, w, more, digits[..n])
      decreases more, w
    {
      ghost var was := digits[..n];
      OneRound(whole, w, was);
      digits[n] := LowestDigit(w);
      assert digits[..n + 1] == was + [digits[n]];
      n := n + 1;
      w := w / 10;
      more := w != 0;
    }
    Finished(whole, w, digits[..n]);
  }

  lemma Finished(whole: nat, w: nat, s: string)
    requires Left(whole, w, false, s)
    ensures Reversed(s) == Decimal(whole)
  {
  }

  /** The six decimals of `frac`. */
  method Decimals(frac: nat, decimals: array<char>)
    requires decimals.Length == 6
    modifies decimals
    ensures decimals[..] == LowDigits(frac, 6)
  {
    var f: nat, i := frac, 6;
    while i > 0
      invariant 0 <= i <= 6 && LowDigits(frac, 6) == LowDigits(f, i) + decimals[i..]
    {
      ghost var was := decimals[i..];
      i := i - 1;
      decimals[i] := (f % 10 + '0' as int) as char;
      assert decimals[i..] == [decimals[i]] + was;
      f := f / 10;
    }
    assert decimals[0..] == decimals[..];
  }

  method Keep(decimals: array<char>) returns (keep: nat)
    requires decimals.Length == 6
    ensures keep <= 6 && decimals[..keep] == Trimmed(decimals[..])
  {
    keep := 6;
    assert decimals[..6] == decimals[..];
    while keep > 2 && decimals[keep - 1] == '0'
      invariant keep <= 6 && Trimmed(decimals[..]) == Trimmed(decimals[..keep])
    {
      assert decimals[..keep][..keep - 1] == decimals[..keep - 1];
      keep := keep - 1;
    }
  }

  /** Writes the digits to the front of the buffer, most significant first. */
  method PutWhole(out: array<char>, digits: array<char>, n: nat)
    requires n <= digits.Length == 40 && out.Length == 48 && out != digits
    modifies out
    ensures out[..n] == Reversed(digits[..n])
  {
    var len, i := 0, n;
    while i > 0
      invariant 0 <= i <= n && len == n - i
      invariant Reversed(digits[..n]) == out[..len] + Reversed(digits[..i])
    {
      i := i - 1;
      assert digits[..i + 1] == digits[..i] + [digits[i]];
      ReversedSnoc(digits[..i], digits[i]);
      ghost var was := out[..len];
      out[len] := digits[i];
      assert out[..len + 1] == was + [digits[i]];
      len := len + 1;
    }
    assert digits[..0] == "";
  }

  /** The text of a total, in the first `len` characters of the buffer. */
  method FormatTotal(units: u128) returns (out: array<char>, len: nat)
    ensures fresh(out) && len <= out.Length == 48 && out[..len] == TotalText(units)
  {
    hide Decimal, LowDigits, Trimmed, Reversed;
    out := new char[48](_ => '0');
    var digits := new char[40](_ => '0');
    var n := WholeDigits(units / 1_000_000, digits);
    PutWhole(out, digits, n);
    ghost var whole := out[..n];
    out[n] := '.';
    assert out[..n + 1] == whole + ".";
    var decimals := new char[6](_ => '0');
    Decimals(units % 1_000_000, decimals);
    var keep := Keep(decimals);
    forall k | 0 <= k < keep {
      out[n + 1 + k] := decimals[k];
    }
    len := n + 1 + keep;
    assert out[..len] == (whole + ".") + decimals[..keep];
  }

  // ---------------------------------------------------------------------------------------------------------------
  // Different payments are written differently.

  lemma HexDigitIsInjective(a: nat, b: nat)
    requires a < 16 && b < 16 && HexDigit(a) == HexDigit(b)
    ensures a == b
  {
  }

  /** A payee is written `0x` and two lower-case digits a byte, high half first. */
  lemma PayeeReads(payee: Payee, i: nat)
    requires i < 20
    ensures PayeeText(payee)[..2] == "0x"
    ensures PayeeText(payee)[2 + 2 * i] == "0123456789abcdef"[payee[i] / 16]
    ensures PayeeText(payee)[3 + 2 * i] == "0123456789abcdef"[payee[i] % 16]
  {
    DigitIs(payee[i] / 16);
    DigitIs(payee[i] % 16);
    assert HexBytes(payee)[2 * i] == HexDigit(payee[i] / 16) && HexBytes(payee)[2 * i + 1] == HexDigit(payee[i] % 16);
  }

  lemma DigitIs(n: nat)
    requires n < 16
    ensures HexDigit(n) == "0123456789abcdef"[n]
  {
  }

  lemma PayeeTextIsInjective(a: Payee, b: Payee)
    requires PayeeText(a) == PayeeText(b)
    ensures a == b
  {
    assert HexBytes(a) == PayeeText(a)[2..] == PayeeText(b)[2..] == HexBytes(b);
    forall i | 0 <= i < 20 ensures a[i] == b[i] {
      assert HexBytes(a)[2 * i] == HexBytes(b)[2 * i] && HexBytes(a)[2 * i + 1] == HexBytes(b)[2 * i + 1];
      HexDigitIsInjective(a[i] / 16, b[i] / 16);
      HexDigitIsInjective(a[i] % 16, b[i] % 16);
    }
  }

  lemma {:induction false} LowDigitsValue(n: nat, k: nat)
    requires n < Pow10(k)
    ensures DecimalValue(LowDigits(n, k)) == n
  {
    if k > 0 {
      LowDigitsValue(n / 10, k - 1);
      var s := LowDigits(n, k);
      assert s[..|s| - 1] == LowDigits(n / 10, k - 1);
    }
  }

  function Zeros(n: nat): (s: string)
    ensures |s| == n && forall i :: 0 <= i < n ==> s[i] == '0'
  {
    if n == 0 then "" else Zeros(n - 1) + "0"
  }

  /** The dropped zeros can be put back. */
  lemma {:induction false} TrimmedUndone(s: string)
    ensures s == Trimmed(s) + Zeros(|s| - |Trimmed(s)|)
  {
    if |s| > 2 && s[|s| - 1] == '0' {
      TrimmedUndone(s[..|s| - 1]);
      assert s == s[..|s| - 1] + "0";
    }
  }

  lemma DotMarksTheWhole(a: string, b: string, s: string, t: string)
    requires a + "." + s == b + "." + t && '.' !in a && '.' !in b
    ensures a == b && s == t
  {
    var x := a + "." + s;
    assert x[|a|] == '.' && x[|b|] == '.';
    assert forall k :: 0 <= k < |a| ==> x[k] == a[k] && a[k] in a;
    assert forall k :: 0 <= k < |b| ==> x[k] == b[k] && b[k] in b;
    assert |a| == |b|;
    assert a == x[..|a|] && b == x[..|b|] && s == x[|a| + 1..] && t == x[|b| + 1..];
  }

  lemma SixDigits(n: nat)
    requires n < 1_000_000
    ensures DecimalValue(LowDigits(n, 6)) == n
  {
    assert Pow10(6) == 1_000_000;
    LowDigitsValue(n, 6);
  }

  lemma TrimmedIsInjective(s: string, t: string)
    requires |s| == |t| && Trimmed(s) == Trimmed(t)
    ensures s == t
  {
    TrimmedUndone(s);
    TrimmedUndone(t);
  }

  lemma {:induction false} TrimmedShape(s: string)
    requires |s| >= 2
    ensures |Trimmed(s)| >= 2 && (|Trimmed(s)| > 2 ==> Trimmed(s)[|Trimmed(s)| - 1] != '0')
  {
    if |s| > 2 && s[|s| - 1] == '0' {
      TrimmedShape(s[..|s| - 1]);
    }
  }

  /** A total reads back as its number of base units, with two to six decimals and no zero that says nothing. */
  lemma TotalReads(units: nat, whole: string, decimals: string)
    requires TotalText(units) == whole + "." + decimals && '.' !in whole
    requires forall i :: 0 <= i < |whole| ==> '0' <= whole[i] <= '9'
    requires forall i :: 0 <= i < |decimals| ==> '0' <= decimals[i] <= '9'
    ensures 2 <= |decimals| <= 6 && (|decimals| > 2 ==> decimals[|decimals| - 1] != '0')
    ensures DecimalValue(whole) * 1_000_000 + DecimalValue(decimals + Zeros(6 - |decimals|)) == units
  {
    var low := LowDigits(units % 1_000_000, 6);
    hide Decimal, LowDigits, Trimmed, DecimalValue;
    assert '.' !in Decimal(units / 1_000_000);
    DotMarksTheWhole(Decimal(units / 1_000_000), whole, Trimmed(low), decimals);
    TrimmedShape(low);
    TrimmedUndone(low);
    DecimalRoundTrip(units / 1_000_000);
    SixDigits(units % 1_000_000);
  }

  lemma TotalTextIsInjective(u: nat, v: nat)
    requires TotalText(u) == TotalText(v)
    ensures u == v
  {
    hide Decimal, LowDigits, Trimmed, DecimalValue;
    var a, b := Decimal(u / 1_000_000), Decimal(v / 1_000_000);
    var s, t := LowDigits(u % 1_000_000, 6), LowDigits(v % 1_000_000, 6);
    assert '.' !in a && '.' !in b;
    DotMarksTheWhole(a, b, Trimmed(s), Trimmed(t));
    TrimmedIsInjective(s, t);
    DecimalRoundTrip(u / 1_000_000);
    DecimalRoundTrip(v / 1_000_000);
    SixDigits(u % 1_000_000);
    SixDigits(v % 1_000_000);
    assert u == u / 1_000_000 * 1_000_000 + u % 1_000_000 && v == v / 1_000_000 * 1_000_000 + v % 1_000_000;
  }

  lemma TotalHasNoQuote(u: nat)
    ensures '"' !in TotalText(u)
  {
  }

  // ---------------------------------------------------------------------------------------------------------------
  // The checks.

  /** Where `token` ends when it stands at `pos`. */
  function Expect(json: string, pos: nat, token: string): (end: Option<nat>)
    ensures end.Some? ==> end.value == pos + |token| <= |json|
  {
    if pos + |token| <= |json| && json[pos..pos + |token|] == token then Some(pos + |token|) else None
  }

  /** The first quote or backslash from `pos` on. */
  function Stop(json: string, pos: nat): (end: nat)
    requires pos <= |json|
    ensures pos <= end <= |json|
    ensures forall k :: pos <= k < end ==> json[k] != '"' && json[k] != '\\'
    ensures end < |json| ==> json[end] == '"' || json[end] == '\\'
    decreases |json| - pos
  {
    if pos == |json| || json[pos] == '"' || json[pos] == '\\' then pos else Stop(json, pos + 1)
  }

  function ChallengePart(challenge: Hash): string {
    Base64Url.UrlEncoded(challenge) + ORIGIN_KEY
  }

  function TopOriginPart(origin: string): string {
    SPC_TOP_ORIGIN_KEY + origin
  }

  function PayeePart(payee: Payee): string {
    SPC_PAYEE_NAME_KEY + PayeeText(payee) + SPC_AFTER_PAYEE
  }

  function TotalPart(total: nat): string {
    SPC_TOTAL_KEY + TotalText(total) + SPC_CURRENCY_AND_INSTRUMENT
  }

  /** The client data of a payment sheet, from its challenge to the payment's relying party. */
  function CheckHead(json: string, challenge: Hash, origin: string): (end: Result<nat, Error>)
    ensures end.Ok? ==> end.value <= |json|
  {
    var prefix := Expect(json, 0, SPC_PREFIX);
    if prefix.None? then Err(NotAnAssertion)
    else
      var asked := Expect(json, prefix.value, ChallengePart(challenge));
      if asked.None? then Err(ChallengeMismatch)
      else
        var asker := Expect(json, asked.value, origin);
        if asker.None? then Err(OriginMismatch)
        else
          var party := Expect(json, asker.value, SPC_RP_ID_KEY);
          if party.None? then Err(Malformed) else Ok(party.value)
  }

  /** What the browser showed, from the end of the relying party on. */
  function CheckShown(json: string, pos: nat, origin: string, payment: Payment): Option<Error> {
    var top := Expect(json, pos, TopOriginPart(origin));
    if top.None? then Some(OriginMismatch)
    else
      var payee := Expect(json, top.value, PayeePart(payment.payee));
      if payee.None? then Some(PaymentMismatch)
      else
        var logos := Expect(json, payee.value, SPC_LOGOS);
        var total := Expect(json, if logos.Some? then logos.value else payee.value, TotalPart(payment.total));
        if total.None? then Some(PaymentMismatch) else None
  }

  /** The relying party a payment sheet names, when it shows exactly this payment for this challenge and origin. */
  function CheckPayment(json: string, challenge: Hash, origin: string, payment: Payment): Result<string, Error> {
    if |json| > MAX_CLIENT_DATA_LEN then Err(TooLong)
    else
      var head := CheckHead(json, challenge, origin);
      if head.Err? then Err(head.error)
      else
        var end := Stop(json, head.value);
        if end == |json| || json[end] == '\\' || end == head.value then Err(Malformed)
        else
          var refusal := CheckShown(json, end, origin, payment);
          if refusal.Some? then Err(refusal.value) else Ok(json[head.value..end])
  }

  function CheckAssertion(json: string, challenge: Hash, origin: string): Result<(), Error> {
    if |json| > MAX_CLIENT_DATA_LEN then Err(TooLong)
    else
      var prefix := Expect(json, 0, TYPE_AND_CHALLENGE_KEY);
      if prefix.None? then Err(NotAnAssertion)
      else
        var asked := Expect(json, prefix.value, ChallengePart(challenge));
        if asked.None? then Err(ChallengeMismatch)
        else
          var asker := Expect(json, asked.value, origin + "\"");
          if asker.None? then Err(OriginMismatch)
          else if asker.value >= |json| then Err(Malformed)
          else if json[asker.value] == '}' then Ok(())
          else if json[asker.value] == ',' then
            if Expect(json, asker.value, CROSS_ORIGIN_TRUE).Some? then Err(CrossOrigin) else Ok(())
          else Err(Malformed)
  }

  // ---------------------------------------------------------------------------------------------------------------
  // The checks as they run: a cursor that moves over the bytes.

  method ExpectAt(json: string, pos: nat, token: string) returns (ok: bool, next: nat)
    ensures Expect(json, pos, token) == if ok then Some(next) else None
  {
    var end := pos + |token|;
    if end > |json| || json[pos..end] != token { return false, pos; }
    return true, end;
  }

  lemma ExpectBoth(json: string, pos: nat, a: string, b: string)
    ensures Expect(json, pos, a + b)
            == if Expect(json, pos, a).None? then None else Expect(json, Expect(json, pos, a).value, b)
  {
    var mid, end := pos + |a|, pos + |a| + |b|;
    if end <= |json| {
      var slice := json[pos..end];
      assert slice[..|a|] == json[pos..mid] && slice[|a|..] == json[mid..end];
      assert (a + b)[..|a|] == a && (a + b)[|a|..] == b;
      assert slice == slice[..|a|] + slice[|a|..];
    }
  }

  method ExpectTwo(json: string, pos: nat, a: string, b: string) returns (ok: bool, next: nat)
    ensures Expect(json, pos, a + b) == if ok then Some(next) else None
  {
    ExpectBoth(json, pos, a, b);
    ok, next := ExpectAt(json, pos, a);
    if ok {
      ok, next := ExpectAt(json, next, b);
    }
  }

  /** Where the relying party's name ends: at a quote, with no backslash before it. */
  method ScanParty(json: string, start: nat) returns (r: Option<nat>)
    requires start <= |json|
    ensures var end := Stop(json, start);
            r == if end == |json| || json[end] == '\\' || end == start then None else Some(end)
  {
    var pos := start;
    while pos < |json| && json[pos] != '"'
      invariant start <= pos <= |json| && Stop(json, start) == Stop(json, pos)
    {
      if json[pos] == '\\' { return None; }
      pos := pos + 1;
    }
    return if pos == |json| || pos == start then None else Some(pos);
  }

  method VerifyPayment(json: string, challenge: Hash, origin: string, payment: Payment) returns (r: Result<string, Error>)
    ensures r == CheckPayment(json, challenge, origin, payment)
  {
    hide Expect, Stop, CheckShown;
    if |json| > MAX_CLIENT_DATA_LEN { return Err(TooLong); }
    var ok, pos := ExpectAt(json, 0, SPC_PREFIX);
    if !ok { return Err(NotAnAssertion); }
    ok, pos := ExpectTwo(json, pos, Base64Url.UrlEncoded(challenge), ORIGIN_KEY);
    if !ok { return Err(ChallengeMismatch); }
    ok, pos := ExpectAt(json, pos, origin);
    if !ok { return Err(OriginMismatch); }
    ok, pos := ExpectAt(json, pos, SPC_RP_ID_KEY);
    if !ok { return Err(Malformed); }
    var end := ScanParty(json, pos);
    if end.None? { return Err(Malformed); }
    var rpId := json[pos..end.value];
    var refusal := VerifyShown(json, end.value, origin, payment);
    r := if refusal.Some? then Err(refusal.value) else Ok(rpId);
  }

  method VerifyShown(json: string, start: nat, origin: string, payment: Payment) returns (r: Option<Error>)
    ensures r == CheckShown(json, start, origin, payment)
  {
    hide Expect, PayeeText, TotalText;
    var ok, pos := ExpectTwo(json, start, SPC_TOP_ORIGIN_KEY, origin);
    if !ok { return Some(OriginMismatch); }
    var name := PayeeName(payment.payee);
    ok, pos := ExpectThree(json, pos, SPC_PAYEE_NAME_KEY, name[..], SPC_AFTER_PAYEE);
    if !ok { return Some(PaymentMismatch); }
    var logos, next := ExpectAt(json, pos, SPC_LOGOS);
    if logos {
      pos := next;
    }
    var total, len := FormatTotal(payment.total);
    ok, pos := ExpectThree(json, pos, SPC_TOTAL_KEY, total[..len], SPC_CURRENCY_AND_INSTRUMENT);
    return if ok then None else Some(PaymentMismatch);
  }

  method ExpectThree(json: string, pos: nat, a: string, b: string, c: string) returns (ok: bool, next: nat)
    ensures Expect(json, pos, a + b + c) == if ok then Some(next) else None
  {
    ExpectBoth(json, pos, a + b, c);
    ok, next := ExpectTwo(json, pos, a, b);
    if ok {
      ok, next := ExpectAt(json, next, c);
    }
  }

  method Verify(json: string, challenge: Hash, origin: string) returns (r: Result<(), Error>)
    ensures r == CheckAssertion(json, challenge, origin)
  {
    if |json| > MAX_CLIENT_DATA_LEN { return Err(TooLong); }
    var ok, pos := ExpectAt(json, 0, TYPE_AND_CHALLENGE_KEY);
    if !ok { return Err(NotAnAssertion); }
    ok, pos := ExpectTwo(json, pos, Base64Url.UrlEncoded(challenge), ORIGIN_KEY);
    if !ok { return Err(ChallengeMismatch); }
    ok, pos := ExpectTwo(json, pos, origin, "\"");
    if !ok { return Err(OriginMismatch); }
    if pos >= |json| { return Err(Malformed); }
    if json[pos] == '}' { return Ok(()); }
    if json[pos] == ',' {
      var crossed, _ := ExpectAt(json, pos, CROSS_ORIGIN_TRUE);
      return if crossed then Err(CrossOrigin) else Ok(());
    }
    return Err(Malformed);
  }

  // ---------------------------------------------------------------------------------------------------------------
  // What accepted bytes say.

  lemma ExpectStarts(json: string, text: string, token: string)
    requires text <= json
    ensures Expect(json, |text|, token).Some? <==> text + token <= json
  {
    if |text| + |token| <= |json| {
      assert json[..|text| + |token|] == json[..|text|] + json[|text|..|text| + |token|];
      assert (text + token)[|text|..] == token;
    }
  }

  /** All that comes before the relying party. */
  function HeadText(challenge: Hash, origin: string): string {
    "{\"type\":\"payment.get\",\"challenge\":\"" + Base64Url.UrlEncoded(challenge) + "\",\"origin\":\"" + origin
    + "\",\"crossOrigin\":false,\"payment\":{\"rpId\":\""
  }

  lemma PrefixOfPrefix(json: string, a: string, b: string)
    ensures a + b <= json ==> a <= json
  {
    assert (a + b)[..|a|] == a;
  }

  lemma ExpectNext(json: string, text: string, token: string)
    ensures text <= json && Expect(json, |text|, token).Some? <==> text + token <= json
  {
    PrefixOfPrefix(json, text, token);
    if text <= json {
      ExpectStarts(json, text, token);
    }
  }

  lemma HeadParts(challenge: Hash, origin: string)
    ensures HeadText(challenge, origin) == SPC_PREFIX + ChallengePart(challenge) + origin + SPC_RP_ID_KEY
  {
    hide Base64Url.UrlEncoded;
  }

  lemma FourTokens(json: string, a: string, b: string, c: string, d: string)
    ensures && Expect(json, 0, a).Some? && Expect(json, |a|, b).Some? && Expect(json, |a| + |b|, c).Some?
            && Expect(json, |a| + |b| + |c|, d).Some?
            <==> a + b + c + d <= json
  {
    hide Expect;
    assert "" + a == a;
    ExpectNext(json, "", a);
    ExpectNext(json, a, b);
    ExpectNext(json, a + b, c);
    ExpectNext(json, a + b + c, d);
  }

  lemma HeadStarts(json: string, challenge: Hash, origin: string)
    ensures CheckHead(json, challenge, origin).Ok? <==> HeadText(challenge, origin) <= json
    ensures CheckHead(json, challenge, origin).Ok? ==> CheckHead(json, challenge, origin).value == |HeadText(challenge, origin)|
  {
    HeadParts(challenge, origin);
    hide Expect, ChallengePart, HeadText;
    FourTokens(json, SPC_PREFIX, ChallengePart(challenge), origin, SPC_RP_ID_KEY);
  }

  /** What the sheet showed, after the relying party. */
  function ShownText(origin: string, logos: string, payment: Payment): string {
    "\",\"topOrigin\":\"" + origin + "\",\"payeeName\":\"" + PayeeText(payment.payee) + "\"," + logos
    + "\"total\":{\"value\":\"" + TotalText(payment.total) + "\",\"currency\":\"USD\"},\"instrument\":{"
  }

  lemma ThreeTokens(json: string, text: string, a: string, b: string, c: string, d: string)
    requires text <= json
    ensures && Expect(json, |text|, a).Some? && Expect(json, |text| + |a|, b).Some? && Expect(json, |text| + |a| + |b|, c).Some?
            && Expect(json, |text| + |a| + |b| + |c|, d).Some?
            <==> text + (a + b + c + d) <= json
  {
    hide Expect;
    assert text + (a + b + c + d) == text + a + b + c + d;
    ExpectNext(json, text, a);
    ExpectNext(json, text + a, b);
    ExpectNext(json, text + a + b, c);
    ExpectNext(json, text + a + b + c, d);
  }

  lemma ShownParts(origin: string, payment: Payment)
    ensures forall logos :: ShownText(origin, logos, payment)
              == TopOriginPart(origin) + PayeePart(payment.payee) + logos + TotalPart(payment.total)
  {
    hide PayeeText, TotalText;
    forall logos
      ensures ShownText(origin, logos, payment) == TopOriginPart(origin) + PayeePart(payment.payee) + logos + TotalPart(payment.total)
    {
    }
  }

  /** The list of logos may be there or not; the total's key cannot be taken for it. */
  lemma ShownStarts(json: string, text: string, origin: string, payment: Payment)
    requires text <= json
    ensures CheckShown(json, |text|, origin, payment).None? <==>
            text + ShownText(origin, "", payment) <= json || text + ShownText(origin, SPC_LOGOS, payment) <= json
  {
    ShownParts(origin, payment);
    hide Expect, TopOriginPart, PayeePart, TotalPart, ShownText;
    var a, b, d := TopOriginPart(origin), PayeePart(payment.payee), TotalPart(payment.total);
    ThreeTokens(json, text, a, b, SPC_LOGOS, d);
    ThreeTokens(json, text, a, b, "", d);
    NothingStands(json, |text| + |a| + |b|);
    LogosAreNoTotal(json, |text| + |a| + |b|, payment.total);
  }

  lemma NothingStands(json: string, pos: nat)
    ensures Expect(json, pos, "").Some? <==> pos <= |json|
  {
  }

  lemma LogosAreNoTotal(json: string, pos: nat, total: nat)
    ensures Expect(json, pos, SPC_LOGOS).Some? ==> Expect(json, pos, TotalPart(total)).None?
  {
    hide TotalText;
    if pos + 2 <= |json| {
      assert Expect(json, pos, SPC_LOGOS).Some? ==> json[pos..pos + |SPC_LOGOS|][1] == 'p';
      assert TotalPart(total)[1] == 't';
      assert Expect(json, pos, TotalPart(total)).Some? ==> json[pos..pos + |TotalPart(total)|][1] == 't';
    }
  }

  predicate IsParty(rpId: string) {
    rpId != "" && '"' !in rpId && '\\' !in rpId
  }

  /** A payment sheet's client data, up to what the browser may add. */
  function SheetText(challenge: Hash, origin: string, rpId: string, logos: string, payment: Payment): string {
    HeadText(challenge, origin) + rpId + ShownText(origin, logos, payment)
  }

  lemma StopIs(json: string, pos: nat, end: nat)
    requires pos <= end < |json| && (json[end] == '"' || json[end] == '\\')
    requires forall k :: pos <= k < end ==> json[k] != '"' && json[k] != '\\'
    ensures Stop(json, pos) == end
  {
  }

  lemma ShownStartsWithAQuote(origin: string, logos: string, payment: Payment)
    ensures ShownText(origin, logos, payment) != "" && ShownText(origin, logos, payment)[0] == '"'
  {
    hide PayeePart, TotalPart;
  }

  lemma AcceptedReads(json: string, challenge: Hash, origin: string, payment: Payment)
    requires CheckPayment(json, challenge, origin, payment).Ok?
    ensures var rpId := CheckPayment(json, challenge, origin, payment).value;
            && |json| <= MAX_CLIENT_DATA_LEN && IsParty(rpId)
            && (SheetText(challenge, origin, rpId, "", payment) <= json || SheetText(challenge, origin, rpId, SPC_LOGOS, payment) <= json)
  {
    hide CheckHead, CheckShown, HeadText, ShownText;
    HeadStarts(json, challenge, origin);
    var head := HeadText(challenge, origin);
    var end := Stop(json, |head|);
    var rpId := json[|head|..end];
    assert json[..end] == head + rpId;
    ShownStarts(json, head + rpId, origin, payment);
  }

  lemma ReadsAreAccepted(json: string, challenge: Hash, origin: string, rpId: string, logos: string, payment: Payment)
    requires |json| <= MAX_CLIENT_DATA_LEN && IsParty(rpId) && (logos == "" || logos == SPC_LOGOS)
    requires SheetText(challenge, origin, rpId, logos, payment) <= json
    ensures CheckPayment(json, challenge, origin, payment) == Ok(rpId)
  {
    hide CheckHead, CheckShown, HeadText, ShownText;
    var head, shown := HeadText(challenge, origin), ShownText(origin, logos, payment);
    PrefixOfPrefix(json, head + rpId, shown);
    PrefixOfPrefix(json, head, rpId);
    HeadStarts(json, challenge, origin);
    ShownStarts(json, head + rpId, origin, payment);
    ShownStartsWithAQuote(origin, logos, payment);
    var text := head + rpId + shown;
    assert forall k :: |head| <= k < |head| + |rpId| ==> json[k] == text[k] && text[k] == rpId[k - |head|];
    assert json[|head| + |rpId|] == text[|head| + |rpId|] == shown[0];
    StopIs(json, |head|, |head| + |rpId|);
    assert json[|head|..|head| + |rpId|] == rpId;
  }

  /**
   * Client data passes for a payment, with this relying party, exactly when it is short enough and starts as a payment sheet
   * that shows this challenge, origin, party, payee and total, with or without the list of logos.
   */
  lemma SheetIsExact(json: string, challenge: Hash, origin: string, payment: Payment, rpId: string)
    ensures CheckPayment(json, challenge, origin, payment) == Ok(rpId) <==>
            && |json| <= MAX_CLIENT_DATA_LEN && IsParty(rpId)
            && (SheetText(challenge, origin, rpId, "", payment) <= json || SheetText(challenge, origin, rpId, SPC_LOGOS, payment) <= json)
  {
    hide CheckPayment, SheetText, IsParty;
    if CheckPayment(json, challenge, origin, payment) == Ok(rpId) {
      AcceptedReads(json, challenge, origin, payment);
    } else if |json| <= MAX_CLIENT_DATA_LEN && IsParty(rpId) {
      if SheetText(challenge, origin, rpId, "", payment) <= json {
        ReadsAreAccepted(json, challenge, origin, rpId, "", payment);
      } else if SheetText(challenge, origin, rpId, SPC_LOGOS, payment) <= json {
        ReadsAreAccepted(json, challenge, origin, rpId, SPC_LOGOS, payment);
      }
    }
  }

  lemma SameLength(json: string, pos: nat, a: string, b: string)
    requires Expect(json, pos, a).Some? && Expect(json, pos, b).Some? && |a| == |b|
    ensures a == b
  {
  }

  /** The challenge's text always has 43 characters. */
  lemma ChallengeLength(challenge: Hash)
    ensures |Base64Url.UrlEncoded(challenge)| == 43
  {
    Base64Url.UrlEncodedIsUrlDigits(challenge);
    Base64Url.DigitsLength(challenge);
    Base64Url.CountOf32();
  }

  lemma SameChallenge(json: string, pos: nat, c: Hash, d: Hash)
    requires Expect(json, pos, ChallengePart(c)).Some? && Expect(json, pos, ChallengePart(d)).Some?
    ensures c == d
  {
    hide Expect, Base64Url.UrlEncoded;
    ChallengeLength(c);
    ChallengeLength(d);
    SameLength(json, pos, ChallengePart(c), ChallengePart(d));
    assert ChallengePart(c)[..43] == Base64Url.UrlEncoded(c) && ChallengePart(d)[..43] == Base64Url.UrlEncoded(d);
    Base64Url.EncodeIsInjective(c, d);
  }

  lemma SamePayee(json: string, pos: nat, a: Payee, b: Payee)
    requires Expect(json, pos, PayeePart(a)).Some? && Expect(json, pos, PayeePart(b)).Some?
    ensures a == b
  {
    hide Expect, PayeeText;
    SameLength(json, pos, PayeePart(a), PayeePart(b));
    var n := |SPC_PAYEE_NAME_KEY|;
    assert PayeePart(a)[n..n + 42] == PayeeText(a) && PayeePart(b)[n..n + 42] == PayeeText(b);
    PayeeTextIsInjective(a, b);
  }

  /** A total ends at the next quote, so no other total can stand in its place. */
  lemma QuoteEnds(json: string, pos: nat, a: string, b: string, rest: string)
    requires '"' !in a && '"' !in b && rest != "" && rest[0] == '"'
    requires Expect(json, pos, a + rest).Some? && Expect(json, pos, b + rest).Some?
    ensures a == b
  {
    var x, y, s := a + rest, b + rest, json[pos..];
    assert s[..|x|] == x && s[..|y|] == y;
    assert s[|a|] == x[|a|] == '"' && s[|b|] == y[|b|] == '"';
    assert forall k :: 0 <= k < |a| ==> s[k] == x[k] && x[k] == a[k] && a[k] in a;
    assert forall k :: 0 <= k < |b| ==> s[k] == y[k] && y[k] == b[k] && b[k] in b;
    assert |a| == |b|;
    assert a == x[..|a|] && b == y[..|b|];
  }

  lemma SameTotal(json: string, pos: nat, u: nat, v: nat)
    requires Expect(json, pos, TotalPart(u)).Some? && Expect(json, pos, TotalPart(v)).Some?
    ensures u == v
  {
    hide Expect, TotalText;
    var key, rest := SPC_TOTAL_KEY, SPC_CURRENCY_AND_INSTRUMENT;
    assert TotalPart(u) == key + (TotalText(u) + rest) && TotalPart(v) == key + (TotalText(v) + rest);
    ExpectBoth(json, pos, key, TotalText(u) + rest);
    ExpectBoth(json, pos, key, TotalText(v) + rest);
    TotalHasNoQuote(u);
    TotalHasNoQuote(v);
    QuoteEnds(json, Expect(json, pos, key).value, TotalText(u), TotalText(v), rest);
    TotalTextIsInjective(u, v);
  }

  /** The same signed bytes pass for one challenge and one payment only. */
  lemma SheetAuthorizesOnce(json: string, origin: string, c: Hash, p: Payment, d: Hash, q: Payment)
    requires CheckPayment(json, c, origin, p).Ok? && CheckPayment(json, d, origin, q).Ok?
    ensures c == d && p == q
  {
    hide Expect, ChallengePart, TopOriginPart, PayeePart, TotalPart;
    SameChallenge(json, |SPC_PREFIX|, c, d);
    var head := CheckHead(json, c, origin).value;
    var end := Stop(json, head);
    var top := Expect(json, end, TopOriginPart(origin)).value;
    SamePayee(json, top, p.payee, q.payee);
    var payee := Expect(json, top, PayeePart(p.payee)).value;
    var logos := Expect(json, payee, SPC_LOGOS);
    SameTotal(json, if logos.Some? then logos.value else payee, p.total, q.total);
  }

  /** An assertion passes for one challenge and one origin only, even where one origin's name starts with another's. */
  lemma AssertionAuthorizesOnce(json: string, c: Hash, o: string, d: Hash, u: string)
    requires CheckAssertion(json, c, o).Ok? && CheckAssertion(json, d, u).Ok? && '"' !in o && '"' !in u
    ensures c == d && o == u
  {
    hide Expect, ChallengePart;
    var pos := |TYPE_AND_CHALLENGE_KEY|;
    SameChallenge(json, pos, c, d);
    QuoteEnds(json, pos + |ChallengePart(c)|, o, u, "\"");
  }

  /** What was signed for one kind of client data never passes as the other. */
  lemma KindsNeverMix(json: string, c: Hash, o: string, d: Hash, u: string, payment: Payment)
    requires CheckAssertion(json, c, o).Ok?
    ensures CheckPayment(json, d, u, payment) == Err(NotAnAssertion)
  {
    hide Expect, ChallengePart, CheckShown, Stop;
    DifferentAt(json, TYPE_AND_CHALLENGE_KEY, SPC_PREFIX, 9);
  }

  lemma DifferentAt(json: string, a: string, b: string, k: nat)
    requires k < |a| && k < |b| && a[k] != b[k] && Expect(json, 0, a).Some?
    ensures Expect(json, 0, b).None?
  {
    assert json[0..|a|][k] == json[k];
    assert |b| <= |json| ==> json[0..|b|][k] == json[k];
  }

  // ---------------------------------------------------------------------------------------------------------------
  // Which bytes pass, and why others do not.

  /** An assertion's client data for this challenge and origin, up to the quote after the origin. */
  function AssertionText(challenge: Hash, origin: string): string {
    "{\"type\":\"webauthn.get\",\"challenge\":\"" + Base64Url.UrlEncoded(challenge) + "\",\"origin\":\"" + origin + "\""
  }

  /** What may come next: the end, or more that does not say the request was cross-origin. */
  predicate MayFollow(rest: string) {
    rest != "" && (rest[0] == '}' || (rest[0] == ',' && !(",\"crossOrigin\":true" <= rest)))
  }

  lemma AssertionPrefixes(json: string, challenge: Hash, origin: string)
    ensures var text := TYPE_AND_CHALLENGE_KEY + ChallengePart(challenge);
            && AssertionText(challenge, origin) == text + (origin + "\"")
            && (Expect(json, 0, TYPE_AND_CHALLENGE_KEY).Some? <==> TYPE_AND_CHALLENGE_KEY <= json)
            && (TYPE_AND_CHALLENGE_KEY <= json ==> (Expect(json, |TYPE_AND_CHALLENGE_KEY|, ChallengePart(challenge)).Some? <==> text <= json))
            && (text <= json ==> (Expect(json, |text|, origin + "\"").Some? <==> AssertionText(challenge, origin) <= json))
  {
    var text := TYPE_AND_CHALLENGE_KEY + ChallengePart(challenge);
    assert "" + TYPE_AND_CHALLENGE_KEY == TYPE_AND_CHALLENGE_KEY;
    assert AssertionText(challenge, origin) == text + (origin + "\"");
    hide Expect, ChallengePart, AssertionText;
    ExpectNext(json, "", TYPE_AND_CHALLENGE_KEY);
    ExpectNext(json, TYPE_AND_CHALLENGE_KEY, ChallengePart(challenge));
    ExpectNext(json, text, origin + "\"");
  }

  lemma CrossOriginFollows(json: string, text: string)
    requires text <= json
    ensures Expect(json, |text|, CROSS_ORIGIN_TRUE).Some? <==> CROSS_ORIGIN_TRUE <= json[|text|..]
  {
    ExpectStarts(json, text, CROSS_ORIGIN_TRUE);
    assert json == text + json[|text|..];
    if CROSS_ORIGIN_TRUE <= json[|text|..] {
      assert json[..|text| + |CROSS_ORIGIN_TRUE|] == text + CROSS_ORIGIN_TRUE;
    }
  }

  /**
   * The answer to any bytes: an assertion passes exactly when it is short enough, is one, and is over this challenge, from
   * this origin and not cross-origin; the first of these that fails is the error.
   */
  lemma AssertionIsExact(json: string, challenge: Hash, origin: string)
    ensures var text := AssertionText(challenge, origin);
            var asked := "{\"type\":\"webauthn.get\",\"challenge\":\"";
            CheckAssertion(json, challenge, origin)
            == if |json| > 1024 then Err(TooLong)
               else if !(asked <= json) then Err(NotAnAssertion)
               else if !(asked + Base64Url.UrlEncoded(challenge) + "\",\"origin\":\"" <= json) then Err(ChallengeMismatch)
               else if !(text <= json) then Err(OriginMismatch)
               else if MayFollow(json[|text|..]) then Ok(())
               else if ",\"crossOrigin\":true" <= json[|text|..] then Err(CrossOrigin)
               else Err(Malformed)
  {
    var text := AssertionText(challenge, origin);
    AssertionPrefixes(json, challenge, origin);
    AskedParts(challenge, TYPE_AND_CHALLENGE_KEY);
    if text <= json {
      CrossOriginFollows(json, text);
    }
    hide AssertionText, ChallengePart, Base64Url.UrlEncoded;
  }

  /** A payment sheet's client data names this relying party, however it goes on. */
  predicate NamesParty(json: string, challenge: Hash, origin: string, rpId: string) {
    IsParty(rpId) && HeadText(challenge, origin) + rpId + "\"" <= json
  }

  /** Neither quote nor backslash from `a` up to `b`. */
  ghost predicate Plain(json: string, a: nat, b: nat)
    requires b <= |json|
  {
    forall k :: a <= k < b ==> json[k] != '"' && json[k] != '\\'
  }

  lemma StopEnds(json: string, pos: nat, end: nat)
    requires pos <= end < |json| && Plain(json, pos, end) && json[end] == '"'
    ensures Stop(json, pos) == end
  {
    StopIs(json, pos, end);
  }

  lemma StopFinds(json: string, pos: nat)
    requires pos <= |json|
    ensures Plain(json, pos, Stop(json, pos))
  {
  }

  lemma PartyIsPlain(json: string, a: nat, b: nat)
    requires a < b <= |json|
    ensures IsParty(json[a..b]) <==> Plain(json, a, b)
  {
    var named := json[a..b];
    forall k | a <= k < b ensures json[k] in named {
      assert named[k - a] == json[k];
    }
  }

  lemma Middle(s: string, a: string, b: string, c: string)
    requires a + b + c <= s
    ensures s[|a|..|a| + |b|] == b
  {
    assert s[..|a| + |b|] == (a + b + c)[..|a| + |b|] == a + b;
    assert s[|a|..|a| + |b|] == s[..|a| + |b|][|a|..];
  }

  lemma Cut(s: string, a: string, end: nat)
    requires a <= s && |a| <= end < |s|
    ensures s[..end + 1] == a + s[|a|..end] + [s[end]]
  {
    assert s[..end] == a + s[|a|..end];
    assert s[..end + 1] == s[..end] + [s[end]];
  }

  lemma NamedAt(json: string, head: string, rpId: string)
    requires IsParty(rpId) && head + rpId + "\"" <= json
    ensures var end := |head| + |rpId|;
            |head| < end < |json| && json[end] == '"' && json[|head|..end] == rpId && Plain(json, |head|, end)
  {
    hide IsParty, Plain;
    var end := |head| + |rpId|;
    Middle(json, head, rpId, "\"");
    assert json[end] == (head + rpId + "\"")[end];
    PartyNotEmpty(rpId);
    PartyIsPlain(json, |head|, end);
  }

  lemma PartyNotEmpty(rpId: string)
    requires IsParty(rpId)
    ensures |rpId| > 0
  {
  }

  lemma ReadAt(json: string, head: string, end: nat)
    requires head <= json && |head| < end < |json| && json[end] == '"' && Plain(json, |head|, end)
    ensures IsParty(json[|head|..end]) && head + json[|head|..end] + "\"" <= json
  {
    hide IsParty, Plain;
    PartyIsPlain(json, |head|, end);
    Cut(json, head, end);
  }

  lemma PartyIsRead(json: string, challenge: Hash, origin: string, rpId: string)
    requires HeadText(challenge, origin) <= json
    ensures var head := |HeadText(challenge, origin)|;
            var end := Stop(json, head);
            NamesParty(json, challenge, origin, rpId) <==>
            end < |json| && json[end] == '"' && end > head && rpId == json[head..end]
  {
    hide HeadText, Stop, IsParty, Plain;
    var head := HeadText(challenge, origin);
    var end := Stop(json, |head|);
    if NamesParty(json, challenge, origin, rpId) {
      NamedAt(json, head, rpId);
      StopEnds(json, |head|, |head| + |rpId|);
    }
    if |head| < end < |json| && json[end] == '"' {
      StopFinds(json, |head|);
      ReadAt(json, head, end);
    }
  }

  /** Why a payment sheet is refused, in order: each error exactly where the bytes first depart from the sheet that would pass. */
  lemma RefusalsAreExact(json: string, challenge: Hash, origin: string, payment: Payment)
    ensures var r := CheckPayment(json, challenge, origin, payment);
            var kind := "{\"type\":\"payment.get\",\"challenge\":\"";
            var asked := kind + Base64Url.UrlEncoded(challenge) + "\",\"origin\":\"";
            if |json| > 1024 then r == Err(TooLong)
            else if !(kind <= json) then r == Err(NotAnAssertion)
            else if !(asked <= json) then r == Err(ChallengeMismatch)
            else if !(asked + origin <= json) then r == Err(OriginMismatch)
            else if forall rpId :: !NamesParty(json, challenge, origin, rpId) then r == Err(Malformed)
            else
              forall rpId :: NamesParty(json, challenge, origin, rpId) ==>
                var top := HeadText(challenge, origin) + rpId + "\",\"topOrigin\":\"" + origin;
                if !(top <= json) then r == Err(OriginMismatch)
                else r == Ok(rpId) || r == Err(PaymentMismatch)
  {
    HeadErrors(json, challenge, origin);
    hide CheckHead, CheckShown, HeadText, Stop, NamesParty, Base64Url.UrlEncoded;
    var head := HeadText(challenge, origin);
    if |json| <= 1024 && head <= json {
      var end := Stop(json, |head|);
      var named := json[|head|..end];
      forall rpId
        ensures NamesParty(json, challenge, origin, rpId) <==>
                end < |json| && json[end] == '"' && end > |head| && rpId == named
      {
        PartyIsRead(json, challenge, origin, rpId);
      }
      if end < |json| && json[end] == '"' && end > |head| {
        assert NamesParty(json, challenge, origin, named);
        assert json[..end] == head + named;
        TopErrors(json, head + named, origin, payment);
      }
    } else if |json| <= 1024 {
      NoHeadNoParty(json, challenge, origin);
    }
  }

  lemma NoHeadNoParty(json: string, challenge: Hash, origin: string)
    requires !(HeadText(challenge, origin) <= json)
    ensures forall rpId :: !NamesParty(json, challenge, origin, rpId)
  {
    hide HeadText;
    var head := HeadText(challenge, origin);
    forall rpId ensures !NamesParty(json, challenge, origin, rpId) {
      PrefixOfPrefix(json, head, rpId + "\"");
      assert head + rpId + "\"" == head + (rpId + "\"");
    }
  }

  lemma AskedParts(challenge: Hash, kind: string)
    ensures kind + ChallengePart(challenge) == kind + Base64Url.UrlEncoded(challenge) + "\",\"origin\":\""
  {
    hide Base64Url.UrlEncoded;
  }

  lemma HeadErrors(json: string, challenge: Hash, origin: string)
    ensures var kind := "{\"type\":\"payment.get\",\"challenge\":\"";
            var asked := kind + Base64Url.UrlEncoded(challenge) + "\",\"origin\":\"";
            var head := HeadText(challenge, origin);
            CheckHead(json, challenge, origin)
            == if !(kind <= json) then Err(NotAnAssertion)
               else if !(asked <= json) then Err(ChallengeMismatch)
               else if !(asked + origin <= json) then Err(OriginMismatch)
               else if !(head <= json) then Err(Malformed)
               else Ok(|head|)
  {
    AskedParts(challenge, SPC_PREFIX);
    HeadParts(challenge, origin);
    hide Expect, ChallengePart, HeadText, Base64Url.UrlEncoded;
    FirstMissing(json, SPC_PREFIX, ChallengePart(challenge), origin, SPC_RP_ID_KEY);
  }

  lemma FirstMissing(json: string, a: string, b: string, c: string, d: string)
    ensures Expect(json, 0, a).Some? <==> a <= json
    ensures a <= json ==> (Expect(json, |a|, b).Some? <==> a + b <= json)
    ensures a + b <= json ==> (Expect(json, |a + b|, c).Some? <==> a + b + c <= json)
    ensures a + b + c <= json ==> (Expect(json, |a + b + c|, d).Some? <==> a + b + c + d <= json)
    ensures (a + b <= json ==> a <= json) && (a + b + c <= json ==> a + b <= json) && (a + b + c + d <= json ==> a + b + c <= json)
  {
    hide Expect;
    assert "" + a == a;
    ExpectNext(json, "", a);
    ExpectNext(json, a, b);
    ExpectNext(json, a + b, c);
    ExpectNext(json, a + b + c, d);
  }

  lemma TopErrors(json: string, text: string, origin: string, payment: Payment)
    requires text <= json
    ensures var refusal := CheckShown(json, |text|, origin, payment);
            if text + "\",\"topOrigin\":\"" + origin <= json then refusal.None? || refusal == Some(PaymentMismatch)
            else refusal == Some(OriginMismatch)
  {
    assert text + "\",\"topOrigin\":\"" + origin == text + TopOriginPart(origin);
    hide Expect, TopOriginPart;
    ExpectNext(json, text, TopOriginPart(origin));
  }
}
