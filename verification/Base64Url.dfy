/**
 * Unpadded base64url, section 5 of RFC 4648: the SDK's codec over the browser's btoa and atob (packages/sdk/src/bytes.ts)
 * and the contract's 32-byte encoder (contracts/stylus/core/src/base64url.rs).
 */
module Base64Url {
  import opened Primitives
  import opened Bytes

  const UPPER: string := "ABCDEFGHIJKLMNOPQRSTUVWXYZ"
  const LOWER: string := "abcdefghijklmnopqrstuvwxyz"
  const ALPHABET: string := UPPER + LOWER + "0123456789" + "-_"

  type sextet = n: nat | n < 64

  /** The standard base64 digit of six bits (section 4 of RFC 4648). */
  function Digit(n: sextet): char {
    if n < 26 then (65 + n) as char
    else if n < 52 then (71 + n) as char
    else if n < 62 then (n - 4) as char
    else if n == 62 then '+'
    else '/'
  }

  /** The six bits of a standard base64 digit. */
  function Bits(c: char): Option<sextet> {
    if 'A' <= c <= 'Z' then Some(c as int - 65)
    else if 'a' <= c <= 'z' then Some(c as int - 71)
    else if '0' <= c <= '9' then Some(c as int + 4)
    else if c == '+' then Some(62)
    else if c == '/' then Some(63)
    else None
  }

  /** The digits of `bytes`, without padding. */
  function Digits(bytes: seq<byte>): (s: string)
    ensures forall c <- s :: Bits(c).Some?
  {
    if |bytes| == 0 then ""
    else if |bytes| == 1 then [Digit(bytes[0] / 4), Digit(bytes[0] % 4 * 16)]
    else if |bytes| == 2 then
      [Digit(bytes[0] / 4), Digit(bytes[0] % 4 * 16 + bytes[1] / 16), Digit(bytes[1] % 16 * 4)]
    else Quad(bytes[0], bytes[1], bytes[2]) + Digits(bytes[3..])
  }

  function Quad(a: byte, b: byte, c: byte): (s: string)
    ensures |s| == 4
    ensures forall d <- s :: Bits(d).Some?
  {
    [Digit(a / 4), Digit(a % 4 * 16 + b / 16), Digit(b % 16 * 4 + c / 64), Digit(c % 64)]
  }

  /** The bytes of unpadded digits; bits past the last whole byte are dropped. */
  function FromDigits(s: string): (r: Option<seq<byte>>)
  {
    if |s| == 0 then Some([])
    else if |s| == 1 then None
    else if Bits(s[0]).None? || Bits(s[1]).None? then None
    else
      var a, b := Bits(s[0]).value, Bits(s[1]).value;
      if |s| == 2 then Some([a * 4 + b / 16])
      else if Bits(s[2]).None? then None
      else
        var c := Bits(s[2]).value;
        if |s| == 3 then Some([a * 4 + b / 16, b % 16 * 16 + c / 4])
        else if Bits(s[3]).None? then None
        else
          var rest := FromDigits(s[4..]);
          if rest.None? then None
          else Some([a * 4 + b / 16, b % 16 * 16 + c / 4, c % 4 * 64 + Bits(s[3]).value] + rest.value)
  }

  function DigitCount(n: nat): nat {
    if n == 0 then 0 else if n < 3 then n + 1 else 4 + DigitCount(n - 3)
  }

  function Padding(n: nat): string {
    if n == 0 then "" else if n == 1 then "==" else if n == 2 then "=" else Padding(n - 3)
  }

  /** btoa: padded standard base64. */
  function Btoa(bytes: seq<byte>): string {
    Digits(bytes) + Padding(|bytes|)
  }

  predicate IsSpace(c: char) {
    c == ' ' || c == '\t' || c == '\n' || c == '\r' || c == 12 as char
  }

  function WithoutSpaces(s: string): string {
    if s == "" then "" else (if IsSpace(s[0]) then "" else [s[0]]) + WithoutSpaces(s[1..])
  }

  /** The one or two padding characters at the end of whole groups of four, removed. */
  function Unpadded(t: string): string {
    if |t| % 4 == 0 && |t| >= 2 && t[|t| - 1] == '=' && t[|t| - 2] == '=' then t[..|t| - 2]
    else if |t| % 4 == 0 && |t| >= 1 && t[|t| - 1] == '=' then t[..|t| - 1]
    else t
  }

  /** atob: forgiving decoding, which skips spaces and accepts padding to a multiple of four. */
  function Atob(s: string): Option<seq<byte>> {
    FromDigits(Unpadded(WithoutSpaces(s)))
  }

  function Replace(s: string, target: char, replacement: char): (r: string)
    ensures |r| == |s| && forall i :: 0 <= i < |s| ==> r[i] == if s[i] == target then replacement else s[i]
  {
    if s == "" then "" else [if s[0] == target then replacement else s[0]] + Replace(s[1..], target, replacement)
  }

  /** `replace(/=+$/, "")`. */
  function WithoutPadding(s: string): string {
    if s != "" && s[|s| - 1] == '=' then WithoutPadding(s[..|s| - 1]) else s
  }

  function UrlEncoded(bytes: seq<byte>): string {
    WithoutPadding(Replace(Replace(Btoa(bytes), '+', '-'), '/', '_'))
  }

  function UrlDecoded(value: string): Option<seq<byte>> {
    Atob(Replace(Replace(value, '-', '+'), '_', '/') + "==="[(|value| + 3) % 4..])
  }

  /** What the browser's btoa sees: one character per byte. */
  method Base64UrlEncode(bytes: seq<byte>) returns (s: string)
    ensures s == UrlEncoded(bytes)
  {
    var binary: string := "";
    for i := 0 to |bytes|
      invariant |binary| == i && forall j :: 0 <= j < i ==> binary[j] == bytes[j] as char
    {
      binary := binary + [bytes[i] as char];
    }
    var octets: seq<byte> := seq(|binary|, i requires 0 <= i < |binary| => if binary[i] as int < 256 then binary[i] as int else 0);
    assert octets == bytes;
    s := WithoutPadding(Replace(Replace(Btoa(octets), '+', '-'), '/', '_'));
  }

  method Base64UrlDecode(value: string) returns (r: Option<seq<byte>>)
    ensures r == UrlDecoded(value)
  {
    hide Atob, Replace;
    var base64 := Replace(Replace(value, '-', '+'), '_', '/') + "==="[(|value| + 3) % 4..];
    var binary := Atob(base64);
    if binary.None? {
      return None;
    }
    var out := new byte[|binary.value|](_ => 0);
    for i := 0 to |binary.value|
      invariant out[..i] == binary.value[..i]
    {
      out[i] := binary.value[i];
    }
    assert out[..] == binary.value;
    return Some(out[..]);
  }

  lemma DigitRoundTrip(n: sextet)
    ensures Bits(Digit(n)) == Some(n)
  {
  }

  /** Six-bit digits merge back to the bytes they were cut from. */
  lemma Merge(a: byte, b: byte, c: byte)
    ensures a / 4 * 4 + (a % 4 * 16 + b / 16) / 16 == a
    ensures (a % 4 * 16 + b / 16) % 16 * 16 + (b % 16 * 4 + c / 64) / 4 == b
    ensures (b % 16 * 4 + c / 64) % 4 * 64 + c % 64 == c
  {
  }

  lemma OneByteTail(a: byte)
    ensures FromDigits([Digit(a / 4), Digit(a % 4 * 16)]) == Some([a])
  {
    DigitRoundTrip(a / 4);
    DigitRoundTrip(a % 4 * 16);
    Merge(a, 0, 0);
  }

  lemma TwoByteTail(a: byte, b: byte)
    ensures FromDigits([Digit(a / 4), Digit(a % 4 * 16 + b / 16), Digit(b % 16 * 4)]) == Some([a, b])
  {
    DigitRoundTrip(a / 4);
    DigitRoundTrip(a % 4 * 16 + b / 16);
    DigitRoundTrip(b % 16 * 4);
    Merge(a, b, 0);
  }

  /** Reading the digits of any bytes gives the bytes back. */
  lemma {:induction false} DigitsRoundTrip(bytes: seq<byte>)
    ensures FromDigits(Digits(bytes)) == Some(bytes)
  {
    hide Quad, Digit, Bits;
    if |bytes| == 1 {
      OneByteTail(bytes[0]);
      assert bytes == [bytes[0]];
    } else if |bytes| == 2 {
      TwoByteTail(bytes[0], bytes[1]);
      assert bytes == [bytes[0], bytes[1]];
    } else if bytes != [] {
      DigitsRoundTrip(bytes[3..]);
      var s := Digits(bytes);
      FirstQuad(s, bytes[0], bytes[1], bytes[2], bytes[3..]);
      assert s[4..] == Digits(bytes[3..]);
      assert s[..4] == Quad(bytes[0], bytes[1], bytes[2]);
      assert bytes == [bytes[0], bytes[1], bytes[2]] + bytes[3..];
    }
  }

  lemma FourDigits(s: string, w: sextet, x: sextet, y: sextet, z: sextet, rest: seq<byte>)
    requires |s| >= 4 && s[0] == Digit(w) && s[1] == Digit(x) && s[2] == Digit(y) && s[3] == Digit(z)
    requires FromDigits(s[4..]) == Some(rest)
    ensures FromDigits(s) == Some([w * 4 + x / 16, x % 16 * 16 + y / 4, y % 4 * 64 + z] + rest)
  {
    DigitRoundTrip(w);
    DigitRoundTrip(x);
    DigitRoundTrip(y);
    DigitRoundTrip(z);
    hide Digit, Bits;
  }

  lemma FirstQuad(s: string, a: byte, b: byte, c: byte, rest: seq<byte>)
    requires |s| >= 4 && s[..4] == Quad(a, b, c) && FromDigits(s[4..]) == Some(rest)
    ensures FromDigits(s) == Some([a, b, c] + rest)
  {
    hide FromDigits, Digit;
    Merge(a, b, c);
    assert s[0] == s[..4][0] && s[1] == s[..4][1] && s[2] == s[..4][2] && s[3] == s[..4][3];
    FourDigits(s, a / 4, a % 4 * 16 + b / 16, b % 16 * 4 + c / 64, c % 64, rest);
  }

  lemma {:induction false} DigitsHaveNoSpaces(s: string)
    requires forall c <- s :: Bits(c).Some? || c == '='
    ensures WithoutSpaces(s) == s
  {
    if s != "" {
      DigitsHaveNoSpaces(s[1..]);
      assert s[0] in s;
      assert s == [s[0]] + s[1..];
    }
  }

  lemma {:induction false} DigitsLength(bytes: seq<byte>)
    ensures |Digits(bytes)| == DigitCount(|bytes|)
  {
    if |bytes| >= 3 {
      DigitsLength(bytes[3..]);
    }
  }

  lemma CountOf32()
    ensures DigitCount(32) == 43
  {
    assert DigitCount(11) == 15;
    assert DigitCount(23) == 31;
  }

  /** Digits and padding together fill whole groups of four. */
  lemma {:induction false} PaddingFills(n: nat)
    ensures Padding(n) == "" || Padding(n) == "=" || Padding(n) == "=="
    ensures (DigitCount(n) + |Padding(n)|) % 4 == 0
    ensures n > 0 ==> DigitCount(n) >= 2
  {
    if n >= 3 {
      PaddingFills(n - 3);
    }
  }

  lemma Mod4(d: nat, p: nat)
    requires p <= 3 && (d + p) % 4 == 0
    ensures (d + 3) % 4 == 3 - p
  {
    var q := (d + p) / 4;
    assert d + 3 == 4 * q + (3 - p);
  }

  lemma PaddingTail(p: nat)
    requires p <= 2
    ensures "==="[3 - p..] == if p == 0 then "" else if p == 1 then "=" else "=="
  {
  }

  /** The decoder works the padding out from the length alone. */
  lemma PaddingFromLength(n: nat)
    ensures "==="[(DigitCount(n) + 3) % 4..] == Padding(n)
  {
    hide DigitCount, Padding;
    PaddingFills(n);
    Mod4(DigitCount(n), |Padding(n)|);
    PaddingTail(|Padding(n)|);
  }

  /** Stripping the padding of digits leaves the digits. */
  lemma PaddingStripped(s: string, n: nat)
    requires '=' !in s
    ensures WithoutPadding(s + Padding(n)) == s
  {
    PaddingFills(n);
    assert s != "" ==> s[|s| - 1] in s;
    assert WithoutPadding(s) == s;
    assert (s + "=")[..|s|] == s;
    assert WithoutPadding(s + "=") == s;
    assert (s + "==")[..|s| + 1] == s + "=";
    assert s + "" == s;
  }

  lemma UnpaddedStrips(s: string, pad: string)
    requires '=' !in s && (pad == "" || pad == "=" || pad == "==") && (|s| + |pad|) % 4 == 0
    ensures Unpadded(s + pad) == s
  {
    var t := s + pad;
    assert t[..|s|] == s;
    assert s != "" ==> s[|s| - 1] in s && t[|s| - 1] == s[|s| - 1];
    if pad == "" {
      assert t == s;
    } else if pad == "=" {
      assert t[|t| - 1] == '=';
    } else {
      assert t[|t| - 1] == '=' && t[|t| - 2] == '=';
    }
  }

  /** Padding to a multiple of four is what `Atob` strips. */
  lemma AtobStripsPadding(s: string, n: nat)
    requires forall c <- s :: Bits(c).Some?
    requires |s| == DigitCount(n)
    ensures Atob(s + Padding(n)) == FromDigits(s)
  {
    hide FromDigits, DigitCount, WithoutSpaces, Unpadded, Padding;
    PaddingFills(n);
    DigitsHaveNoSpaces(s + Padding(n));
    UnpaddedStrips(s, Padding(n));
  }

  /** The URL-safe digits of `bytes`. */
  function UrlDigits(bytes: seq<byte>): string {
    Replace(Replace(Digits(bytes), '+', '-'), '/', '_')
  }

  /** Digits hold only digits, so the URL-safe replacement can be undone. */
  lemma ReplaceUndone(s: string)
    requires forall c <- s :: Bits(c).Some?
    ensures var value := Replace(Replace(s, '+', '-'), '/', '_');
            Replace(Replace(value, '-', '+'), '_', '/') == s && '=' !in value
  {
    assert forall i :: 0 <= i < |s| ==> s[i] in s;
  }

  lemma ReplaceConcat(s: string, t: string, target: char, replacement: char)
    ensures Replace(s + t, target, replacement) == Replace(s, target, replacement) + Replace(t, target, replacement)
  {
  }

  lemma UrlEncodedIsUrlDigits(bytes: seq<byte>)
    ensures UrlEncoded(bytes) == UrlDigits(bytes)
  {
    hide Digits;
    var s, pad := Digits(bytes), Padding(|bytes|);
    UrlDigitsConcat(s, pad);
    PaddingFills(|bytes|);
    assert Replace(pad, '+', '-') == pad && Replace(pad, '/', '_') == pad;
    ReplaceUndone(s);
    PaddingStripped(UrlDigits(bytes), |bytes|);
  }

  /** Decoding inverts encoding, for byte strings of every length. */
  lemma DecodeInvertsEncode(bytes: seq<byte>)
    ensures UrlDecoded(UrlEncoded(bytes)) == Some(bytes)
  {
    UrlEncodedIsUrlDigits(bytes);
    ReplaceUndone(Digits(bytes));
    DigitsLength(bytes);
    PaddingFromLength(|bytes|);
    AtobStripsPadding(Digits(bytes), |bytes|);
    DigitsRoundTrip(bytes);
  }

  /** Different byte strings have different encodings, and none contains padding. */
  lemma EncodeIsInjective(a: seq<byte>, b: seq<byte>)
    requires UrlEncoded(a) == UrlEncoded(b)
    ensures a == b
  {
    DecodeInvertsEncode(a);
    DecodeInvertsEncode(b);
  }

  // ---------------------------------------------------------------------------------------------------------------
  // The contract's encoder.

  function UrlDigit(n: sextet): char {
    if n == 62 then '-' else if n == 63 then '_' else Digit(n)
  }

  /** The contract's table. */
  function Table(n: sextet): char {
    ALPHABET[n]
  }

  lemma AlphabetDigit(n: sextet)
    ensures Table(n) == UrlDigit(n)
  {
    if n < 26 {
      assert n in {0, 1, 2, 3, 4, 5, 6, 7, 8, 9, 10, 11, 12, 13, 14, 15, 16, 17, 18, 19, 20, 21, 22, 23, 24, 25};
      assert UPPER[n] == Digit(n);
    } else if n < 52 {
      var m := n - 26;
      assert m in {0, 1, 2, 3, 4, 5, 6, 7, 8, 9, 10, 11, 12, 13, 14, 15, 16, 17, 18, 19, 20, 21, 22, 23, 24, 25};
      assert LOWER[m] == Digit(n);
    }
  }

  /** The contract's table holds the URL-safe digits. */
  lemma UrlQuad(a: byte, b: byte, c: byte)
    ensures Replace(Replace(Quad(a, b, c), '+', '-'), '/', '_')
            == [Table(a / 4), Table(a % 4 * 16 + b / 16), Table(b % 16 * 4 + c / 64), Table(c % 64)]
  {
    hide Digit, Table, Replace;
    UrlFour(a / 4, a % 4 * 16 + b / 16, b % 16 * 4 + c / 64, c % 64);
  }

  lemma UrlFour(w: sextet, x: sextet, y: sextet, z: sextet)
    ensures Replace(Replace([Digit(w), Digit(x), Digit(y), Digit(z)], '+', '-'), '/', '_') == [Table(w), Table(x), Table(y), Table(z)]
  {
    AlphabetDigit(w);
    AlphabetDigit(x);
    AlphabetDigit(y);
    AlphabetDigit(z);
    hide Table;
  }

  lemma {:induction false} DigitsConcat(a: seq<byte>, b: seq<byte>)
    requires |a| % 3 == 0
    ensures Digits(a + b) == Digits(a) + Digits(b)
  {
    hide Quad, Digit;
    if a == [] {
      assert a + b == b;
    } else {
      DigitsConcat(a[3..], b);
      assert (a + b)[3..] == a[3..] + b;
      assert Digits(a + b) == Quad(a[0], a[1], a[2]) + Digits((a + b)[3..]);
    }
  }

  lemma UrlDigitsStep(input: seq<byte>, i: nat)
    requires i % 3 == 0 && i + 3 <= |input|
    ensures UrlDigits(input[..i + 3])
            == UrlDigits(input[..i]) + Replace(Replace(Quad(input[i], input[i + 1], input[i + 2]), '+', '-'), '/', '_')
  {
    hide Quad, Digit;
    var head, three := input[..i], input[i..i + 3];
    assert input[..i + 3] == head + three;
    DigitsConcat(head, three);
    assert Digits(three) == Quad(input[i], input[i + 1], input[i + 2]);
    UrlDigitsConcat(Digits(head), Digits(three));
  }

  lemma UrlDigitsEnd(input: seq<byte>)
    requires |input| == 32
    ensures UrlDigits(input)
            == UrlDigits(input[..30]) + [Table(input[30] / 4), Table(input[30] % 4 * 16 + input[31] / 16), Table(input[31] % 16 * 4)]
  {
    hide Quad, Digit, Digits, Replace;
    var head, tail := input[..30], input[30..];
    assert input == head + tail;
    DigitsConcat(head, tail);
    UrlDigitsConcat(Digits(head), Digits(tail));
    assert tail == [input[30], input[31]];
    UrlPair(input[30], input[31]);
  }

  lemma UrlDigitsConcat(s: string, t: string)
    ensures Replace(Replace(s + t, '+', '-'), '/', '_')
            == Replace(Replace(s, '+', '-'), '/', '_') + Replace(Replace(t, '+', '-'), '/', '_')
  {
    ReplaceConcat(s, t, '+', '-');
    ReplaceConcat(Replace(s, '+', '-'), Replace(t, '+', '-'), '/', '_');
  }

  lemma UrlPair(a: byte, b: byte)
    ensures UrlDigits([a, b]) == [Table(a / 4), Table(a % 4 * 16 + b / 16), Table(b % 16 * 4)]
  {
    hide Digit;
    UrlThree(a / 4, a % 4 * 16 + b / 16, b % 16 * 4);
  }

  lemma UrlThree(x: sextet, y: sextet, z: sextet)
    ensures Replace(Replace([Digit(x), Digit(y), Digit(z)], '+', '-'), '/', '_') == [Table(x), Table(y), Table(z)]
  {
    AlphabetDigit(x);
    AlphabetDigit(y);
    AlphabetDigit(z);
    hide Table;
  }

  function Join(a: byte, b: byte, c: byte): nat {
    a * 65536 + b * 256 + c
  }

  /** Three bytes joined to one number, cut into four six-bit digits by shifts. */
  lemma Shifts(a: byte, b: byte, c: byte)
    ensures var n := Join(a, b, c);
            && n / 262144 % 64 == a / 4 && n / 4096 % 64 == a % 4 * 16 + b / 16
            && n / 64 % 64 == b % 16 * 4 + c / 64 && n % 64 == c % 64
  {
    FirstShift(a, b, c);
    SecondShift(a, b, c);
    ThirdShift(a, b, c);
    assert a * 65536 + b * 256 + c == 64 * (a * 1024 + b * 4 + c / 64) + c % 64;
  }

  lemma FirstShift(a: byte, b: byte, c: byte)
    ensures (a * 65536 + b * 256 + c) / 262144 % 64 == a / 4
  {
    assert a * 65536 + b * 256 + c == 262144 * (a / 4) + (a % 4 * 65536 + b * 256 + c);
  }

  lemma SecondShift(a: byte, b: byte, c: byte)
    ensures (a * 65536 + b * 256 + c) / 4096 % 64 == a % 4 * 16 + b / 16
  {
    assert a * 65536 + b * 256 + c == 4096 * (a * 16 + b / 16) + (b % 16 * 256 + c);
    DivMod64(a / 4, a % 4 * 16 + b / 16);
  }

  lemma DivMod64(q: nat, r: nat)
    requires r < 64
    ensures (64 * q + r) / 64 == q && (64 * q + r) % 64 == r
  {
  }

  lemma ThirdShift(a: byte, b: byte, c: byte)
    ensures (a * 65536 + b * 256 + c) / 64 % 64 == b % 16 * 4 + c / 64
  {
    DivMod64(a * 1024 + b * 4 + c / 64, c % 64);
    DivMod64(a * 16 + b / 16, b % 16 * 4 + c / 64);
  }

  /** The four table characters of 24 bits. */
  function Chars(n: nat): (s: string)
    ensures |s| == 4
  {
    [Table(n / 262144 % 64), Table(n / 4096 % 64), Table(n / 64 % 64), Table(n % 64)]
  }

  lemma CharsOf(a: byte, b: byte, c: byte)
    ensures Chars(Join(a, b, c)) == [Table(a / 4), Table(a % 4 * 16 + b / 16), Table(b % 16 * 4 + c / 64), Table(c % 64)]
  {
    hide Table, Join;
    Shifts(a, b, c);
  }

  lemma WholeGroups(k: nat)
    ensures (3 * k) % 3 == 0
  {
  }

  lemma OneRoundAt(input: seq<byte>, i: nat)
    requires i % 3 == 0 && i + 3 <= |input|
    ensures UrlDigits(input[..i + 3]) == UrlDigits(input[..i]) + Chars(Join(input[i], input[i + 1], input[i + 2]))
  {
    hide UrlDigits, Quad, Digit, Replace, Join, Chars, Table;
    CharsOf(input[i], input[i + 1], input[i + 2]);
    UrlQuad(input[i], input[i + 1], input[i + 2]);
    UrlDigitsStep(input, i);
  }

  /** Round `k` of the encoder's loop. */
  lemma OneRound(input: seq<byte>, k: nat)
    requires 3 * k + 3 <= |input|
    ensures UrlDigits(input[..3 * k + 3])
            == UrlDigits(input[..3 * k]) + Chars(Join(input[3 * k], input[3 * k + 1], input[3 * k + 2]))
  {
    WholeGroups(k);
    OneRoundAt(input, 3 * k);
  }

  /** The encoder's last two bytes. */
  lemma LastRound(input: seq<byte>)
    requires |input| == 32
    ensures UrlEncoded(input) == UrlDigits(input[..30]) + Chars(Join(input[30], input[31], 0))[..3]
  {
    hide UrlDigits, UrlEncoded, Join, Chars, Table;
    CharsOf(input[30], input[31], 0);
    UrlDigitsEnd(input);
    UrlEncodedIsUrlDigits(input);
  }

  lemma NoDigits()
    ensures UrlDigits([]) == ""
  {
  }

  method Put(out: array<char>, o: nat, chars: string)
    requires o + |chars| <= out.Length
    modifies out
    ensures out[..o + |chars|] == old(out[..o]) + chars
  {
    forall i | 0 <= i < |chars| {
      out[o + i] := chars[i];
    }
  }

  method Encode32(input: array<byte>) returns (out: array<char>)
    requires input.Length == 32
    ensures fresh(out) && out.Length == 43 && out[..] == UrlEncoded(input[..])
  {
    hide UrlDigits, UrlEncoded, Chars, Join;
    out := new char[43](_ => 'A');
    var o, i := 0, 0;
    ghost var k, bytes := 0, input[..];
    NoDigits();
    while i < 30
      invariant 0 <= k <= 10 && i == 3 * k && o == 4 * k
      invariant out[..o] == UrlDigits(bytes[..i])
    {
      OneRound(bytes, k);
      Put(out, o, Chars(Join(input[i], input[i + 1], input[i + 2])));
      i := i + 3;
      o := o + 4;
      k := k + 1;
    }
    LastRound(bytes);
    Put(out, 40, Chars(Join(input[30], input[31], 0))[..3]);
    assert out[..] == out[..43];
  }
}
