/**
 * Rate-limit keys for addresses (server/rate-limit.ts). The text forms of IPv6 addresses are those of section 2.2 of RFC 4291.
 */
module VisitorAddress {
  import opened Primitives
  import opened Text

  // ---------------------------------------------------------------------------------------------------------------
  // The string operations it is made of.

  /** The pieces of `s` between the characters `c`; there is always at least one. */
  function Split(s: string, c: char): (pieces: seq<string>)
    ensures |pieces| >= 1
  {
    if s == "" then [""]
    else
      var rest := Split(s[1..], c);
      if s[0] == c then [""] + rest else [[s[0]] + rest[0]] + rest[1..]
  }

  function Join(groups: seq<string>, c: char): string {
    if groups == [] then ""
    else if |groups| == 1 then groups[0]
    else groups[0] + [c] + Join(groups[1..], c)
  }

  /** Where the first "::" starts, or the length if there is none. */
  function FindDouble(s: string): (i: nat)
    ensures i <= |s|
    ensures forall k :: 0 <= k < i && k + 1 < |s| ==> !(s[k] == ':' && s[k + 1] == ':')
    ensures i < |s| ==> i + 1 < |s| && s[i] == ':' && s[i + 1] == ':'
  {
    if |s| < 2 then |s|
    else if s[0] == ':' && s[1] == ':' then 0
    else
      var i := FindDouble(s[1..]);
      assert forall k :: 1 <= k < 1 + i && k + 1 < |s| ==> s[k] == s[1..][k - 1] && s[k + 1] == s[1..][k];
      1 + i
  }

  predicate IsHexDigit(c: char) {
    '0' <= c <= '9' || 'a' <= c <= 'f' || 'A' <= c <= 'F'
  }

  function DigitValue(c: char): nat
    requires IsHexDigit(c)
  {
    if c <= '9' then c as int - '0' as int else if c <= 'F' then c as int - 'A' as int + 10 else c as int - 'a' as int + 10
  }

  predicate AllHex(s: string) {
    forall i :: 0 <= i < |s| ==> IsHexDigit(s[i])
  }

  function HexValue(s: string): nat
    requires AllHex(s)
  {
    if s == "" then 0 else 16 * HexValue(s[..|s| - 1]) + DigitValue(s[|s| - 1])
  }

  /** The leading hexadecimal digits, which are all `parseInt` reads. */
  function HexPrefix(s: string): (t: string)
    ensures AllHex(t)
    ensures AllHex(s) ==> t == s
  {
    if s == "" || !IsHexDigit(s[0]) then "" else [s[0]] + HexPrefix(s[1..])
  }

  function HexDigit(n: nat): char
    requires n < 16
  {
    if n < 10 then (n + '0' as int) as char else (n - 10 + 'a' as int) as char
  }

  /** `toString(16)`. */
  function Hex(n: nat): (s: string)
    ensures |s| >= 1 && AllHex(s)
  {
    if n < 16 then [HexDigit(n)] else Hex(n / 16) + [HexDigit(n % 16)]
  }

  /** `parseInt(group, 16).toString(16)`. */
  function Canonical(group: string): string {
    var prefix := HexPrefix(group);
    if prefix == "" then "NaN" else Hex(HexValue(prefix))
  }

  function Canonicals(groups: seq<string>): (t: seq<string>)
    ensures |t| == |groups|
    ensures forall i :: 0 <= i < |t| ==> t[i] == Canonical(groups[i])
  {
    seq(|groups|, i requires 0 <= i < |groups| => Canonical(groups[i]))
  }

  predicate IsDigits(s: string) {
    1 <= |s| <= 3 && forall i :: 0 <= i < |s| ==> '0' <= s[i] <= '9'
  }

  /** Four numbers of one to three digits, with dots between them. */
  predicate LooksDotted(s: string) {
    && |Split(s, '.')| == 4
    && forall i :: 0 <= i < 4 ==> IsDigits(Split(s, '.')[i])
  }

  const MAPPED := "::ffff:"

  predicate LooksMapped(ip: string) {
    |ip| > 7 && Lower(ip[..7]) == MAPPED && LooksDotted(ip[7..])
  }

  /** How many of the eight groups these fill: two for dotted text. */
  function Width(groups: seq<string>): nat {
    if groups == [] then 0 else Width(groups[..|groups| - 1]) + (if '.' in groups[|groups| - 1] then 2 else 1)
  }

  function Zeros(n: nat): (t: seq<string>)
    ensures |t| == n && forall i :: 0 <= i < n ==> t[i] == "0"
  {
    seq(n, _ => "0")
  }

  function GroupsOf(text: string): seq<string> {
    if text == "" then [] else Split(text, ':')
  }

  /** The groups of an address without its zone, with "::" filled in. */
  function Expand(text: string): seq<string> {
    var i := FindDouble(text);
    var left := GroupsOf(text[..i]);
    if i == |text| then left
    else
      var rest := text[i + 2..];
      var right := GroupsOf(rest[..FindDouble(rest)]);
      var width := Width(left) + Width(right);
      left + Zeros(if width <= 8 then 8 - width else 0) + right
  }

  function Take4(groups: seq<string>): seq<string> {
    if |groups| <= 4 then groups else groups[..4]
  }

  /** `ip` is empty when the address is not known; `version` is what Node's `isIP` says of it. */
  function VisitorAddress(ip: string, version: nat): string {
    if ip == "" then "unknown"
    else if LooksMapped(ip) then ip[7..]
    else if version != 6 then ip
    else Join(Canonicals(Take4(Expand(Split(Lower(ip), '%')[0]))), ':') + "::/64"
  }

  // ---------------------------------------------------------------------------------------------------------------
  // The text forms of an IPv6 address.

  /** One to four hexadecimal digits, in either case. */
  predicate IsGroup(s: string) {
    1 <= |s| <= 4 && AllHex(s)
  }

  /** Dotted decimal: four numbers below 256. */
  predicate IsDotted(s: string) {
    LooksDotted(s) && forall i :: 0 <= i < 4 ==> DecimalValue(Split(s, '.')[i]) <= 255
  }

  /** Groups, of which the last may be an embedded IPv4 address. */
  predicate AreGroups(groups: seq<string>, dottedEnd: bool) {
    forall i :: 0 <= i < |groups| ==> IsGroup(groups[i]) || (dottedEnd && i == |groups| - 1 && IsDotted(groups[i]))
  }

  /** The groups before "::" (or all of them), whether there is a "::", the groups after it, and a zone. */
  datatype Form = Form(left: seq<string>, elided: bool, right: seq<string>, zone: Option<string>)

  /** Eight groups in all, an embedded IPv4 address counting for two and "::" for one or more. */
  predicate Valid(f: Form) {
    if f.elided then AreGroups(f.left, false) && AreGroups(f.right, true) && Width(f.left) + Width(f.right) <= 7
    else f.right == [] && AreGroups(f.left, true) && Width(f.left) == 8
  }

  function Body(f: Form): string {
    if f.elided then Join(f.left, ':') + "::" + Join(f.right, ':') else Join(f.left, ':')
  }

  function TextOf(f: Form): string {
    Body(f) + (if f.zone.Some? then "%" + f.zone.value else "")
  }

  /** The 16-bit words a group stands for. */
  function WordsOf(group: string): seq<nat> {
    if IsDotted(group) then
      var d := Split(group, '.');
      [256 * DecimalValue(d[0]) + DecimalValue(d[1]), 256 * DecimalValue(d[2]) + DecimalValue(d[3])]
    else if AllHex(group) then [HexValue(group)]
    else []
  }

  function Words(groups: seq<string>): seq<nat> {
    if groups == [] then [] else Words(groups[..|groups| - 1]) + WordsOf(groups[|groups| - 1])
  }

  /** The address: eight words. */
  function Address(f: Form): (words: seq<nat>)
    requires Valid(f)
    ensures |words| == 8
  {
    GroupsWidth(f.left, !f.elided);
    GroupsWidth(f.right, true);
    if f.elided then Words(f.left) + seq(8 - Width(f.left) - Width(f.right), _ => 0) + Words(f.right) else Words(f.left)
  }

  /** The top 64 bits. */
  function TopHalf(f: Form): seq<nat>
    requires Valid(f)
  {
    Address(f)[..4]
  }

  /** Written as `::ffff:` and a dotted tail, without a zone. */
  predicate Mapped(f: Form) {
    f.elided && f.left == [] && f.zone.None? && |f.right| == 2 && Lower(f.right[0]) == "ffff" && IsDotted(f.right[1])
  }

  // ---------------------------------------------------------------------------------------------------------------
  // Splitting undoes joining.

  lemma {:induction false} SplitWhole(s: string, c: char)
    requires c !in s
    ensures Split(s, c) == [s]
  {
    if s != "" {
      SplitWhole(s[1..], c);
      assert [s[0]] + s[1..] == s;
    }
  }

  lemma {:induction false} SplitAt(a: string, c: char, b: string)
    requires c !in a
    ensures Split(a + [c] + b, c) == [a] + Split(b, c)
  {
    var s := a + [c] + b;
    if a == "" {
      assert s[1..] == b;
    } else {
      SplitAt(a[1..], c, b);
      assert s[1..] == a[1..] + [c] + b;
      assert [a[0]] + a[1..] == a;
    }
  }

  lemma {:induction false} SplitJoin(groups: seq<string>, c: char)
    requires groups != [] && forall g <- groups :: c !in g
    ensures Split(Join(groups, c), c) == groups
  {
    if |groups| == 1 {
      SplitWhole(groups[0], c);
    } else {
      SplitAt(groups[0], c, Join(groups[1..], c));
      SplitJoin(groups[1..], c);
    }
  }

  /** Every character of a string is the separator or in a piece. */
  lemma {:induction false} DigitsBetween(s: string, c: char)
    requires forall k :: 0 <= k < |Split(s, c)| ==> forall i :: 0 <= i < |Split(s, c)[k]| ==> '0' <= Split(s, c)[k][i] <= '9'
    ensures forall i :: 0 <= i < |s| ==> s[i] == c || '0' <= s[i] <= '9'
  {
    if s != "" {
      var rest, all := Split(s[1..], c), Split(s, c);
      forall k | 0 <= k < |rest| ensures forall i :: 0 <= i < |rest[k]| ==> '0' <= rest[k][i] <= '9' {
        if s[0] == c {
          assert all[k + 1] == rest[k];
        } else if k == 0 {
          assert all[0] == [s[0]] + rest[0];
          assert forall i :: 0 <= i < |rest[0]| ==> rest[0][i] == all[0][i + 1];
        } else {
          assert all[k] == rest[k];
        }
      }
      DigitsBetween(s[1..], c);
      assert s[0] == c || all[0][0] == s[0];
      assert forall i :: 1 <= i < |s| ==> s[i] == s[1..][i - 1];
    }
  }

  lemma DottedChars(s: string)
    requires LooksDotted(s)
    ensures forall i :: 0 <= i < |s| ==> s[i] == '.' || '0' <= s[i] <= '9'
    ensures '.' in s && s != ""
  {
    DigitsBetween(s, '.');
    if '.' !in s {
      SplitWhole(s, '.');
    }
  }

  // ---------------------------------------------------------------------------------------------------------------
  // Groups, their width and their words.

  /** What a group's text is free of. */
  predicate IsPiece(s: string) {
    s != "" && ':' !in s && '%' !in s
  }

  lemma GroupFacts(s: string)
    ensures IsGroup(s) ==> '.' !in s && IsPiece(s) && WordsOf(s) == [HexValue(s)]
    ensures IsDotted(s) ==> '.' in s && IsPiece(s) && |WordsOf(s)| == 2
  {
    if LooksDotted(s) {
      DottedChars(s);
    }
  }

  lemma PiecesOf(groups: seq<string>, dottedEnd: bool)
    requires AreGroups(groups, dottedEnd)
    ensures forall g <- groups :: IsPiece(g)
  {
    forall g | g in groups ensures IsPiece(g) {
      GroupFacts(g);
    }
  }

  lemma {:induction false} GroupsWidth(groups: seq<string>, dottedEnd: bool)
    requires AreGroups(groups, dottedEnd)
    ensures |Words(groups)| == Width(groups)
    ensures |groups| <= Width(groups) <= |groups| + 1
    ensures !dottedEnd ==> Width(groups) == |groups|
    ensures Width(groups) == |groups| + 1 ==> groups != [] && IsDotted(groups[|groups| - 1])
  {
    if groups != [] {
      GroupsWidth(groups[..|groups| - 1], false);
      GroupFacts(groups[|groups| - 1]);
    }
  }

  /** The words of the groups before an embedded IPv4 address are theirs, one each. */
  lemma {:induction false} WordAt(groups: seq<string>, dottedEnd: bool, i: nat)
    requires AreGroups(groups, dottedEnd) && i < |groups| && IsGroup(groups[i])
    ensures i < |Words(groups)| && Words(groups)[i] == HexValue(groups[i])
  {
    GroupsWidth(groups[..|groups| - 1], false);
    GroupFacts(groups[|groups| - 1]);
    if i < |groups| - 1 {
      WordAt(groups[..|groups| - 1], false, i);
    }
  }

  // ---------------------------------------------------------------------------------------------------------------
  // Lower case changes the text but not the address.

  function LowerAll(groups: seq<string>): (t: seq<string>)
    ensures |t| == |groups|
    ensures forall i :: 0 <= i < |t| ==> t[i] == Lower(groups[i])
  {
    seq(|groups|, i requires 0 <= i < |groups| => Lower(groups[i]))
  }

  function LowerForm(f: Form): Form {
    Form(LowerAll(f.left), f.elided, LowerAll(f.right), if f.zone.Some? then Some(Lower(f.zone.value)) else None)
  }

  lemma LowerConcat(a: string, b: string)
    ensures Lower(a + b) == Lower(a) + Lower(b)
  {
    var t := Lower(a) + Lower(b);
    assert forall i :: 0 <= i < |t| ==> Lower(a + b)[i] == t[i];
  }

  lemma {:induction false} LowerJoin(groups: seq<string>)
    ensures Lower(Join(groups, ':')) == Join(LowerAll(groups), ':')
  {
    if |groups| > 1 {
      LowerJoin(groups[1..]);
      LowerConcat(groups[0] + ":", Join(groups[1..], ':'));
      LowerConcat(groups[0], ":");
      assert LowerAll(groups)[1..] == LowerAll(groups[1..]);
    }
  }

  lemma LowerText(f: Form)
    ensures Lower(TextOf(f)) == TextOf(LowerForm(f))
  {
    LowerJoin(f.left);
    LowerJoin(f.right);
    LowerConcat(Join(f.left, ':') + "::", Join(f.right, ':'));
    LowerConcat(Join(f.left, ':'), "::");
    assert Lower("::") == "::" && Lower("%") == "%";
    if f.zone.Some? {
      LowerConcat(Body(f), "%" + f.zone.value);
      LowerConcat("%", f.zone.value);
    } else {
      assert Body(f) + "" == Body(f);
      assert Body(LowerForm(f)) + "" == Body(LowerForm(f));
    }
  }

  lemma LowerDigit(c: char)
    requires IsHexDigit(c)
    ensures IsHexDigit(LowerChar(c)) && DigitValue(LowerChar(c)) == DigitValue(c)
  {
  }

  lemma LowerStaysHex(s: string)
    requires AllHex(s)
    ensures AllHex(Lower(s))
  {
    forall i | 0 <= i < |s| ensures IsHexDigit(Lower(s)[i]) {
      LowerDigit(s[i]);
    }
  }

  lemma {:induction false} LowerHex(s: string)
    requires AllHex(s)
    ensures AllHex(Lower(s)) && HexValue(Lower(s)) == HexValue(s)
  {
    LowerStaysHex(s);
    if s != "" {
      LowerHex(s[..|s| - 1]);
      LowerDigit(s[|s| - 1]);
      LowerPrefix(s, |s| - 1);
      var last := |s| - 1;
      assert Lower(s)[last] == LowerChar(s[last]);
      hide IsHexDigit, DigitValue, LowerChar, AllHex, Lower;
    }
  }

  lemma LowerPrefix(s: string, n: nat)
    requires n <= |s|
    ensures Lower(s)[..n] == Lower(s[..n])
  {
  }

  /** Lower case keeps a group's kind and its words. */
  lemma LowerGroup(s: string)
    requires IsGroup(s) || IsDotted(s)
    ensures IsGroup(s) ==> IsGroup(Lower(s))
    ensures IsDotted(s) ==> IsDotted(Lower(s))
    ensures WordsOf(Lower(s)) == WordsOf(s) && ('.' in Lower(s) <==> '.' in s)
  {
    GroupFacts(s);
    if IsDotted(s) {
      DottedChars(s);
      assert Lower(s) == s;
    } else {
      LowerHex(s);
      GroupFacts(Lower(s));
    }
  }

  lemma {:induction false} LowerGroups(groups: seq<string>, dottedEnd: bool)
    requires AreGroups(groups, dottedEnd)
    ensures AreGroups(LowerAll(groups), dottedEnd)
  {
    forall i | 0 <= i < |groups| ensures IsGroup(Lower(groups[i])) || (dottedEnd && i == |groups| - 1 && IsDotted(Lower(groups[i]))) {
      LowerGroup(groups[i]);
    }
  }

  lemma {:induction false} LowerWords(groups: seq<string>, dottedEnd: bool)
    requires AreGroups(groups, dottedEnd)
    ensures Words(LowerAll(groups)) == Words(groups) && Width(LowerAll(groups)) == Width(groups)
  {
    if groups != [] {
      var last := |groups| - 1;
      LowerWords(groups[..last], false);
      LowerGroup(groups[last]);
      hide WordsOf, IsGroup, IsDotted;
      assert LowerAll(groups)[..last] == LowerAll(groups[..last]);
    }
    hide WordsOf, IsGroup, IsDotted;
  }

  lemma LowerKeepsTheAddress(f: Form)
    requires Valid(f)
    ensures Valid(LowerForm(f)) && Address(LowerForm(f)) == Address(f)
  {
    LowerGroups(f.left, !f.elided);
    LowerGroups(f.right, true);
    LowerWords(f.left, !f.elided);
    LowerWords(f.right, true);
  }

  // ---------------------------------------------------------------------------------------------------------------
  // Reading a text form finds its groups.

  /** No colon at either end, and no two in a row. */
  predicate IsClean(s: string) {
    && (s != "" ==> s[0] != ':' && s[|s| - 1] != ':')
    && forall i :: 0 <= i < |s| - 1 ==> !(s[i] == ':' && s[i + 1] == ':')
  }

  lemma {:induction false} CleanJoin(groups: seq<string>)
    requires forall g <- groups :: IsPiece(g)
    ensures IsClean(Join(groups, ':')) && '%' !in Join(groups, ':')
    ensures groups != [] ==> Join(groups, ':') != "" && Join(groups, ':')[0] == groups[0][0]
  {
    if groups != [] {
      assert IsPiece(groups[0]);
    }
    if |groups| > 1 {
      CleanJoin(groups[1..]);
      var a, b := groups[0], Join(groups[1..], ':');
      var s := a + [':'] + b;
      forall i | 0 <= i < |s| - 1 ensures !(s[i] == ':' && s[i + 1] == ':') {
        if i > |a| {
          assert s[i] == b[i - |a| - 1] && s[i + 1] == b[i - |a|];
        } else if i == |a| {
          assert s[i + 1] == b[0];
        } else {
          assert s[i] == a[i];
        }
      }
    }
  }

  lemma FindInClean(s: string, t: string)
    requires IsClean(s)
    ensures FindDouble(s) == |s|
    ensures FindDouble(s + "::" + t) == |s|
  {
    var whole := s + "::" + t;
    assert whole[|s|] == ':' && whole[|s| + 1] == ':';
    forall k | 0 <= k < |s| ensures !(whole[k] == ':' && whole[k + 1] == ':') {
      assert whole[k] == s[k] && (k + 1 < |s| ==> whole[k + 1] == s[k + 1]);
    }
  }

  lemma GroupsOfJoin(groups: seq<string>)
    requires forall g <- groups :: IsPiece(g)
    ensures GroupsOf(Join(groups, ':')) == groups
  {
    if groups != [] {
      CleanJoin(groups);
      SplitJoin(groups, ':');
    }
  }

  /** The groups with "::" written out. */
  function Full(f: Form): seq<string>
    requires Valid(f)
  {
    GroupsWidth(f.left, !f.elided);
    GroupsWidth(f.right, true);
    if f.elided then f.left + Zeros(8 - Width(f.left) - Width(f.right)) + f.right else f.left
  }

  /** What `Expand` does once "::" is found. */
  lemma ExpandElided(left: seq<string>, right: seq<string>)
    requires (forall g <- left :: IsPiece(g)) && (forall g <- right :: IsPiece(g)) && Width(left) + Width(right) <= 8
    ensures Expand(Join(left, ':') + "::" + Join(right, ':')) == left + Zeros(8 - Width(left) - Width(right)) + right
  {
    var a, b := Join(left, ':'), Join(right, ':');
    CleanJoin(left);
    CleanJoin(right);
    GroupsOfJoin(left);
    GroupsOfJoin(right);
    FindInClean(a, b);
    FindInClean(b, "");
    var text := a + "::" + b;
    assert text[..|a|] == a && text[|a| + 2..] == b && b[..|b|] == b;
  }

  lemma ExpandWhole(groups: seq<string>)
    requires forall g <- groups :: IsPiece(g)
    ensures Expand(Join(groups, ':')) == groups
  {
    var a := Join(groups, ':');
    CleanJoin(groups);
    GroupsOfJoin(groups);
    FindInClean(a, "");
    assert a[..|a|] == a;
  }

  lemma ExpandBody(f: Form)
    requires Valid(f)
    ensures Expand(Body(f)) == Full(f)
  {
    PiecesOf(f.left, !f.elided);
    PiecesOf(f.right, true);
    if f.elided {
      ExpandElided(f.left, f.right);
    } else {
      ExpandWhole(f.left);
    }
  }

  lemma BodyHasNoZone(f: Form)
    requires Valid(f)
    ensures '%' !in Body(f)
  {
    PiecesOf(f.left, !f.elided);
    PiecesOf(f.right, true);
    CleanJoin(f.left);
    CleanJoin(f.right);
  }

  lemma ZoneIsDropped(f: Form)
    requires Valid(f)
    ensures Split(TextOf(f), '%')[0] == Body(f)
  {
    BodyHasNoZone(f);
    if f.zone.Some? {
      SplitAt(Body(f), '%', f.zone.value);
      assert TextOf(f) == Body(f) + ['%'] + f.zone.value;
    } else {
      SplitWhole(Body(f), '%');
      assert TextOf(f) == Body(f);
    }
  }

  // ---------------------------------------------------------------------------------------------------------------
  // Writing the top half.

  lemma {:induction false} HexRoundTrip(n: nat)
    ensures HexValue(Hex(n)) == n
  {
    var s := Hex(n);
    if n >= 16 {
      HexRoundTrip(n / 16);
      assert s[..|s| - 1] == Hex(n / 16);
    } else {
      assert s[..|s| - 1] == "";
    }
  }

  function HexAll(words: seq<nat>): (t: seq<string>)
    ensures |t| == |words|
    ensures forall i :: 0 <= i < |t| ==> t[i] == Hex(words[i])
  {
    seq(|words|, i requires 0 <= i < |words| => Hex(words[i]))
  }

  /** The `i`-th of the first four groups is one word, the address's `i`-th. */
  lemma FullAt(f: Form, i: nat)
    requires Valid(f) && i < 4
    ensures i < |Full(f)| && IsGroup(Full(f)[i]) && HexValue(Full(f)[i]) == Address(f)[i]
  {
    GroupsWidth(f.left, !f.elided);
    GroupsWidth(f.right, true);
    if i < |f.left| {
      WordAt(f.left, !f.elided, i);
    } else {
      var zeros := 8 - Width(f.left) - Width(f.right);
      if i < |f.left| + zeros {
        assert Full(f)[i] == "0" && HexValue("0") == 0;
      } else {
        WordAt(f.right, true, i - |f.left| - zeros);
      }
    }
  }

  lemma KeyOfFull(f: Form)
    requires Valid(f)
    ensures Canonicals(Take4(Full(f))) == HexAll(TopHalf(f))
  {
    GroupsWidth(f.left, !f.elided);
    GroupsWidth(f.right, true);
    forall i | 0 <= i < 4 ensures i < |Full(f)| && Canonical(Full(f)[i]) == Hex(TopHalf(f)[i]) {
      FullAt(f, i);
    }
  }

  /** The key of an IPv6 address, as a function of its top half. */
  function PrefixKey(top: seq<nat>): string {
    Join(HexAll(top), ':') + "::/64"
  }

  lemma KeyIsThePrefix(f: Form)
    requires Valid(f) && !LooksMapped(TextOf(f))
    ensures VisitorAddress(TextOf(f), 6) == PrefixKey(TopHalf(f))
  {
    var g := LowerForm(f);
    LowerText(f);
    LowerKeepsTheAddress(f);
    ZoneIsDropped(g);
    ExpandBody(g);
    KeyOfFull(g);
    TextIsNotEmpty(f);
  }

  lemma TextIsNotEmpty(f: Form)
    requires Valid(f)
    ensures TextOf(f) != ""
  {
    PiecesOf(f.left, !f.elided);
    CleanJoin(f.left);
    if !f.elided {
      assert f.left != [];
    }
  }

  lemma PrefixKeyIsInjective(a: seq<nat>, b: seq<nat>)
    requires |a| == |b| == 4 && PrefixKey(a) == PrefixKey(b)
    ensures a == b
  {
    var s, t := Join(HexAll(a), ':'), Join(HexAll(b), ':');
    assert s == PrefixKey(a)[..|PrefixKey(a)| - 5] && t == PrefixKey(b)[..|PrefixKey(b)| - 5];
    SplitJoin(HexAll(a), ':');
    SplitJoin(HexAll(b), ':');
    forall i | 0 <= i < 4 ensures a[i] == b[i] {
      assert HexAll(a)[i] == HexAll(b)[i];
      HexRoundTrip(a[i]);
      HexRoundTrip(b[i]);
    }
  }

  // ---------------------------------------------------------------------------------------------------------------
  // IPv4-mapped addresses.

  lemma MappedParts(text: string)
    requires LooksMapped(text)
    ensures text == "::" + text[2..6] + [':'] + text[7..]
    ensures Lower(text[2..6]) == "ffff" && ':' !in text[2..6] && '%' !in text
  {
    forall i | 0 <= i < 7 ensures LowerChar(text[i]) == MAPPED[i] {
      assert Lower(text[..7])[i] == MAPPED[i];
    }
    forall i | 0 <= i < 4 ensures LowerChar(text[2..6][i]) == 'f' {
      assert text[2..6][i] == text[i + 2];
    }
    DottedChars(text[7..]);
    forall i | 0 <= i < |text| ensures text[i] != '%' {
      assert i >= 7 ==> text[7..][i - 7] == text[i];
    }
  }

  lemma MappedGroups(groups: seq<string>, a: string, d: string)
    requires (forall g <- groups :: IsPiece(g)) && Join(groups, ':') == a + [':'] + d && ':' !in a && LooksDotted(d)
    ensures groups == [a, d]
  {
    DottedChars(d);
    SplitJoin(groups, ':');
    SplitWhole(d, ':');
    SplitAt(a, ':', d);
  }

  /** A text form is read as a mapped IPv4 address only when it is written as `::ffff:`, a dotted tail and no zone. */
  lemma LooksMappedIsMapped(f: Form)
    requires Valid(f) && LooksMapped(TextOf(f))
    ensures Mapped(f)
  {
    var text := TextOf(f);
    assert f.zone.Some? ==> text[|Body(f)|] == '%';
    MappedParts(text);
    assert f.zone.None? && text == Body(f);
    PiecesOf(f.left, !f.elided);
    PiecesOf(f.right, true);
    CleanJoin(f.left);
    assert text[0] == ':' && f.left == [] && f.elided;
    assert Join(f.right, ':') == text[2..] == text[2..6] + [':'] + text[7..];
    MappedGroups(f.right, text[2..6], text[7..]);
    RightIsDotted(f.right);
  }

  lemma RightIsDotted(groups: seq<string>)
    requires AreGroups(groups, true) && |groups| == 2 && LooksDotted(groups[1])
    ensures IsDotted(groups[1])
  {
    DottedChars(groups[1]);
    GroupFacts(groups[1]);
  }

  lemma MappedLooksMapped(f: Form)
    requires Valid(f) && Mapped(f)
    ensures LooksMapped(TextOf(f)) && VisitorAddress(TextOf(f), 6) == f.right[1]
  {
    var text := TextOf(f);
    var a, d := f.right[0], f.right[1];
    MappedText(f, a, d);
    MappedHead(a);
    assert text[..7] == "::" + a + ":" && text[7..] == d;
    DottedChars(d);
  }

  lemma MappedText(f: Form, a: string, d: string)
    requires f == Form([], true, [a, d], None)
    ensures TextOf(f) == "::" + a + ":" + d
  {
    assert f.right[1..] == [d];
    assert Join(f.right, ':') == a + ":" + d;
    assert Body(f) == "" + "::" + Join(f.right, ':');
    assert TextOf(f) == Body(f) + "";
  }

  lemma MappedHead(a: string)
    requires Lower(a) == "ffff"
    ensures Lower("::" + a + ":") == MAPPED
  {
    var head := "::" + a + ":";
    forall i | 0 <= i < 7 ensures Lower(head)[i] == MAPPED[i] {
      assert 2 <= i < 6 ==> head[i] == a[i - 2] && Lower(a)[i - 2] == 'f';
    }
  }

  // ---------------------------------------------------------------------------------------------------------------

  /**
   * Two IPv6 addresses, in any of their text forms, are counted together exactly when they have the same top 64 bits; but one
   * written as `::ffff:`, a dotted tail and no zone is counted with the same dotted tail and nothing else.
   */
  lemma CountedTogether(f: Form, g: Form)
    requires Valid(f) && Valid(g)
    ensures VisitorAddress(TextOf(f), 6) == VisitorAddress(TextOf(g), 6) <==>
            if Mapped(f) || Mapped(g) then Mapped(f) && Mapped(g) && f.right[1] == g.right[1]
            else TopHalf(f) == TopHalf(g)
  {
    KeyOf(f);
    KeyOf(g);
    if !Mapped(f) && !Mapped(g) && PrefixKey(TopHalf(f)) == PrefixKey(TopHalf(g)) {
      PrefixKeyIsInjective(TopHalf(f), TopHalf(g));
    }
  }

  lemma KeyOf(f: Form)
    requires Valid(f)
    ensures Mapped(f) ==> VisitorAddress(TextOf(f), 6) == f.right[1] && '/' !in f.right[1]
    ensures !Mapped(f) ==> VisitorAddress(TextOf(f), 6) == PrefixKey(TopHalf(f)) && '/' in PrefixKey(TopHalf(f))
  {
    if Mapped(f) {
      MappedLooksMapped(f);
      DottedChars(f.right[1]);
    } else {
      if LooksMapped(TextOf(f)) {
        LooksMappedIsMapped(f);
      } else {
        KeyIsThePrefix(f);
      }
      var key := PrefixKey(TopHalf(f));
      assert key[|key| - 3] == '/';
    }
  }

  /** An IPv4 address is its own key, and none of IPv6's; a visitor without an address is counted as nobody in particular. */
  lemma IPv4IsItsOwnKey(d: string, top: seq<nat>)
    requires IsDotted(d) && |top| == 4
    ensures VisitorAddress(d, 4) == d && d != PrefixKey(top)
    ensures VisitorAddress("", 0) == "unknown"
  {
    DottedChars(d);
    assert |d| > 7 ==> Lower(d[..7])[0] == LowerChar(d[0]) != MAPPED[0];
    hide LooksDotted, IsDotted, PrefixKey;
    PrefixHasASlash(top);
  }

  lemma PrefixHasASlash(top: seq<nat>)
    ensures '/' in PrefixKey(top)
  {
    var key := PrefixKey(top);
    assert key[|key| - 3] == '/';
  }

  /** So written, a mapped address is counted as the IPv4 address it is. */
  lemma MappedIsItsIPv4(f: Form)
    requires Valid(f) && Mapped(f)
    ensures VisitorAddress(TextOf(f), 6) == VisitorAddress(f.right[1], 4)
  {
    var d := f.right[1];
    MappedLooksMapped(f);
    DottedChars(d);
    assert |d| > 7 ==> Lower(d[..7])[0] == LowerChar(d[0]) != MAPPED[0];
  }

  /** An IPv6 address is counted as IPv4, without a prefix length, exactly when it is written `::ffff:`, dotted tail, no zone. */
  lemma CountedAsIPv4(f: Form)
    requires Valid(f)
    ensures '/' !in VisitorAddress(TextOf(f), 6) <==> Mapped(f)
  {
    KeyOf(f);
  }

  function Pow16(k: nat): nat {
    if k == 0 then 1 else 16 * Pow16(k - 1)
  }

  lemma {:induction false} HexLength(n: nat, k: nat)
    requires n < Pow16(k) && k > 0
    ensures |Hex(n)| <= k
  {
    if n >= 16 {
      HexLength(n / 16, k - 1);
    }
  }

  /** A 16-bit word in hexadecimal is a group that stands for it. */
  lemma HexIsGroup(word: nat)
    requires word < 0x1_0000
    ensures IsGroup(Hex(word)) && WordsOf(Hex(word)) == [word]
  {
    HexLength(word, 4);
    HexRoundTrip(word);
    GroupFacts(Hex(word));
  }

  lemma WordsOneMore(groups: seq<string>, more: string)
    ensures Words(groups + [more]) == Words(groups) + WordsOf(more)
  {
    assert (groups + [more])[..|groups|] == groups;
  }

  /** The same mapped address with its IPv4 part in hexadecimal. */
  function InHex(f: Form): Form
    requires Mapped(f)
  {
    var words := WordsOf(f.right[1]);
    Form([], true, [f.right[0], Hex(words[0]), Hex(words[1])], None)
  }

  lemma WordsOfTwo(a: string, b: string)
    ensures Words([a, b]) == WordsOf(a) + WordsOf(b)
  {
    hide WordsOf;
    WordsOneMore([], a);
    WordsOneMore([a], b);
    assert [a] + [b] == [a, b] && [] + [a] == [a];
  }

  lemma WordsOfThree(a: string, b: string, c: string)
    ensures Words([a, b, c]) == WordsOf(a) + WordsOf(b) + WordsOf(c)
  {
    hide WordsOf;
    WordsOfTwo(a, b);
    WordsOneMore([a, b], c);
    assert [a, b] + [c] == [a, b, c];
  }

  lemma InHexWords(f: Form)
    requires Valid(f) && Mapped(f)
    ensures AreGroups(InHex(f).right, false) && Words(InHex(f).right) == Words(f.right)
  {
    var words := WordsOf(f.right[1]);
    HexIsGroup(words[0]);
    HexIsGroup(words[1]);
    FirstIsGroup(f);
    WordsOfThree(f.right[0], Hex(words[0]), Hex(words[1]));
    WordsOfTwo(f.right[0], f.right[1]);
    assert f.right == [f.right[0], f.right[1]];
  }

  lemma FirstIsGroup(f: Form)
    requires Valid(f) && Mapped(f)
    ensures IsGroup(f.right[0])
  {
    assert AreGroups(f.right, true);
  }

  /** Every mapped address has two keys: written in hexadecimal it is counted by its prefix, `::/64`, like any other. */
  lemma MappedAddressesHaveTwoKeys(f: Form)
    requires Valid(f) && Mapped(f)
    ensures Valid(InHex(f)) && Address(InHex(f)) == Address(f)
    ensures VisitorAddress(TextOf(InHex(f)), 6) == PrefixKey(TopHalf(f)) != VisitorAddress(TextOf(f), 6)
  {
    SameAddressInHex(f);
    KeyOf(f);
    KeyOf(InHex(f));
  }

  lemma SameAddressInHex(f: Form)
    requires Valid(f) && Mapped(f)
    ensures Valid(InHex(f)) && Address(InHex(f)) == Address(f)
  {
    InHexWords(f);
    GroupsWidth(f.right, true);
    GroupsWidth(InHex(f).right, false);
  }

  /** The address is an IPv4-mapped one, however it is written. */
  predicate IsMappedAddress(f: Form)
    requires Valid(f)
  {
    Address(f)[..6] == [0, 0, 0, 0, 0, 0xffff]
  }

  /**
   * Of all the ways to write a mapped address only one is counted as IPv4: `::ffff:`, a dotted tail and no zone. Every other
   * is counted as the one prefix all mapped addresses share.
   */
  lemma OneSpellingIsCountedAsIPv4(f: Form)
    requires Valid(f) && IsMappedAddress(f)
    ensures if Mapped(f) then VisitorAddress(TextOf(f), 6) == VisitorAddress(f.right[1], 4)
            else VisitorAddress(TextOf(f), 6) == PrefixKey([0, 0, 0, 0])
    ensures VisitorAddress(TextOf(f), 6) == PrefixKey([0, 0, 0, 0]) <==> !Mapped(f)
  {
    KeyOf(f);
    assert TopHalf(f) == Address(f)[..6][..4] == [0, 0, 0, 0];
    if Mapped(f) {
      MappedIsItsIPv4(f);
    }
  }

  /** The same address with its zeros written out: `0:0:0:0:0:ffff:` and the dotted tail. */
  function InFull(f: Form): Form
    requires Mapped(f)
  {
    Form(["0", "0", "0", "0", "0"] + f.right, false, [], None)
  }

  /** A dotted tail is not enough: writing the zeros out already changes the key, and so does a zone. */
  lemma DottedTailIsNotEnough(f: Form, zone: string)
    requires Valid(f) && Mapped(f)
    ensures Valid(InFull(f)) && Address(InFull(f)) == Address(f) && VisitorAddress(TextOf(InFull(f)), 6) == PrefixKey(TopHalf(f))
    ensures Valid(InZone(f, zone)) && Address(InZone(f, zone)) == Address(f)
    ensures VisitorAddress(TextOf(InZone(f, zone)), 6) == PrefixKey(TopHalf(f)) != VisitorAddress(TextOf(f), 6)
  {
    FullWords(f);
    ZoneIsNoAddress(f, zone);
    hide Valid, Address, TextOf, VisitorAddress, PrefixKey;
    KeyOf(f);
    KeyOf(InFull(f));
    KeyOf(InZone(f, zone));
  }

  function InZone(f: Form, zone: string): Form {
    f.(zone := Some(zone))
  }

  lemma ZoneIsNoAddress(f: Form, zone: string)
    requires Valid(f)
    ensures Valid(InZone(f, zone)) && Address(InZone(f, zone)) == Address(f)
  {
    hide Words, WordsOf, Width, AreGroups;
  }

  lemma {:induction false} WordsConcat(a: seq<string>, b: seq<string>)
    ensures Words(a + b) == Words(a) + Words(b) && Width(a + b) == Width(a) + Width(b)
  {
    hide WordsOf;
    if b == [] {
      assert a + b == a;
    } else {
      WordsConcat(a, b[..|b| - 1]);
      assert (a + b)[..|a + b| - 1] == a + b[..|b| - 1];
    }
  }

  lemma {:induction false} ZeroWords(groups: seq<string>)
    requires forall i :: 0 <= i < |groups| ==> groups[i] == "0"
    ensures AreGroups(groups, false) && Width(groups) == |groups| && Words(groups) == seq(|groups|, _ => 0)
  {
    assert HexValue("0") == 0 && IsGroup("0");
    GroupFacts("0");
    if groups != [] {
      ZeroWords(groups[..|groups| - 1]);
    }
  }

  lemma FullWords(f: Form)
    requires Valid(f) && Mapped(f)
    ensures Valid(InFull(f)) && Address(InFull(f)) == Address(f)
  {
    var zeros := ["0", "0", "0", "0", "0"];
    ZeroWords(zeros);
    WordsConcat(zeros, f.right);
    MappedWidth(f);
    FirstIsGroup(f);
    hide WordsOf, Words, Width, IsDotted;
    assert Address(f) == seq(5, _ => 0) + Words(f.right);
  }

  lemma MappedWidth(f: Form)
    requires Valid(f) && Mapped(f)
    ensures Width(f.right) == 3
  {
    FirstIsGroup(f);
    GroupFacts(f.right[0]);
    GroupFacts(f.right[1]);
    hide IsDotted, WordsOf;
    assert f.right[..1] == [f.right[0]];
  }
}
