/** backend/src/lib/clientIp.ts: the rate-limit bucket of an address, against the textual forms of
    IPv6 addresses (section 2.2 of RFC 4291). */
module ClientIp {
  import opened Wrappers
  import opened Text

  // --- JavaScript's string operations ---

  function LowerChar(c: char): char {
    if 'A' <= c <= 'Z' then 'a' + (c - 'A') else c
  }

  function Lower(s: string): (t: string)
    ensures |t| == |s|
  {
    seq(|s|, i requires 0 <= i < |s| => LowerChar(s[i]))
  }

  /** split on one character. */
  function Split(s: string, c: char): (pieces: seq<string>)
    ensures pieces != []
  {
    if s == [] then [[]]
    else
      var rest := Split(s[1..], c);
      if s[0] == c then [[]] + rest else [[s[0]] + rest[0]] + rest[1..]
  }

  /** The text before the first "::" and, if there is one, the text after it. */
  function CutAtPair(s: string): (string, Option<string>) {
    if |s| < 2 then (s, None)
    else if s[0] == ':' && s[1] == ':' then ([], Some(s[2..]))
    else
      var (before, after) := CutAtPair(s[1..]);
      ([s[0]] + before, after)
  }

  predicate IsHex(c: char) {
    IsDigit(c) || 'a' <= c <= 'f' || 'A' <= c <= 'F'
  }

  predicate AllHex(s: string) {
    forall i :: 0 <= i < |s| ==> IsHex(s[i])
  }

  function HexDigit(c: char): (d: nat)
    requires IsHex(c)
    ensures d < 16
  {
    if IsDigit(c) then DigitValue(c)
    else if 'a' <= c <= 'f' then 10 + (c as int - 'a' as int)
    else 10 + (c as int - 'A' as int)
  }

  function HexValue(s: string): nat
    requires AllHex(s)
  {
    if s == [] then 0 else 16 * HexValue(s[..|s| - 1]) + HexDigit(s[|s| - 1])
  }

  function HexChar(d: nat): (c: char)
    requires d < 16
    ensures IsHex(c) && HexDigit(c) == d && c != ':'
  {
    if d < 10 then DigitChar(d) else 'a' + (d - 10) as char
  }

  /** Number.toString(16). */
  function HexText(n: nat): (s: string)
    ensures s != [] && AllHex(s) && ':' !in s
  {
    if n < 16 then [HexChar(n)] else HexText(n / 16) + [HexChar(n % 16)]
  }

  /** The digits parseInt(s, 16) reads. */
  function HexPrefix(s: string): (p: string)
    ensures AllHex(p)
  {
    if s == [] || !IsHex(s[0]) then [] else [s[0]] + HexPrefix(s[1..])
  }

  function ParsedAndPrinted(group: string): string {
    if HexPrefix(group) == [] then "NaN" else HexText(HexValue(HexPrefix(group)))
  }

  // --- The source's functions ---

  /** /^::ffff:(\d{1,3}(?:\.\d{1,3}){3})$/i */
  function MappedTail(ip: string): Option<string> {
    if |ip| > 7 && Lower(ip[..7]) == "::ffff:" && IsDotted(ip[7..]) then Some(ip[7..]) else None
  }

  predicate IsDotted(s: string) {
    var octets := Split(s, '.');
    && |octets| == 4
    && forall k :: 0 <= k < 4 ==> 1 <= |octets[k]| <= 3 && AllDigits(octets[k])
  }

  function Width(parts: seq<string>): nat {
    if parts == [] then 0 else (if '.' in parts[0] then 2 else 1) + Width(parts[1..])
  }

  function PartsOf(text: string): seq<string> {
    if text == [] then [] else Split(text, ':')
  }

  function Zeros(n: int): seq<string> {
    if n <= 0 then [] else seq(n, _ => "0")
  }

  function Normalised(group: string): string {
    if '.' in group then group else ParsedAndPrinted(group)
  }

  /** The groups with "::" filled in, as they are spelt. */
  function Expanded(address: string): seq<string> {
    var (before, after) := CutAtPair(address);
    var head := PartsOf(before);
    if after.None? then head
    else
      var tail := PartsOf(CutAtPair(after.value).0);
      head + Zeros(8 - Width(head) - Width(tail)) + tail
  }

  function Ipv6Groups(ip: string): (groups: seq<string>) {
    var spelt := Expanded(Lower(Split(ip, '%')[0]));
    seq(|spelt|, i requires 0 <= i < |spelt| => Normalised(spelt[i]))
  }

  /** `version` is what isIP answers: 4, 6, or 0 for no address. */
  function RateLimitKey(ip: string, version: nat): string {
    if MappedTail(ip).Some? then MappedTail(ip).value
    else if version != 6 then ip
    else
      var groups := Ipv6Groups(ip);
      Join(if |groups| >= 4 then groups[..4] else groups, ":") + "::/64"
  }

  // --- Textual forms and what they mean ---

  datatype Quad = Quad(a: nat, b: nat, c: nat, d: nat)

  /** One way of writing an address: groups of hexadecimal digits, at most one "::" after the first
      `head` of them, an IPv4 tail in place of the last two, a zone. */
  datatype Spelling = Spelling(head: seq<string>, tail: Option<seq<string>>, v4: Option<Quad>, zone: Option<string>)

  function QuadText(q: Quad): string {
    Decimal(q.a) + "." + Decimal(q.b) + "." + Decimal(q.c) + "." + Decimal(q.d)
  }

  predicate IsGroup(s: string) {
    1 <= |s| <= 4 && AllHex(s)
  }

  predicate AreGroups(parts: seq<string>) {
    forall i :: 0 <= i < |parts| ==> IsGroup(parts[i])
  }

  function Written(s: Spelling): nat {
    |s.head| + (if s.tail.Some? then |s.tail.value| else 0) + (if s.v4.Some? then 2 else 0)
  }

  /** Eight groups in all, of which "::" stands for one or more. */
  predicate Valid(s: Spelling) {
    && AreGroups(s.head)
    && (s.tail.Some? ==> AreGroups(s.tail.value))
    && (s.v4.Some? ==> s.v4.value.a < 256 && s.v4.value.b < 256 && s.v4.value.c < 256 && s.v4.value.d < 256)
    && (if s.tail.Some? then Written(s) < 8 else Written(s) == 8)
  }

  function QuadParts(v4: Option<Quad>): seq<string> {
    if v4.Some? then [QuadText(v4.value)] else []
  }

  function HeadParts(s: Spelling): seq<string> {
    if s.tail.Some? then s.head else s.head + QuadParts(s.v4)
  }

  function TailParts(s: Spelling): seq<string>
    requires s.tail.Some?
  {
    s.tail.value + QuadParts(s.v4)
  }

  function AddressText(s: Spelling): string {
    if s.tail.Some? then Join(HeadParts(s), ":") + "::" + Join(TailParts(s), ":") else Join(HeadParts(s), ":")
  }

  function Print(s: Spelling): string {
    AddressText(s) + (if s.zone.Some? then "%" + s.zone.value else "")
  }

  function Values(parts: seq<string>): seq<nat>
    requires AreGroups(parts)
  {
    seq(|parts|, i requires 0 <= i < |parts| => HexValue(parts[i]))
  }

  function QuadValues(v4: Option<Quad>): seq<nat> {
    if v4.Some? then [256 * v4.value.a + v4.value.b, 256 * v4.value.c + v4.value.d] else []
  }

  /** The address itself: eight groups of sixteen bits. */
  function Meaning(s: Spelling): (groups: seq<nat>)
    requires Valid(s)
    ensures |groups| == 8
  {
    if s.tail.Some?
    then Values(s.head) + seq(8 - Written(s), _ => 0) + Values(s.tail.value) + QuadValues(s.v4)
    else Values(s.head) + QuadValues(s.v4)
  }

  // --- Splitting what was joined ---

  lemma {:induction false} SplitPiece(p: string, rest: string, c: char)
    requires c !in p
    ensures Split(p + [c] + rest, c) == [p] + Split(rest, c)
    ensures Split(p, c) == [p]
  {
    var s := p + [c] + rest;
    if p == [] {
      assert s[1..] == rest;
    } else {
      SplitPiece(p[1..], rest, c);
      assert s[1..] == p[1..] + [c] + rest;
      assert [p[0]] + p[1..] == p;
    }
  }

  predicate Free(part: string, c: char) {
    c !in part
  }

  predicate AllFree(parts: seq<string>, c: char) {
    forall i :: 0 <= i < |parts| ==> Free(parts[i], c)
  }

  lemma {:induction false} SplitJoin(parts: seq<string>, c: char)
    requires parts != [] && AllFree(parts, c)
    ensures Split(Join(parts, [c]), c) == parts
  {
    var first, rest := parts[0], parts[1..];
    assert Free(first, c);
    if |parts| == 1 {
      SplitPiece(first, [], c);
    } else {
      SplitJoin(rest, c);
      SplitPiece(first, Join(rest, [c]), c);
      assert [first] + rest == parts;
    }
  }

  lemma LowerAppend(a: string, b: string)
    ensures Lower(a + b) == Lower(a) + Lower(b)
  {
  }

  function LowerParts(parts: seq<string>): (r: seq<string>)
    ensures |r| == |parts|
  {
    seq(|parts|, i requires 0 <= i < |parts| => Lower(parts[i]))
  }

  lemma {:induction false} LowerJoin(parts: seq<string>)
    ensures Lower(Join(parts, ":")) == Join(LowerParts(parts), ":")
  {
    if |parts| > 1 {
      LowerJoin(parts[1..]);
      assert LowerParts(parts)[1..] == LowerParts(parts[1..]);
      LowerAppend(parts[0] + ":", Join(parts[1..], ":"));
      LowerAppend(parts[0], ":");
      assert Lower(":") == ":";
    }
  }

  // --- Hexadecimal ---

  lemma {:induction false} HexTextReadsBack(n: nat)
    ensures HexValue(HexText(n)) == n
  {
    if n >= 16 {
      HexTextReadsBack(n / 16);
      assert HexText(n)[..|HexText(n)| - 1] == HexText(n / 16);
    }
  }

  lemma {:induction false} LowerHex(s: string)
    requires AllHex(s)
    ensures AllHex(Lower(s)) && HexValue(Lower(s)) == HexValue(s)
  {
    if s != [] {
      LowerHex(s[..|s| - 1]);
      assert Lower(s)[..|s| - 1] == Lower(s[..|s| - 1]);
    }
  }

  lemma {:induction false} WholePrefix(s: string)
    requires AllHex(s)
    ensures HexPrefix(s) == s
  {
    if s != [] {
      WholePrefix(s[1..]);
    }
  }

  /** Case and leading zeros leave no trace in a group. */
  lemma NormalisedGroup(s: string)
    requires IsGroup(s)
    ensures Normalised(Lower(s)) == HexText(HexValue(s))
    ensures ':' !in Lower(s) && '.' !in Lower(s) && Lower(s) != []
  {
    LowerHex(s);
    WholePrefix(Lower(s));
  }

  predicate ShortestHex(s: string) {
    && s != [] && (s[0] != '0' || |s| == 1)
    && forall i :: 0 <= i < |s| ==> IsDigit(s[i]) || 'a' <= s[i] <= 'f'
  }

  lemma HexStep(n: nat, d: nat)
    requires n > 0 && d < 16
    ensures HexText(16 * n + d) == HexText(n) + [HexChar(d)]
  {
    assert (16 * n + d) / 16 == n && (16 * n + d) % 16 == d;
  }

  lemma PrintedDigit(c: char)
    requires IsDigit(c) || 'a' <= c <= 'f'
    ensures IsHex(c) && HexChar(HexDigit(c)) == c && (c != '0' ==> HexDigit(c) > 0)
  {
  }

  lemma OneDigitMore(front: string, c: char)
    requires AllHex(front) && IsHex(c) && HexChar(HexDigit(c)) == c
    requires HexValue(front) > 0 ==> HexText(HexValue(front)) == front
    requires HexValue(front) == 0 ==> front == []
    ensures AllHex(front + [c]) && HexValue(front + [c]) == 16 * HexValue(front) + HexDigit(c)
    ensures HexText(HexValue(front + [c])) == front + [c]
  {
    assert (front + [c])[..|front|] == front;
    if front != [] {
      HexStep(HexValue(front), HexDigit(c));
    }
  }

  lemma ShortestFront(s: string)
    requires ShortestHex(s) && |s| > 1
    ensures ShortestHex(s[..|s| - 1]) && s[..|s| - 1][0] != '0'
  {
  }

  /** A group that is lower-case and has no leading zeros is printed as it is. */
  lemma {:induction false} ShortestStays(s: string)
    requires ShortestHex(s)
    ensures AllHex(s) && HexText(HexValue(s)) == s && (s[0] != '0' ==> HexValue(s) > 0)
  {
    var front, c := s[..|s| - 1], s[|s| - 1];
    assert s == front + [c];
    PrintedDigit(c);
    if |s| > 1 {
      ShortestFront(s);
      ShortestStays(front);
    } else {
      assert HexValue(front) == 0;
    }
    OneDigitMore(front, c);
  }

  lemma {:induction false} HexTextIsShortest(n: nat)
    ensures ShortestHex(HexText(n)) && (n > 0 ==> HexText(n)[0] != '0')
  {
    if n >= 16 {
      HexTextIsShortest(n / 16);
    }
  }

  /** So printing finds the one shortest lower-case text of a group's value. */
  lemma PrintedGroupIff(group: string, text: string)
    requires IsGroup(group)
    ensures text == Normalised(Lower(group)) <==> ShortestHex(text) && AllHex(text) && HexValue(text) == HexValue(group)
  {
    NormalisedGroup(group);
    HexTextIsShortest(HexValue(group));
    HexTextReadsBack(HexValue(group));
    if ShortestHex(text) {
      ShortestStays(text);
    }
  }

  // --- Finding the "::" ---

  /** No "::" inside, and no colon at either end. */
  predicate Tidy(s: string) {
    && (s != [] ==> s[0] != ':' && s[|s| - 1] != ':')
    && forall i :: 0 < i < |s| ==> !(s[i - 1] == ':' && s[i] == ':')
  }

  lemma TidyAppend(a: string, b: string)
    requires a != [] && b != [] && Tidy(a) && Tidy(b)
    ensures Tidy(a + ":" + b)
  {
    var s := a + ":" + b;
    forall i | 0 < i < |s|
      ensures !(s[i - 1] == ':' && s[i] == ':')
    {
      if i < |a| {
        assert s[i - 1] == a[i - 1] && s[i] == a[i];
      } else if i == |a| {
        assert s[i - 1] == a[|a| - 1];
      } else if i == |a| + 1 {
        assert s[i] == b[0];
      } else {
        assert s[i - 1] == b[i - |a| - 2] && s[i] == b[i - |a| - 1];
      }
    }
  }

  lemma {:induction false} JoinIsTidy(parts: seq<string>)
    requires AllFree(parts, ':') && AllFilled(parts)
    ensures Tidy(Join(parts, ":")) && (parts != [] <==> Join(parts, ":") != [])
  {
    if parts != [] {
      assert Free(parts[0], ':') && Filled(parts[0]);
      if |parts| > 1 {
        JoinIsTidy(parts[1..]);
        TidyAppend(parts[0], Join(parts[1..], ":"));
      }
    }
  }

  predicate Filled(part: string) {
    part != []
  }

  predicate AllFilled(parts: seq<string>) {
    forall i :: 0 <= i < |parts| ==> Filled(parts[i])
  }

  lemma {:induction false} CutTidy(s: string)
    requires forall i :: 0 < i < |s| ==> !(s[i - 1] == ':' && s[i] == ':')
    ensures CutAtPair(s) == (s, None)
  {
    if |s| >= 2 {
      assert !(s[1 - 1] == ':' && s[1] == ':');
      forall i | 0 < i < |s[1..]|
        ensures !(s[1..][i - 1] == ':' && s[1..][i] == ':')
      {
        assert !(s[i + 1 - 1] == ':' && s[i + 1] == ':');
      }
      CutTidy(s[1..]);
      assert [s[0]] + s[1..] == s;
    }
  }

  lemma {:induction false} CutFinds(s: string, rest: string)
    requires forall i :: 0 < i < |s| ==> !(s[i - 1] == ':' && s[i] == ':')
    requires s != [] ==> s[|s| - 1] != ':'
    ensures CutAtPair(s + "::" + rest) == (s, Some(rest))
  {
    var whole := s + "::" + rest;
    if s == [] {
      assert whole[2..] == rest;
    } else {
      assert whole[1..] == s[1..] + "::" + rest;
      if |s| >= 2 {
        assert !(s[1 - 1] == ':' && s[1] == ':');
      }
      forall i | 0 < i < |s[1..]|
        ensures !(s[1..][i - 1] == ':' && s[1..][i] == ':')
      {
        assert !(s[i + 1 - 1] == ':' && s[i + 1] == ':');
      }
      CutFinds(s[1..], rest);
      assert [s[0]] + s[1..] == s;
    }
  }

  // --- The pieces of a printed address ---

  /** What every piece between colons is like. */
  predicate IsPiece(p: string) {
    p != [] && ':' !in p && '%' !in p
  }

  predicate ArePieces(parts: seq<string>) {
    forall i :: 0 <= i < |parts| ==> IsPiece(parts[i])
  }

  /** A dotted quad is digits and dots, three dots in all. */
  lemma QuadTextIsPlain(q: Quad)
    ensures '.' in QuadText(q) && IsPiece(QuadText(q)) && Lower(QuadText(q)) == QuadText(q)
  {
    var a, b, c, d := Decimal(q.a), Decimal(q.b), Decimal(q.c), Decimal(q.d);
    var t := QuadText(q);
    assert t[|a|] == '.';
    assert forall i :: 0 <= i < |t| ==> IsDigit(t[i]) || t[i] == '.';
  }

  lemma GroupsArePieces(parts: seq<string>, v4: Option<Quad>)
    requires AreGroups(parts)
    ensures ArePieces(parts + QuadParts(v4)) && ArePieces(LowerParts(parts + QuadParts(v4)))
    ensures LowerParts(parts + QuadParts(v4)) == LowerParts(parts) + QuadParts(v4)
  {
    if v4.Some? {
      QuadTextIsPlain(v4.value);
    }
    forall i | 0 <= i < |parts|
      ensures IsPiece(parts[i]) && IsPiece(Lower(parts[i]))
    {
      LowerHex(parts[i]);
    }
  }

  lemma {:induction false} JoinHasNoPercent(parts: seq<string>)
    requires ArePieces(parts)
    ensures '%' !in Join(parts, ":")
  {
    if |parts| > 1 {
      JoinHasNoPercent(parts[1..]);
      assert IsPiece(parts[0]);
    } else if |parts| == 1 {
      assert IsPiece(parts[0]);
    }
  }

  lemma PiecesComeApart(parts: seq<string>)
    requires ArePieces(parts)
    ensures PartsOf(Join(parts, ":")) == parts
    ensures Tidy(Join(parts, ":"))
  {
    assert forall i :: 0 <= i < |parts| ==> IsPiece(parts[i]) ==> Free(parts[i], ':') && Filled(parts[i]);
    JoinIsTidy(parts);
    if parts != [] {
      SplitJoin(parts, ':');
    }
  }

  lemma {:induction false} WidthOfGroups(parts: seq<string>, v4: Option<Quad>)
    requires AreGroups(parts)
    ensures Width(LowerParts(parts) + QuadParts(v4)) == |parts| + (if v4.Some? then 2 else 0)
  {
    var texts := LowerParts(parts) + QuadParts(v4);
    if parts == [] {
      if v4.Some? {
        QuadTextIsPlain(v4.value);
        assert texts == [QuadText(v4.value)];
      }
    } else {
      NormalisedGroup(parts[0]);
      WidthOfGroups(parts[1..], v4);
      assert texts[1..] == LowerParts(parts[1..]) + QuadParts(v4);
    }
  }

  // --- From text to groups ---

  lemma ZoneIsDropped(s: Spelling)
    requires Valid(s)
    ensures Split(Print(s), '%')[0] == AddressText(s)
  {
    if s.tail.Some? {
      GroupsArePieces(s.head, None);
      assert s.head + QuadParts(None) == s.head;
      GroupsArePieces(s.tail.value, s.v4);
      JoinHasNoPercent(TailParts(s));
      JoinHasNoPercent(HeadParts(s));
    } else {
      GroupsArePieces(s.head, s.v4);
      JoinHasNoPercent(HeadParts(s));
    }
    if s.zone.Some? {
      SplitPiece(AddressText(s), s.zone.value, '%');
      assert Print(s) == AddressText(s) + ['%'] + s.zone.value;
    } else {
      SplitPiece(AddressText(s), [], '%');
      assert Print(s) == AddressText(s);
    }
  }

  /** The groups before normalisation, "::" filled in. */
  function Texts(s: Spelling): seq<string>
    requires Valid(s)
  {
    if s.tail.Some?
    then LowerParts(s.head) + Zeros(8 - Written(s)) + LowerParts(s.tail.value) + QuadParts(s.v4)
    else LowerParts(s.head) + QuadParts(s.v4)
  }

  lemma FullExpands(s: Spelling)
    requires Valid(s) && s.tail.None?
    ensures Expanded(Lower(AddressText(s))) == Texts(s)
  {
    GroupsArePieces(s.head, s.v4);
    LowerJoin(HeadParts(s));
    PiecesComeApart(LowerParts(HeadParts(s)));
    CutTidy(Join(LowerParts(HeadParts(s)), ":"));
  }

  /** The address falls into these two lists of pieces around its "::". */
  predicate CutsInto(address: string, head: seq<string>, tail: seq<string>) {
    && CutAtPair(address) == (Join(head, ":"), Some(Join(tail, ":")))
    && CutAtPair(Join(tail, ":")).0 == Join(tail, ":")
    && PartsOf(Join(head, ":")) == head
    && PartsOf(Join(tail, ":")) == tail
  }

  lemma PiecesCut(head: seq<string>, tail: seq<string>)
    requires ArePieces(head) && ArePieces(tail)
    ensures CutsInto(Join(head, ":") + "::" + Join(tail, ":"), head, tail)
  {
    PiecesComeApart(head);
    PiecesComeApart(tail);
    CutFinds(Join(head, ":"), Join(tail, ":"));
    CutTidy(Join(tail, ":"));
  }

  lemma LowerAround(a: string, b: string)
    ensures Lower(a + "::" + b) == Lower(a) + "::" + Lower(b)
  {
    LowerAppend(a + "::", b);
    LowerAppend(a, "::");
    assert Lower("::") == "::";
  }

  lemma CompressedCuts(s: Spelling)
    requires Valid(s) && s.tail.Some?
    ensures CutsInto(Lower(AddressText(s)), LowerParts(s.head), LowerParts(s.tail.value) + QuadParts(s.v4))
  {
    GroupsArePieces(s.head, None);
    assert s.head + QuadParts(None) == s.head;
    GroupsArePieces(s.tail.value, s.v4);
    LowerAround(Join(s.head, ":"), Join(TailParts(s), ":"));
    LowerJoin(s.head);
    LowerJoin(TailParts(s));
    PiecesCut(LowerParts(s.head), LowerParts(s.tail.value) + QuadParts(s.v4));
  }

  lemma ExpandedOf(address: string, head: seq<string>, tail: seq<string>)
    requires CutsInto(address, head, tail)
    ensures Expanded(address) == head + Zeros(8 - Width(head) - Width(tail)) + tail
  {
  }

  lemma CompressedWidths(s: Spelling)
    requires Valid(s) && s.tail.Some?
    ensures Width(LowerParts(s.head)) + Width(LowerParts(s.tail.value) + QuadParts(s.v4)) == Written(s)
  {
    WidthOfGroups(s.head, None);
    assert LowerParts(s.head) + QuadParts(None) == LowerParts(s.head);
    WidthOfGroups(s.tail.value, s.v4);
  }

  lemma CompressedExpands(s: Spelling)
    requires Valid(s) && s.tail.Some?
    ensures Expanded(Lower(AddressText(s))) == Texts(s)
  {
    CompressedCuts(s);
    ExpandedOf(Lower(AddressText(s)), LowerParts(s.head), LowerParts(s.tail.value) + QuadParts(s.v4));
    CompressedWidths(s);
    SameConcat(LowerParts(s.head), Zeros(8 - Written(s)), LowerParts(s.tail.value), QuadParts(s.v4));
  }

  lemma SameConcat(a: seq<string>, b: seq<string>, c: seq<string>, d: seq<string>)
    ensures a + b + (c + d) == a + b + c + d
  {
  }

  /** Whatever the spelling, the code sees the same eight groups, zeros filled in. */
  lemma PrintExpands(s: Spelling)
    requires Valid(s)
    ensures Expanded(Lower(Split(Print(s), '%')[0])) == Texts(s)
  {
    ZoneIsDropped(s);
    if s.tail.None? {
      FullExpands(s);
    } else {
      CompressedExpands(s);
    }
  }

  lemma ZeroGroup()
    ensures Normalised("0") == HexText(0)
  {
    assert HexPrefix("0") == ['0'] + HexPrefix("0"[1..]);
    assert "0"[..0] == [];
    assert HexValue("0") == 0;
  }

  lemma PieceAt<T>(a: seq<T>, b: seq<T>, c: seq<T>, d: seq<T>, i: nat)
    requires i < |a| + |b| + |c|
    ensures (a + b + c + d)[i]
         == if i < |a| then a[i] else if i < |a| + |b| then b[i - |a|] else c[i - |a| - |b|]
  {
  }

  lemma FullTextMeans(s: Spelling, i: nat)
    requires Valid(s) && s.tail.None? && i < 4
    ensures i < |Texts(s)| && Normalised(Texts(s)[i]) == HexText(Meaning(s)[i])
  {
    NormalisedGroup(s.head[i]);
    assert Texts(s)[i] == Lower(s.head[i]) && Meaning(s)[i] == HexValue(s.head[i]);
  }

  /** The pieces of the text against the pieces of the meaning, one by one. */
  lemma CompressedTextMeans(s: Spelling, i: nat)
    requires Valid(s) && s.tail.Some? && i < 4
    ensures i < |Texts(s)| && Normalised(Texts(s)[i]) == HexText(Meaning(s)[i])
  {
    var h, z := |s.head|, 8 - Written(s);
    var zeros: seq<nat> := seq(z, _ => 0);
    PieceAt(LowerParts(s.head), Zeros(z), LowerParts(s.tail.value), QuadParts(s.v4), i);
    PieceAt(Values(s.head), zeros, Values(s.tail.value), QuadValues(s.v4), i);
    assert Meaning(s) == Values(s.head) + zeros + Values(s.tail.value) + QuadValues(s.v4);
    PieceMeans(s.head, z, s.tail.value, i);
  }

  lemma PieceMeans(head: seq<string>, z: nat, tail: seq<string>, i: nat)
    requires AreGroups(head) && AreGroups(tail) && i < |head| + z + |tail|
    ensures i < |head| ==> Normalised(LowerParts(head)[i]) == HexText(Values(head)[i])
    ensures |head| <= i < |head| + z ==> Normalised(Zeros(z)[i - |head|]) == HexText(0)
    ensures |head| + z <= i ==> Normalised(LowerParts(tail)[i - |head| - z]) == HexText(Values(tail)[i - |head| - z])
  {
    if i < |head| {
      NormalisedGroup(head[i]);
    } else if i < |head| + z {
      ZeroGroup();
    } else {
      NormalisedGroup(tail[i - |head| - z]);
    }
  }

  /** An IPv4 tail fills the last two groups, so it is never among the first four. */
  lemma TextMeans(s: Spelling, i: nat)
    requires Valid(s) && i < 4
    ensures i < |Texts(s)| && Normalised(Texts(s)[i]) == HexText(Meaning(s)[i])
  {
    if s.tail.None? {
      FullTextMeans(s, i);
    } else {
      CompressedTextMeans(s, i);
    }
  }

  function Network(s: Spelling): (groups: seq<nat>)
    requires Valid(s)
    ensures |groups| == 4
  {
    Meaning(s)[..4]
  }

  function HexTexts(groups: seq<nat>): seq<string> {
    seq(|groups|, i requires 0 <= i < |groups| => HexText(groups[i]))
  }

  lemma FirstFour(s: Spelling)
    requires Valid(s)
    ensures |Texts(s)| >= 4
    ensures forall i :: 0 <= i < 4 ==> Normalised(Texts(s)[i]) == HexTexts(Network(s))[i]
  {
    forall i: nat | i < 4
      ensures i < |Texts(s)| && Normalised(Texts(s)[i]) == HexTexts(Network(s))[i]
    {
      TextMeans(s, i);
    }
    TextMeans(s, 3);
  }

  lemma GroupsOfSpelling(s: Spelling)
    requires Valid(s)
    ensures |Ipv6Groups(Print(s))| >= 4 && Ipv6Groups(Print(s))[..4] == HexTexts(Network(s))
  {
    PrintExpands(s);
    FirstFour(s);
  }

  lemma KeyOfSpelling(s: Spelling)
    requires Valid(s) && MappedTail(Print(s)).None?
    ensures RateLimitKey(Print(s), 6) == Join(HexTexts(Network(s)), ":") + "::/64"
  {
    GroupsOfSpelling(s);
  }

  lemma NetworkTextIsInjective(a: seq<nat>, b: seq<nat>)
    requires |a| == |b| == 4
    ensures Join(HexTexts(a), ":") == Join(HexTexts(b), ":") <==> a == b
  {
    if Join(HexTexts(a), ":") == Join(HexTexts(b), ":") {
      assert forall i :: 0 <= i < 4 ==> Free(HexTexts(a)[i], ':') && Free(HexTexts(b)[i], ':');
      SplitJoin(HexTexts(a), ':');
      SplitJoin(HexTexts(b), ':');
      forall i | 0 <= i < 4
        ensures a[i] == b[i]
      {
        HexTextReadsBack(a[i]);
        HexTextReadsBack(b[i]);
        assert HexTexts(a)[i] == HexTexts(b)[i];
      }
    }
  }

  /** Two spellings share a bucket exactly when the addresses share their first 64 bits, however
      they are written. */
  lemma SameBucketIffSameNetwork(a: Spelling, b: Spelling)
    requires Valid(a) && Valid(b)
    requires MappedTail(Print(a)).None? && MappedTail(Print(b)).None?
    ensures RateLimitKey(Print(a), 6) == RateLimitKey(Print(b), 6) <==> Network(a) == Network(b)
  {
    KeyOfSpelling(a);
    KeyOfSpelling(b);
    NetworkTextIsInjective(Network(a), Network(b));
    SameSuffix(Join(HexTexts(Network(a)), ":"), Join(HexTexts(Network(b)), ":"), "::/64");
  }

  lemma SameSuffix(x: string, y: string, suffix: string)
    ensures x + suffix == y + suffix <==> x == y
  {
    if x + suffix == y + suffix {
      assert |x + suffix| == |x| + |suffix| && |y + suffix| == |y| + |suffix|;
      assert (x + suffix)[..|x|] == x && (y + suffix)[..|y|] == y;
    }
  }

  // --- IPv4 clients seen through an IPv6 socket ---

  lemma ShortDecimal(n: nat)
    requires n < 256
    ensures 1 <= |Decimal(n)| <= 3
  {
    if n >= 10 {
      assert |Decimal(n / 10)| <= 2;
    }
  }

  lemma QuadIsDotted(q: Quad)
    requires q.a < 256 && q.b < 256 && q.c < 256 && q.d < 256
    ensures IsDotted(QuadText(q))
  {
    var parts := [Decimal(q.a), Decimal(q.b), Decimal(q.c), Decimal(q.d)];
    ShortDecimal(q.a);
    ShortDecimal(q.b);
    ShortDecimal(q.c);
    ShortDecimal(q.d);
    JoinOfFour(parts[0], parts[1], parts[2], parts[3]);
    assert AllFree(parts, '.');
    SplitJoin(parts, '.');
  }

  lemma JoinOfFour(a: string, b: string, c: string, d: string)
    ensures Join([a, b, c, d], ".") == a + "." + b + "." + c + "." + d
  {
    assert [a, b, c, d][1..] == [b, c, d] && [b, c, d][1..] == [c, d] && [c, d][1..] == [d];
    assert Join([c, d], ".") == c + "." + d;
    assert Join([b, c, d], ".") == b + "." + (c + "." + d);
    DotsAssociate(a, b, c, d, ".");
  }

  lemma DotsAssociate(a: string, b: string, c: string, d: string, dot: string)
    ensures a + dot + b + dot + c + dot + d == a + dot + (b + dot + (c + dot + d))
  {
    assert b + dot + (c + dot + d) == b + dot + c + dot + d;
    assert a + dot + b + dot + c + dot + d == a + dot + (b + dot + c + dot + d);
  }

  lemma QuadIsNotMapped(q: Quad)
    ensures MappedTail(QuadText(q)).None?
  {
    var t := QuadText(q);
    assert t[0] == Decimal(q.a)[0];
    if |t| > 7 {
      assert Lower(t[..7])[0] == LowerChar(t[0]);
      assert "::ffff:"[0] == ':';
    }
  }

  lemma MappedPrefix(ffff: string)
    requires Lower(ffff) == "ffff"
    ensures |"::" + ffff + ":"| == 7 && Lower("::" + ffff + ":") == "::ffff:"
  {
    LowerAppend("::" + ffff, ":");
    LowerAppend("::", ffff);
    assert Lower("::") == "::" && Lower(":") == ":";
  }

  /** The dotted form lands in the bucket of the IPv4 address itself. */
  lemma MappedMeetsIpv4(q: Quad, ffff: string)
    requires Lower(ffff) == "ffff"
    requires q.a < 256 && q.b < 256 && q.c < 256 && q.d < 256
    ensures RateLimitKey("::" + ffff + ":" + QuadText(q), 6) == RateLimitKey(QuadText(q), 4) == QuadText(q)
  {
    var prefix, quad := "::" + ffff + ":", QuadText(q);
    QuadIsDotted(q);
    QuadIsNotMapped(q);
    MappedPrefix(ffff);
    assert (prefix + quad)[..7] == prefix && (prefix + quad)[7..] == quad;
    assert quad != [];
  }

  lemma ZeroNetworkText()
    ensures Join(HexTexts([0, 0, 0, 0]), ":") == "0:0:0:0"
  {
    assert HexTexts([0, 0, 0, 0]) == ["0", "0", "0", "0"];
    assert ["0", "0", "0", "0"][1..] == ["0", "0", "0"];
    assert ["0", "0", "0"][1..] == ["0", "0"];
    assert ["0", "0"][1..] == ["0"];
    assert Join(["0", "0"], ":") == "0:0";
    assert Join(["0", "0", "0"], ":") == "0:0:0";
  }

  /** Every other spelling of an IPv4-mapped address falls into one bucket, whatever the IPv4 part. */
  lemma OtherMappedSpellingsMeet(s: Spelling)
    requires Valid(s) && MappedTail(Print(s)).None?
    requires Meaning(s)[..6] == [0, 0, 0, 0, 0, 0xffff]
    ensures RateLimitKey(Print(s), 6) == "0:0:0:0::/64"
  {
    KeyOfSpelling(s);
    assert Network(s) == Meaning(s)[..6][..4] == [0, 0, 0, 0];
    ZeroNetworkText();
    SharedKeyText();
  }

  lemma SharedKeyText()
    ensures "0:0:0:0" + "::/64" == "0:0:0:0::/64"
  {
  }

  // --- Which spellings are recognised ---

  predicate InSome(pieces: seq<string>, ch: char) {
    exists j :: 0 <= j < |pieces| && ch in pieces[j]
  }

  lemma InPiece(pieces: seq<string>, j: nat, ch: char)
    requires j < |pieces| && ch in pieces[j]
    ensures InSome(pieces, ch)
  {
  }

  lemma InLaterPieces(first: string, rest: seq<string>, ch: char)
    requires InSome(rest, ch)
    ensures InSome([first] + rest, ch)
  {
    var j :| 0 <= j < |rest| && ch in rest[j];
    InPiece([first] + rest, j + 1, ch);
  }

  lemma InLongerPiece(c: char, rest: seq<string>, ch: char)
    requires InSome(rest, ch)
    ensures InSome([[c] + rest[0]] + rest[1..], ch)
  {
    var j :| 0 <= j < |rest| && ch in rest[j];
    InPiece([[c] + rest[0]] + rest[1..], j, ch);
  }

  lemma {:induction false} SplitKeepsCharacters(s: string, c: char, k: nat)
    requires k < |s|
    ensures s[k] == c || InSome(Split(s, c), s[k])
  {
    var rest := Split(s[1..], c);
    if k > 0 {
      SplitKeepsCharacters(s[1..], c, k - 1);
      if s[k] != c && s[0] == c {
        InLaterPieces([], rest, s[k]);
      } else if s[k] != c {
        InLongerPiece(s[0], rest, s[k]);
      }
    } else if s[0] != c {
      assert Split(s, c)[0][0] == s[0];
      InPiece(Split(s, c), 0, s[0]);
    }
  }

  lemma SplitFindsSeparator(s: string, c: char)
    requires c !in s
    ensures Split(s, c) == [s]
  {
    SplitPiece(s, [], c);
  }

  predicate DigitsAndDots(s: string) {
    forall i :: 0 <= i < |s| ==> IsDigit(s[i]) || s[i] == '.'
  }

  lemma DottedIsPlain(s: string)
    requires IsDotted(s)
    ensures DigitsAndDots(s) && '.' in s && Lower(s) == s
  {
    if '.' !in s {
      SplitFindsSeparator(s, '.');
      assert false;
    }
    forall i | 0 <= i < |s|
      ensures IsDigit(s[i]) || s[i] == '.'
    {
      SplitKeepsCharacters(s, '.', i);
    }
  }

  predicate IsOctet(s: string) {
    1 <= |s| <= 3 && AllDigits(s)
  }

  ghost predicate FourOctets(s: string, a: string, b: string, c: string, d: string) {
    && s == a + "." + b + "." + c + "." + d
    && IsOctet(a) && IsOctet(b) && IsOctet(c) && IsOctet(d)
  }

  lemma {:induction false} JoinSplit(s: string, c: char)
    ensures Join(Split(s, c), [c]) == s
  {
    if s != [] {
      var rest := Split(s[1..], c);
      JoinSplit(s[1..], c);
      if s[0] == c {
        assert Split(s, c)[1..] == rest;
      } else {
        assert Split(s, c)[1..] == rest[1..];
        assert |rest| > 1 ==> [s[0]] + rest[0] + [c] + Join(rest[1..], [c]) == [s[0]] + Join(rest, [c]);
      }
    }
  }

  lemma OctetsAreDotted(s: string, a: string, b: string, c: string, d: string)
    requires FourOctets(s, a, b, c, d)
    ensures IsDotted(s)
  {
    JoinOfFour(a, b, c, d);
    SplitJoin([a, b, c, d], '.');
  }

  /** The pattern after "::ffff:" is four runs of one to three digits with dots between them. */
  lemma IsDottedIff(s: string)
    ensures IsDotted(s) <==> exists a, b, c, d :: FourOctets(s, a, b, c, d)
  {
    if IsDotted(s) {
      var o := Split(s, '.');
      JoinSplit(s, '.');
      JoinOfFour(o[0], o[1], o[2], o[3]);
      assert o == [o[0], o[1], o[2], o[3]];
      assert FourOctets(s, o[0], o[1], o[2], o[3]);
    }
    forall a, b, c, d | FourOctets(s, a, b, c, d) ensures IsDotted(s) {
      OctetsAreDotted(s, a, b, c, d);
    }
  }

  /** Anything that is no IPv6 address, and is not taken for a mapped one, is its own key. */
  lemma OthersAreTheirOwnKey(ip: string, version: nat)
    requires version != 6
    ensures RateLimitKey(ip, version) == ip <==>
              !(|ip| > 7 && Lower(ip[..7]) == "::ffff:" && exists a, b, c, d :: FourOctets(ip[7..], a, b, c, d))
  {
    if |ip| > 7 {
      IsDottedIff(ip[7..]);
    }
  }

  /** A recognised text has no zone, so it is the address. */
  lemma MappedHasNoZone(s: Spelling)
    requires Valid(s) && MappedTail(Print(s)).Some?
    ensures Print(s) == AddressText(s)
    ensures Lower(AddressText(s)) == "::ffff:" + MappedTail(Print(s)).value
  {
    var ip := Print(s);
    DottedIsPlain(ip[7..]);
    assert ip == ip[..7] + ip[7..];
    LowerAppend(ip[..7], ip[7..]);
    MappedPrefixIsPlain(ip[..7]);
    assert '%' !in ip;
    ZoneHasPercent(s);
  }

  lemma ZoneHasPercent(s: Spelling)
    ensures s.zone.Some? ==> '%' in Print(s)
    ensures s.zone.None? ==> Print(s) == AddressText(s)
  {
    if s.zone.Some? {
      assert Print(s)[|AddressText(s)|] == '%';
    }
  }

  lemma MappedPrefixIsPlain(prefix: string)
    requires Lower(prefix) == "::ffff:"
    ensures '%' !in prefix
  {
    forall i | 0 <= i < |prefix|
      ensures prefix[i] != '%'
    {
      assert Lower(prefix)[i] == LowerChar(prefix[i]);
      assert "::ffff:"[i] != '%';
    }
  }

  /** "::" in front, two pieces behind. */
  lemma MappedPieces(d: string)
    requires DigitsAndDots(d) && d != []
    ensures CutAtPair("::ffff:" + d) == ([], Some("ffff:" + d))
    ensures PartsOf("ffff:" + d) == ["ffff", d]
  {
    assert ("::ffff:" + d)[2..] == "ffff:" + d;
    SplitPiece("ffff", d, ':');
    SplitFindsSeparator(d, ':');
    assert "ffff:" + d == "ffff" + [':'] + d;
  }

  lemma LastPiece(parts: seq<string>, v4: Option<Quad>, first: string, d: string)
    requires AreGroups(parts) && '.' in d
    requires LowerParts(parts) + QuadParts(v4) == [first, d]
    ensures v4.Some? && QuadText(v4.value) == d
  {
    var all := LowerParts(parts) + QuadParts(v4);
    if v4.None? {
      assert all[1] == Lower(parts[1]);
      NormalisedGroup(parts[1]);
    } else {
      assert all[|all| - 1] == QuadText(v4.value);
    }
  }

  /** What is recognised is the IPv4 tail the address was written with. */
  lemma RecognisedTail(s: Spelling)
    requires Valid(s) && MappedTail(Print(s)).Some?
    ensures s.v4.Some? && MappedTail(Print(s)).value == QuadText(s.v4.value)
  {
    var d := MappedTail(Print(s)).value;
    MappedHasNoZone(s);
    DottedIsPlain(d);
    MappedPieces(d);
    if s.tail.None? {
      GroupsArePieces(s.head, s.v4);
      LowerJoin(HeadParts(s));
      PiecesComeApart(LowerParts(HeadParts(s)));
      CutTidy(Join(LowerParts(HeadParts(s)), ":"));
      assert false;
    } else {
      CompressedCuts(s);
      LastPiece(s.tail.value, s.v4, "ffff", d);
    }
  }

  lemma QuadHasNoColon(q: Quad)
    ensures ':' !in QuadText(q)
  {
    QuadTextIsPlain(q);
  }

  lemma SharedKeyHasColon()
    ensures ':' in "0:0:0:0::/64"
  {
    assert "0:0:0:0::/64"[1] == ':';
  }

  lemma SameQuad(s: Spelling, q: Quad)
    requires Valid(s) && s.v4.Some?
    requires q.a < 256 && q.b < 256 && q.c < 256 && q.d < 256
    requires Meaning(s)[6..] == [256 * q.a + q.b, 256 * q.c + q.d]
    ensures s.v4.value == q
  {
    var m := Meaning(s);
    assert m[6] == m[6..][0] && m[7] == m[6..][1];
    assert m[6] == 256 * s.v4.value.a + s.v4.value.b && m[7] == 256 * s.v4.value.c + s.v4.value.d;
  }

  /** An IPv4 client seen through an IPv6 socket has the key of its IPv4 address if and only if the
      text is one the code recognises, the dotted one; in any other spelling it has a key that is no
      IPv4 address's. */
  lemma Ipv4KeyIffRecognised(s: Spelling, q: Quad)
    requires Valid(s) && Meaning(s)[..6] == [0, 0, 0, 0, 0, 0xffff]
    requires q.a < 256 && q.b < 256 && q.c < 256 && q.d < 256
    requires Meaning(s)[6..] == [256 * q.a + q.b, 256 * q.c + q.d]
    ensures RateLimitKey(Print(s), 6) == QuadText(q) <==> MappedTail(Print(s)).Some?
    ensures MappedTail(Print(s)).None? ==> forall other :: RateLimitKey(Print(s), 6) != QuadText(other)
  {
    if MappedTail(Print(s)).Some? {
      RecognisedTail(s);
      SameQuad(s, q);
    } else {
      OtherMappedSpellingsMeet(s);
      SharedKeyHasColon();
      forall other
        ensures RateLimitKey(Print(s), 6) != QuadText(other)
      {
        QuadHasNoColon(other);
      }
      QuadHasNoColon(q);
    }
  }
}
