// Which addresses a server-side fetch may reach: the legacy spellings of an
// IPv4 literal, and the judgement on an address, including the ones that
// embed an IPv4 address.
module Netguard {
  import opened Base
  import opened Text

  // ---------------------------------------------------------------------
  // Numbers as text
  // ---------------------------------------------------------------------

  datatype Radix = Dec | Oct | Hex

  function RadixOf(r: Radix): (b: nat)
    ensures 8 <= b <= 16
  {
    match r
    case Dec => 10
    case Oct => 8
    case Hex => 16
  }

  const LIMIT: nat := 0x1_0000_0000

  // An unsigned number of at most 32 bits; no sign, prefix or separator.
  function ParseUint(s: string, b: nat): Option<nat> {
    if s == "" then None
    else
      var v := ValueOf(s, b);
      if v.None? || v.value >= LIMIT then None else v
  }

  // One component: decimal, 0x hex or 0-prefixed octal.
  function ParsePart(p: string): Option<nat> {
    if p == "" then None
    else if |p| > 2 && (p[..2] == "0x" || p[..2] == "0X") then ParseUint(p[2..], 16)
    else if |p| > 1 && p[0] == '0' then ParseUint(p[1..], 8)
    else ParseUint(p, 10)
  }

  function TrimDot(host: string): string {
    if host != "" && host[|host| - 1] == '.' then host[..|host| - 1] else host
  }

  // ---------------------------------------------------------------------
  // Literals
  // ---------------------------------------------------------------------

  function Parsed(parts: seq<string>): Option<seq<nat>> {
    if parts == [] then Some([])
    else
      var front, last := Parsed(parts[..|parts| - 1]), ParsePart(parts[|parts| - 1]);
      if front.None? || last.None? then None else Some(front.value + [last.value])
  }

  // 256 to the power k.
  function Bytes(k: nat): (p: nat)
    ensures p >= 1
  {
    if k == 0 then 1 else 256 * Bytes(k - 1)
  }

  function HighPart(nums: seq<nat>): nat
    requires |nums| <= 4
  {
    if nums == [] then 0 else HighPart(nums[..|nums| - 1]) + nums[|nums| - 1] * Bytes(4 - |nums|)
  }

  predicate InRange(nums: seq<nat>) {
    && 1 <= |nums| <= 4 && nums[|nums| - 1] < Bytes(5 - |nums|)
    && forall i :: 0 <= i < |nums| - 1 ==> nums[i] <= 0xff
  }

  // The last part fills the remaining bytes.
  function Combined(nums: seq<nat>): Option<nat> {
    if !InRange(nums) then None else Some(HighPart(nums[..|nums| - 1]) + nums[|nums| - 1])
  }

  function InetAton(host: string): Option<nat> {
    var parts := Split(host, '.');
    if |parts| > 4 then None
    else
      var nums := Parsed(parts);
      if nums.None? then None else Combined(nums.value)
  }

  // What the address parser itself accepts as IPv4: four decimal bytes
  // without leading zeros.
  function PlainByte(p: string): Option<nat> {
    if p == "" || (|p| > 1 && p[0] == '0') then None
    else
      var v := ValueOf(p, 10);
      if v.None? || v.value > 0xff then None else v
  }

  function DottedQuad(host: string): Option<nat> {
    var parts := Split(host, '.');
    if |parts| != 4 then None
    else
      var a, b, c, d := PlainByte(parts[0]), PlainByte(parts[1]), PlainByte(parts[2]), PlainByte(parts[3]);
      if a.None? || b.None? || c.None? || d.None? then None
      else Some(a.value * 0x100_0000 + b.value * 0x1_0000 + c.value * 0x100 + d.value)
  }

  function Literal(host: string): Option<nat> {
    var h := TrimDot(host);
    var quad := DottedQuad(h);
    if quad.Some? then quad else InetAton(h)
  }

  lemma {:induction false} ParsedLength(parts: seq<string>)
    ensures Parsed(parts).Some? ==> |Parsed(parts).value| == |parts|
    ensures Parsed(parts).Some? <==> forall i :: 0 <= i < |parts| ==> ParsePart(parts[i]).Some?
    ensures Parsed(parts).Some? ==> forall i :: 0 <= i < |parts| ==> ParsePart(parts[i]) == Some(Parsed(parts).value[i])
  {
    if parts != [] {
      ParsedLength(parts[..|parts| - 1]);
      assert forall i :: 0 <= i < |parts| - 1 ==> parts[..|parts| - 1][i] == parts[i];
    }
  }

  // The parts are read one by one into an array, and then summed up: no two
  // of them share a bit, so a sum is what or-ing them gives.
  method ParseInetAton(host: string) returns (a: Option<nat>)
    ensures a == InetAton(host)
  {
    var parts := Split(host, '.');
    if |parts| > 4 {
      return None;
    }
    ParsedLength(parts);
    var nums := new nat[|parts|];
    for i := 0 to |parts|
      invariant forall j :: 0 <= j < i ==> ParsePart(parts[j]) == Some(nums[j])
    {
      var n := ParsePart(parts[i]);
      if n.None? {
        return None;
      }
      nums[i] := n.value;
    }
    assert nums[..] == Parsed(parts).value by {
      assert forall j :: 0 <= j < |parts| ==> nums[..][j] == Parsed(parts).value[j];
    }
    a := Combine(nums);
  }

  method Combine(nums: array<nat>) returns (a: Option<nat>)
    requires 1 <= nums.Length <= 4
    ensures a == Combined(nums[..])
  {
    var last := nums.Length - 1;
    if nums[last] >= Bytes(4 - last) {
      return None;
    }
    var v := nums[last];
    for i := 0 to last
      invariant forall j :: 0 <= j < i ==> nums[j] <= 0xff
      invariant v == HighPart(nums[..i]) + nums[last]
    {
      if nums[i] > 0xff {
        return None;
      }
      assert nums[..i + 1][..i] == nums[..i];
      v := v + nums[i] * Bytes(3 - i);
    }
    return Some(v);
  }

  method ReadLiteral(host: string) returns (a: Option<nat>)
    ensures a == Literal(host)
  {
    var h := TrimDot(host);
    a := DottedQuad(h);
    if a.None? {
      a := ParseInetAton(h);
    }
  }

  // ---------------------------------------------------------------------
  // Spelling an address
  // ---------------------------------------------------------------------

  function SpellPart(x: nat, r: Radix): string {
    match r
    case Dec => Digits(x, 10)
    case Oct => "0" + Digits(x, 8)
    case Hex => "0x" + Digits(x, 16)
  }

  lemma PartParses(x: nat, r: Radix)
    requires x < LIMIT
    ensures ParsePart(SpellPart(x, r)) == Some(x)
    ensures forall c :: c in SpellPart(x, r) ==> c != '.'
  {
    hide Digits, ValueOf;
    var p, d := SpellPart(x, r), Digits(x, RadixOf(r));
    DigitsParse(x, RadixOf(r));
    match r
    case Dec =>
      if |p| > 1 {
        DecimalHasNoPrefix(x);
      }
    case Oct =>
      assert p[1..] == d && p[1] == d[0] && d[0] in d;
    case Hex =>
      assert p[2..] == d && p[..2] == "0x";
  }

  lemma DecimalHasNoPrefix(x: nat)
    requires |Digits(x, 10)| > 1
    ensures Digits(x, 10)[0] != '0'
  {
  }

  // The numbers that n parts give for an address.
  function PartsOf(v: nat, n: nat): (r: seq<nat>)
    requires v < LIMIT && 1 <= n <= 4
    ensures |r| == n
  {
    match n
    case 1 => [v]
    case 2 => [v / 0x100_0000, v % 0x100_0000]
    case 3 => [v / 0x100_0000, v / 0x1_0000 % 0x100, v % 0x1_0000]
    case _ => [v / 0x100_0000, v / 0x1_0000 % 0x100, v / 0x100 % 0x100, v % 0x100]
  }

  lemma BytesAre()
    ensures Bytes(0) == 1 && Bytes(1) == 0x100 && Bytes(2) == 0x1_0000 && Bytes(3) == 0x100_0000 && Bytes(4) == LIMIT
  {
    assert Bytes(1) == 256 * Bytes(0);
    assert Bytes(2) == 256 * Bytes(1);
    assert Bytes(3) == 256 * Bytes(2);
    assert Bytes(4) == 256 * Bytes(3);
  }

  lemma HighParts(nums: seq<nat>)
    requires |nums| <= 3
    ensures HighPart(nums) ==
      (if |nums| > 0 then nums[0] * 0x100_0000 else 0) + (if |nums| > 1 then nums[1] * 0x1_0000 else 0)
      + if |nums| > 2 then nums[2] * 0x100 else 0
  {
    BytesAre();
    if |nums| == 3 {
      assert HighPart(nums) == HighPart(nums[..2]) + nums[2] * Bytes(1);
      HighPair(nums[..2]);
    } else if |nums| == 2 {
      HighPair(nums);
    } else if |nums| == 1 {
      assert nums[..0] == [];
    }
  }

  lemma HighPair(nums: seq<nat>)
    requires |nums| == 2
    ensures HighPart(nums) == nums[0] * 0x100_0000 + nums[1] * 0x1_0000
  {
    BytesAre();
    assert nums[..1][..0] == [] && HighPart(nums[..1]) == nums[0] * Bytes(3);
  }

  lemma CombinedValue(nums: seq<nat>)
    requires InRange(nums)
    ensures Combined(nums) == Some(nums[|nums| - 1]
      + (if |nums| > 1 then nums[0] * 0x100_0000 else 0) + (if |nums| > 2 then nums[1] * 0x1_0000 else 0)
      + if |nums| > 3 then nums[2] * 0x100 else 0)
  {
    HighParts(nums[..|nums| - 1]);
  }

  // The last part is below what the bytes before it leave.
  lemma RangeIs(nums: seq<nat>)
    requires 1 <= |nums| <= 4
    ensures InRange(nums) <==>
      && (forall i :: 0 <= i < |nums| - 1 ==> nums[i] <= 0xff)
      && nums[|nums| - 1] < if |nums| == 1 then LIMIT else if |nums| == 2 then 0x100_0000 else if |nums| == 3 then 0x1_0000 else 0x100
  {
    BytesAre();
  }

  lemma BytesOf(v: nat)
    requires v < LIMIT
    ensures v / 0x1_0000 == v / 0x100 / 0x100 && v / 0x100_0000 == v / 0x1_0000 / 0x100 && v / 0x100_0000 <= 0xff
    ensures v == v / 0x100_0000 * 0x100_0000 + v / 0x1_0000 % 0x100 * 0x1_0000 + v % 0x1_0000
    ensures v % 0x1_0000 == v / 0x100 % 0x100 * 0x100 + v % 0x100
  {
  }

  lemma PartsRoundTrip(v: nat, n: nat)
    requires v < LIMIT && 1 <= n <= 4
    ensures InRange(PartsOf(v, n)) && Combined(PartsOf(v, n)) == Some(v)
  {
    hide Bytes, HighPart, InRange, Combined;
    BytesOf(v);
    RangeIs(PartsOf(v, n));
    CombinedValue(PartsOf(v, n));
  }

  lemma CombinedRoundTrip(nums: seq<nat>)
    requires InRange(nums)
    ensures Combined(nums).value < LIMIT && PartsOf(Combined(nums).value, |nums|) == nums
  {
    RangeIs(nums);
    CombinedValue(nums);
    hide Bytes, HighPart, InRange, Combined;
    var v := Combined(nums).value;
    if |nums| == 1 {
      assert PartsOf(v, 1) == nums;
    } else if |nums| == 2 {
      assert v / 0x100_0000 == nums[0] && PartsOf(v, 2) == nums;
    } else if |nums| == 3 {
      assert v / 0x100_0000 == nums[0] && v / 0x1_0000 == nums[0] * 0x100 + nums[1];
      assert PartsOf(v, 3) == nums;
    } else {
      assert v / 0x100_0000 == nums[0] && v / 0x1_0000 == nums[0] * 0x100 + nums[1];
      assert v / 0x100 == nums[0] * 0x1_0000 + nums[1] * 0x100 + nums[2];
      assert PartsOf(v, 4) == nums;
    }
  }

  // Numbers are taken exactly when they are in range, and then they are the
  // parts of the address they give.
  lemma CombinedIsExact(nums: seq<nat>, v: nat)
    requires 1 <= |nums| <= 4 && v < LIMIT
    ensures Combined(nums) == Some(v) <==> nums == PartsOf(v, |nums|)
  {
    PartsRoundTrip(v, |nums|);
    if InRange(nums) {
      CombinedRoundTrip(nums);
    }
  }

  // The spelling of an address in n parts, each in its own radix.
  function Spelled(v: nat, radices: seq<Radix>): string
    requires v < LIMIT && 1 <= |radices| <= 4
  {
    Join(Spellings(PartsOf(v, |radices|), radices), '.')
  }

  function Spellings(nums: seq<nat>, radices: seq<Radix>): (r: seq<string>)
    requires |nums| == |radices|
    ensures |r| == |nums|
  {
    seq(|nums|, i requires 0 <= i < |nums| => SpellPart(nums[i], radices[i]))
  }

  lemma SpellingsParse(nums: seq<nat>, radices: seq<Radix>)
    requires |nums| == |radices| && forall i :: 0 <= i < |nums| ==> nums[i] < LIMIT
    ensures Parsed(Spellings(nums, radices)) == Some(nums)
    ensures forall p :: p in Spellings(nums, radices) ==> Free(p, '.')
  {
    var parts := Spellings(nums, radices);
    forall i | 0 <= i < |nums| ensures ParsePart(parts[i]) == Some(nums[i]) && Free(parts[i], '.') {
      PartParses(nums[i], radices[i]);
    }
    ParsedLength(parts);
    assert Parsed(parts).value == nums;
  }

  lemma PartsAreSmall(v: nat, n: nat)
    requires v < LIMIT && 1 <= n <= 4
    ensures forall i :: 0 <= i < n ==> PartsOf(v, n)[i] < LIMIT
  {
  }

  lemma InetAtonReads(v: nat, radices: seq<Radix>)
    requires v < LIMIT && 1 <= |radices| <= 4
    ensures InetAton(Spelled(v, radices)) == Some(v)
  {
    var nums := PartsOf(v, |radices|);
    PartsAreSmall(v, |radices|);
    SpellingsParse(nums, radices);
    SplitJoined(Spellings(nums, radices), '.');
    CombinedIsExact(nums, v);
  }

  // ---------------------------------------------------------------------
  // The two parsers agree
  // ---------------------------------------------------------------------

  lemma PlainByteParses(p: string)
    requires PlainByte(p).Some?
    ensures ParsePart(p) == PlainByte(p)
  {
    assert |p| > 2 ==> p[..2][0] == p[0] && p[0] != '0';
  }

  lemma QuadAgrees(host: string)
    requires DottedQuad(host).Some?
    ensures InetAton(host) == DottedQuad(host)
  {
    var parts := Split(host, '.');
    forall i | 0 <= i < 4 ensures ParsePart(parts[i]) == PlainByte(parts[i]) && PlainByte(parts[i]).Some? {
      PlainByteParses(parts[i]);
    }
    ParsedLength(parts);
    var nums := Parsed(parts).value;
    BytesAre();
    HighParts(nums[..3]);
  }

  lemma {:induction false} LastOfSplit(s: string)
    ensures s != "" && s[|s| - 1] == '.' <==> |Split(s, '.')| > 1 && Split(s, '.')[|Split(s, '.')| - 1] == ""
  {
    if s != "" && s[|s| - 1] != '.' {
      assert Split(s, '.')[|Split(s, '.')| - 1] != "";
    }
  }

  // Every 32-bit address, written in one to four parts, each in decimal,
  // octal or hex, with or without a final dot, is read back.
  lemma SpelledIsRead(v: nat, radices: seq<Radix>)
    requires v < LIMIT && 1 <= |radices| <= 4
    ensures Literal(Spelled(v, radices)) == Some(v) && Literal(Spelled(v, radices) + ".") == Some(v)
  {
    var host := Spelled(v, radices);
    InetAtonReads(v, radices);
    if DottedQuad(host).Some? {
      QuadAgrees(host);
    }
    NoFinalDot(v, radices);
    assert (host + ".")[..|host|] == host;
  }

  lemma NoFinalDot(v: nat, radices: seq<Radix>)
    requires v < LIMIT && 1 <= |radices| <= 4
    ensures TrimDot(Spelled(v, radices)) == Spelled(v, radices)
  {
    var nums := PartsOf(v, |radices|);
    var parts := Spellings(nums, radices);
    PartsAreSmall(v, |radices|);
    SpellingsParse(nums, radices);
    SplitJoined(parts, '.');
    LastOfSplit(Join(parts, '.'));
    assert parts[|parts| - 1] != "" by {
      assert SpellPart(nums[|nums| - 1], radices[|nums| - 1]) != "";
    }
  }

  // And nothing else is read as it: a host that is taken has one to four
  // parts, and they are numbers that spell the address.
  lemma ReadIsSpelled(host: string, v: nat)
    requires Literal(host) == Some(v)
    ensures v < LIMIT
    ensures var parts := Split(TrimDot(host), '.');
      1 <= |parts| <= 4 && Parsed(parts) == Some(PartsOf(v, |parts|))
  {
    var h := TrimDot(host);
    if DottedQuad(h).Some? {
      QuadAgrees(h);
    }
    var parts := Split(h, '.');
    ParsedLength(parts);
    CombinedRoundTrip(Parsed(parts).value);
    CombinedIsExact(Parsed(parts).value, v);
  }

  // ---------------------------------------------------------------------
  // Public addresses
  // ---------------------------------------------------------------------

  const V6_LIMIT: nat := 0x1_0000_0000_0000_0000_0000_0000_0000_0000

  type Addr4 = n: nat | n < LIMIT
  type Addr6 = n: nat | n < V6_LIMIT

  datatype Addr = V4(v4: Addr4) | V6(v6: Addr6)

  // The addresses from base on that share its leading bits.
  datatype Prefix = Prefix4(base: nat, size: nat) | Prefix6(base: nat, size: nat)

  predicate Contains(p: Prefix, a: Addr) {
    match a
    case V4(n) => p.Prefix4? && p.base <= n < p.base + p.size
    case V6(n) => p.Prefix6? && p.base <= n < p.base + p.size
  }

  const SHIFT_16: nat := 0x1_0000_0000_0000_0000_0000_0000_0000    // 2^112
  const SHIFT_32: nat := 0x1_0000_0000_0000_0000_0000_0000         // 2^96
  const SHIFT_48: nat := 0x1_0000_0000_0000_0000_0000              // 2^80
  const SHIFT_64: nat := 0x1_0000_0000_0000_0000                   // 2^64

  const MAPPED := Prefix6(0xffff * LIMIT, LIMIT)
  const NAT64 := Prefix6(0x64_ff9b * SHIFT_32, LIMIT)
  const SIX_TO_FOUR := Prefix6(0x2002 * SHIFT_16, SHIFT_16)

  // What the address type's own predicates cover: unspecified, loopback,
  // private, link-local and multicast.
  const SPECIAL: seq<Prefix> := [
    Prefix4(0, 1), Prefix6(0, 1),
    Prefix4(0x7f00_0000, 0x100_0000), Prefix6(1, 1),
    Prefix4(0x0a00_0000, 0x100_0000), Prefix4(0xac10_0000, 0x10_0000), Prefix4(0xc0a8_0000, 0x1_0000),
    Prefix6(0xfc00 * SHIFT_16, 0x200 * SHIFT_16),
    Prefix4(0xa9fe_0000, 0x1_0000), Prefix6(0xfe80 * SHIFT_16, 0x40 * SHIFT_16),
    Prefix4(0xe000_0000, 0x1000_0000), Prefix6(0xff00 * SHIFT_16, 0x100 * SHIFT_16)]

  const NON_PUBLIC: seq<Prefix> := [
    Prefix4(0, 0x100_0000),
    Prefix4(0x6440_0000, 0x40_0000),
    Prefix4(0xc000_0000, 0x100),
    Prefix4(0xc000_0200, 0x100),
    Prefix4(0xc612_0000, 0x2_0000),
    Prefix4(0xc633_6400, 0x100),
    Prefix4(0xcb00_7100, 0x100),
    Prefix4(0xf000_0000, 0x1000_0000),
    Prefix6(0, LIMIT),
    Prefix6(0x64_ff9b_0001 * SHIFT_48, SHIFT_48),
    Prefix6(0x100 * SHIFT_16, SHIFT_64),
    Prefix6(0x2001_0db8 * SHIFT_32, SHIFT_32),
    Prefix6(0xfec0 * SHIFT_16, 0x40 * SHIFT_16)]

  predicate InSome(ps: seq<Prefix>, a: Addr) { exists i :: 0 <= i < |ps| && Contains(ps[i], a) }

  function Unmapped(a: Addr): Addr { if Contains(MAPPED, a) then V4(a.v6 - MAPPED.base) else a }

  // The IPv4 address a gateway would reach for an IPv6 one.
  function Embedded(a: Addr): Option<Addr4> {
    if Contains(NAT64, a) then Some(a.v6 - NAT64.base)
    else if Contains(SIX_TO_FOUR, a) then Some((a.v6 - SIX_TO_FOUR.base) / SHIFT_48)
    else None
  }

  predicate IsPublic(a: Addr)
    decreases a.V6?
  {
    var u := Unmapped(a);
    if InSome(SPECIAL, u) || InSome(NON_PUBLIC, u) then false
    else
      var e := Embedded(u);
      if e.Some? then IsPublic(V4(e.value)) else true
  }

  // The same by a scan of the list.
  method IsPublicAddr(a: Addr) returns (ok: bool)
    ensures ok == IsPublic(a)
    decreases a.V6?
  {
    var u := Unmapped(a);
    var special := Scan(SPECIAL, u);
    var reserved := Scan(NON_PUBLIC, u);
    if special || reserved {
      return false;
    }
    var e := Embedded(u);
    if e.Some? {
      ok := IsPublicAddr(V4(e.value));
    } else {
      ok := true;
    }
  }

  method Scan(ps: seq<Prefix>, a: Addr) returns (found: bool)
    ensures found == InSome(ps, a)
  {
    for i := 0 to |ps|
      invariant forall j :: 0 <= j < i ==> !Contains(ps[j], a)
    {
      if Contains(ps[i], a) {
        return true;
      }
    }
    return false;
  }

  lemma OutsideSpecial(a: Addr)
    requires a.V6? && 2 <= a.v6 < 0xfc00 * SHIFT_16
    ensures !InSome(SPECIAL, a)
  {
    forall i | 0 <= i < |SPECIAL| ensures !Contains(SPECIAL[i], a) {
    }
  }

  // A NAT64 address is as public as the IPv4 address in its last 32 bits.
  lemma Nat64IsJudgedAsIPv4(v: Addr4)
    ensures IsPublic(V6(0x64_ff9b * SHIFT_32 + v)) <==> IsPublic(V4(v))
  {
    var a := V6(0x64_ff9b * SHIFT_32 + v);
    OutsideSpecial(a);
    forall i | 0 <= i < |NON_PUBLIC| ensures !Contains(NON_PUBLIC[i], a) {
    }
    assert Unmapped(a) == a && Embedded(a) == Some(v);
  }

  // A 6to4 address is as public as the IPv4 address behind its prefix,
  // whatever the rest of it.
  lemma SixToFourIsJudgedAsIPv4(v: Addr4, rest: nat)
    requires rest < SHIFT_48
    ensures 0x2002 * SHIFT_16 + v * SHIFT_48 + rest < V6_LIMIT
    ensures IsPublic(V6(0x2002 * SHIFT_16 + v * SHIFT_48 + rest)) <==> IsPublic(V4(v))
  {
    var a := V6(0x2002 * SHIFT_16 + v * SHIFT_48 + rest);
    OutsideSpecial(a);
    forall i | 0 <= i < |NON_PUBLIC| ensures !Contains(NON_PUBLIC[i], a) {
    }
    assert (v * SHIFT_48 + rest) / SHIFT_48 == v;
    assert Unmapped(a) == a && Embedded(a) == Some(v);
  }

  lemma MappedIsJudgedAsIPv4(v: Addr4)
    ensures IsPublic(V6(0xffff * LIMIT + v)) <==> IsPublic(V4(v))
  {
    assert Unmapped(V6(0xffff * LIMIT + v)) == V4(v) == Unmapped(V4(v));
  }

  // ---------------------------------------------------------------------
  // Which addresses are refused
  // ---------------------------------------------------------------------

  predicate Octet(x: nat) { x < 256 }

  function FromOctets(a: nat, b: nat, c: nat, d: nat): (v: Addr4)
    requires Octet(a) && Octet(b) && Octet(c) && Octet(d)
  {
    ((a * 256 + b) * 256 + c) * 256 + d
  }

  predicate Between(n: nat, low: nat, size: nat) { low <= n < low + size }

  lemma SpecialV4(n: Addr4)
    ensures InSome(SPECIAL, V4(n)) <==>
      || n == 0 || Between(n, 0x7f00_0000, 0x100_0000) || Between(n, 0x0a00_0000, 0x100_0000)
      || Between(n, 0xac10_0000, 0x10_0000) || Between(n, 0xc0a8_0000, 0x1_0000)
      || Between(n, 0xa9fe_0000, 0x1_0000) || Between(n, 0xe000_0000, 0x1000_0000)
  {
    var a := V4(n);
    assert Contains(SPECIAL[0], a) <==> n == 0;
    assert Contains(SPECIAL[2], a) <==> Between(n, 0x7f00_0000, 0x100_0000);
    assert Contains(SPECIAL[4], a) <==> Between(n, 0x0a00_0000, 0x100_0000);
    assert Contains(SPECIAL[5], a) <==> Between(n, 0xac10_0000, 0x10_0000);
    assert Contains(SPECIAL[6], a) <==> Between(n, 0xc0a8_0000, 0x1_0000);
    assert Contains(SPECIAL[8], a) <==> Between(n, 0xa9fe_0000, 0x1_0000);
    assert Contains(SPECIAL[10], a) <==> Between(n, 0xe000_0000, 0x1000_0000);
  }

  lemma ReservedV4(n: Addr4)
    ensures InSome(NON_PUBLIC, V4(n)) <==>
      || n < 0x100_0000 || Between(n, 0x6440_0000, 0x40_0000) || Between(n, 0xc000_0000, 0x100)
      || Between(n, 0xc000_0200, 0x100) || Between(n, 0xc612_0000, 0x2_0000) || Between(n, 0xc633_6400, 0x100)
      || Between(n, 0xcb00_7100, 0x100) || Between(n, 0xf000_0000, 0x1000_0000)
  {
    var a := V4(n);
    assert Contains(NON_PUBLIC[0], a) <==> n < 0x100_0000;
    assert Contains(NON_PUBLIC[1], a) <==> Between(n, 0x6440_0000, 0x40_0000);
    assert Contains(NON_PUBLIC[2], a) <==> Between(n, 0xc000_0000, 0x100);
    assert Contains(NON_PUBLIC[3], a) <==> Between(n, 0xc000_0200, 0x100);
    assert Contains(NON_PUBLIC[4], a) <==> Between(n, 0xc612_0000, 0x2_0000);
    assert Contains(NON_PUBLIC[5], a) <==> Between(n, 0xc633_6400, 0x100);
    assert Contains(NON_PUBLIC[6], a) <==> Between(n, 0xcb00_7100, 0x100);
    assert Contains(NON_PUBLIC[7], a) <==> Between(n, 0xf000_0000, 0x1000_0000);
  }

  // Exactly these IPv4 addresses are not public: this network, private and
  // shared space, loopback, link-local, protocol assignments, the three
  // documentation blocks, benchmarking, multicast and reserved.
  predicate Refused4(a: nat, b: nat, c: nat) {
    || a in {0, 10, 127} || (a == 100 && 64 <= b < 128) || (a == 169 && b == 254) || (a == 172 && 16 <= b < 32)
    || (a == 192 && b == 168) || (a == 192 && b == 0 && c in {0, 2}) || (a == 198 && b in {18, 19})
    || (a == 198 && b == 51 && c == 100) || (a == 203 && b == 0 && c == 113) || a >= 224
  }

  lemma PublicByOctets(a: nat, b: nat, c: nat, d: nat)
    requires Octet(a) && Octet(b) && Octet(c) && Octet(d)
    ensures IsPublic(V4(FromOctets(a, b, c, d))) <==> !Refused4(a, b, c)
  {
    hide InSome;
    var n := FromOctets(a, b, c, d);
    SpecialV4(n);
    ReservedV4(n);
  }

  // The leading four groups of an IPv6 address and the two halves of the rest.
  datatype Groups = Groups(g0: nat, g1: nat, g2: nat, g3: nat, high: nat, low: nat)

  predicate Grouped(g: Groups) {
    g.g0 < 0x1_0000 && g.g1 < 0x1_0000 && g.g2 < 0x1_0000 && g.g3 < 0x1_0000 && g.high < LIMIT && g.low < LIMIT
  }

  function FromGroups(g: Groups): (v: Addr6)
    requires Grouped(g)
  {
    ((((g.g0 * 0x1_0000 + g.g1) * 0x1_0000 + g.g2) * 0x1_0000 + g.g3) * LIMIT + g.high) * LIMIT + g.low
  }

  // Exactly these are not public, embedded addresses aside: ::/96 with the
  // unspecified and the loopback address, unique local, link-local,
  // site-local and multicast ones, local NAT64, discard and documentation.
  predicate Refused6(g: Groups) {
    || (g.g0 == 0 && g.g1 == 0 && g.g2 == 0 && g.g3 == 0 && g.high == 0)
    || 0xfc00 <= g.g0 < 0xfe00 || g.g0 >= 0xfe80
    || (g.g0 == 0x64 && g.g1 == 0xff9b && g.g2 == 1)
    || (g.g0 == 0x100 && g.g1 == 0 && g.g2 == 0 && g.g3 == 0)
    || (g.g0 == 0x2001 && g.g1 == 0xdb8)
  }

  // ::ffff:0:0/96, 64:ff9b::/96 and 2002::/16 hold an IPv4 address.
  function Inner(g: Groups): Option<Addr4>
    requires Grouped(g)
  {
    if g.g0 == 0 && g.g1 == 0 && g.g2 == 0 && g.g3 == 0 && g.high == 0xffff then Some(g.low)
    else if g.g0 == 0x64 && g.g1 == 0xff9b && g.g2 == 0 && g.g3 == 0 && g.high == 0 then Some(g.low)
    else if g.g0 == 0x2002 then Some(g.g1 * 0x1_0000 + g.g2)
    else None
  }

  lemma SpecialV6(n: Addr6)
    ensures InSome(SPECIAL, V6(n)) <==>
      || n < 2 || Between(n, 0xfc00 * SHIFT_16, 0x200 * SHIFT_16) || Between(n, 0xfe80 * SHIFT_16, 0x40 * SHIFT_16)
      || Between(n, 0xff00 * SHIFT_16, 0x100 * SHIFT_16)
  {
    var a := V6(n);
    assert Contains(SPECIAL[1], a) <==> n == 0;
    assert Contains(SPECIAL[3], a) <==> n == 1;
    assert Contains(SPECIAL[7], a) <==> Between(n, 0xfc00 * SHIFT_16, 0x200 * SHIFT_16);
    assert Contains(SPECIAL[9], a) <==> Between(n, 0xfe80 * SHIFT_16, 0x40 * SHIFT_16);
    assert Contains(SPECIAL[11], a) <==> Between(n, 0xff00 * SHIFT_16, 0x100 * SHIFT_16);
  }

  lemma ReservedV6(n: Addr6)
    ensures InSome(NON_PUBLIC, V6(n)) <==>
      || n < LIMIT || Between(n, 0x64_ff9b_0001 * SHIFT_48, SHIFT_48) || Between(n, 0x100 * SHIFT_16, SHIFT_64)
      || Between(n, 0x2001_0db8 * SHIFT_32, SHIFT_32) || Between(n, 0xfec0 * SHIFT_16, 0x40 * SHIFT_16)
  {
    var a := V6(n);
    assert Contains(NON_PUBLIC[8], a) <==> n < LIMIT;
    assert Contains(NON_PUBLIC[9], a) <==> Between(n, 0x64_ff9b_0001 * SHIFT_48, SHIFT_48);
    assert Contains(NON_PUBLIC[10], a) <==> Between(n, 0x100 * SHIFT_16, SHIFT_64);
    assert Contains(NON_PUBLIC[11], a) <==> Between(n, 0x2001_0db8 * SHIFT_32, SHIFT_32);
    assert Contains(NON_PUBLIC[12], a) <==> Between(n, 0xfec0 * SHIFT_16, 0x40 * SHIFT_16);
  }

  lemma LowGroups(g: Groups)
    requires Grouped(g)
    ensures var n := FromGroups(g);
      && (n < LIMIT <==> g.g0 == 0 && g.g1 == 0 && g.g2 == 0 && g.g3 == 0 && g.high == 0)
      && (Between(n, 0xffff * LIMIT, LIMIT) <==> g.g0 == 0 && g.g1 == 0 && g.g2 == 0 && g.g3 == 0 && g.high == 0xffff)
      && (Between(n, 0x64_ff9b * SHIFT_32, LIMIT) <==>
            g.g0 == 0x64 && g.g1 == 0xff9b && g.g2 == 0 && g.g3 == 0 && g.high == 0)
  {
  }

  lemma HighGroups(g: Groups)
    requires Grouped(g)
    ensures var n := FromGroups(g);
      && (Between(n, 0x64_ff9b_0001 * SHIFT_48, SHIFT_48) <==> g.g0 == 0x64 && g.g1 == 0xff9b && g.g2 == 1)
      && (Between(n, 0x100 * SHIFT_16, SHIFT_64) <==> g.g0 == 0x100 && g.g1 == 0 && g.g2 == 0 && g.g3 == 0)
      && (Between(n, 0x2001_0db8 * SHIFT_32, SHIFT_32) <==> g.g0 == 0x2001 && g.g1 == 0xdb8)
  {
  }

  lemma FirstGroup(g: Groups, base: nat, size: nat)
    requires Grouped(g)
    ensures Between(FromGroups(g), base * SHIFT_16, size * SHIFT_16) <==> base <= g.g0 < base + size
  {
    var rest := FromGroups(g) - g.g0 * SHIFT_16;
    assert 0 <= rest < SHIFT_16;
    GroupOrder(g.g0, rest, base);
    GroupOrder(g.g0, rest, base + size);
  }

  lemma GroupOrder(g: nat, rest: nat, base: nat)
    requires rest < SHIFT_16
    ensures base * SHIFT_16 <= g * SHIFT_16 + rest <==> base <= g
  {
    if base <= g {
      assert g * SHIFT_16 == base * SHIFT_16 + (g - base) * SHIFT_16;
    } else {
      assert base * SHIFT_16 == g * SHIFT_16 + (base - g) * SHIFT_16;
    }
  }

  // An IPv6 address is as public as the IPv4 address it holds; else it is
  // public exactly when it is none of the refused ones.
  lemma PublicByGroups(g: Groups)
    requires Grouped(g)
    ensures IsPublic(V6(FromGroups(g))) <==>
      if Inner(g).Some? then IsPublic(V4(Inner(g).value)) else !Refused6(g)
  {
    hide InSome, FromGroups;
    var n := FromGroups(g);
    LowGroups(g);
    HighGroups(g);
    FirstGroup(g, 0xfc00, 0x200);
    FirstGroup(g, 0xfe80, 0x40);
    FirstGroup(g, 0xfec0, 0x40);
    FirstGroup(g, 0xff00, 0x100);
    SpecialV6(n);
    ReservedV6(n);
    InnerIsEmbedded(g);
  }

  lemma InnerIsEmbedded(g: Groups)
    requires Grouped(g)
    ensures var a := V6(FromGroups(g));
      Inner(g) == if Contains(MAPPED, a) then Some(a.v6 - MAPPED.base) else Embedded(a)
  {
    LowGroups(g);
    FirstGroup(g, 0x2002, 1);
    if g.g0 == 0x2002 {
      SixToFourGroups(g);
    }
  }

  lemma SixToFourGroups(g: Groups)
    requires Grouped(g)
    ensures (FromGroups(g) - g.g0 * SHIFT_16) / SHIFT_48 == g.g1 * 0x1_0000 + g.g2
  {
    var rest := g.g3 * SHIFT_64 + g.high * LIMIT + g.low;
    assert FromGroups(g) - g.g0 * SHIFT_16 == (g.g1 * 0x1_0000 + g.g2) * SHIFT_48 + rest;
    assert rest < SHIFT_48;
  }

  // Every address has octets or groups.
  lemma HasOctets(n: Addr4) returns (a: nat, b: nat, c: nat, d: nat)
    ensures Octet(a) && Octet(b) && Octet(c) && Octet(d) && FromOctets(a, b, c, d) == n
  {
    var x := n / 256;
    var y := x / 256;
    a, b, c, d := y / 256, y % 256, x % 256, n % 256;
  }

  lemma HasGroups(n: Addr6) returns (g: Groups)
    ensures Grouped(g) && FromGroups(g) == n
  {
    var n1 := n / LIMIT;
    var n2 := n1 / LIMIT;
    var n3 := n2 / 0x1_0000;
    var n4 := n3 / 0x1_0000;
    g := Groups(n4 / 0x1_0000, n4 % 0x1_0000, n3 % 0x1_0000, n2 % 0x1_0000, n1 % LIMIT, n % LIMIT);
  }
}
