/** Dotted quads: the parser, and the blocked ranges matched by 32-bit masks. */
module Ipv4 {
  import opened Wrappers
  import opened Bits
  import opened Numbers
  import opened Text

  // ----- Parsing -----

  predicate IsOctetText(part: string) {
    1 <= |part| <= 3 && forall c :: c in part ==> IsDigit(c)
  }

  function Octet(part: string): Option<nat> {
    if IsOctetText(part) && Value(part, 10) <= 255 then Some(Value(part, 10)) else None
  }

  function FoldOctets(parts: seq<string>, value: nat): Option<nat> {
    if parts == [] then Some(value)
    else match Octet(parts[0])
      case None => None
      case Some(octet) => FoldOctets(parts[1..], value * 256 + octet)
  }

  function Ipv4Int(ip: string): Option<nat> {
    var parts := Split(ip, '.');
    if |parts| != 4 then None
    else match FoldOctets(parts, 0)
      case None => None
      case Some(value) => Some(ToUint32(value))
  }

  method Ipv4ToInt(ip: string) returns (r: Option<nat>)
    ensures r == Ipv4Int(ip)
  {
    var parts := Split(ip, '.');
    if |parts| != 4 {
      return None;
    }
    var value: nat := 0;
    var i := 0;
    while i < 4
      invariant 0 <= i <= 4
      invariant FoldOctets(parts[i..], value) == FoldOctets(parts, 0)
    {
      var part := parts[i];
      assert parts[i..][0] == part && parts[i..][1..] == parts[i + 1..];
      if !IsOctetText(part) {
        return None;
      }
      var octet := Value(part, 10);
      if octet > 255 {
        return None;
      }
      value := value * 256 + octet;
      i := i + 1;
    }
    return Some(ToUint32(value));
  }

  function QuadValue(a: nat, b: nat, c: nat, d: nat): nat {
    ((a * 256 + b) * 256 + c) * 256 + d
  }

  lemma {:induction false} FoldNeedsOctets(parts: seq<string>, value: nat, i: nat)
    requires i < |parts| && Octet(parts[i]).None?
    ensures FoldOctets(parts, value).None?
    decreases |parts|
  {
    if i > 0 && Octet(parts[0]).Some? {
      FoldNeedsOctets(parts[1..], value * 256 + Octet(parts[0]).value, i - 1);
    }
  }

  predicate AreOctets(p: seq<string>) {
    |p| == 4 && Octet(p[0]).Some? && Octet(p[1]).Some? && Octet(p[2]).Some? && Octet(p[3]).Some?
  }

  function TextQuad(p: seq<string>): nat
    requires AreOctets(p)
  {
    QuadValue(Octet(p[0]).value, Octet(p[1]).value, Octet(p[2]).value, Octet(p[3]).value)
  }

  lemma FoldsToQuad(p: seq<string>)
    requires |p| == 4
    ensures FoldOctets(p, 0) == if AreOctets(p) then Some(TextQuad(p)) else None
  {
    if !AreOctets(p) {
      var i :| 0 <= i < 4 && Octet(p[i]).None?;
      FoldNeedsOctets(p, 0, i);
    } else {
      var v0 := Octet(p[0]).value;
      var v1 := v0 * 256 + Octet(p[1]).value;
      var v2 := v1 * 256 + Octet(p[2]).value;
      assert FoldOctets(p[3..][1..], TextQuad(p)) == Some(TextQuad(p));
      assert p[2..][1..] == p[3..] && FoldOctets(p[3..], v2) == Some(TextQuad(p));
      assert p[1..][1..] == p[2..] && FoldOctets(p[2..], v1) == Some(TextQuad(p));
      assert FoldOctets(p[1..], v0) == Some(TextQuad(p));
    }
  }

  /** Four octet texts joined by dots parse to their value... */
  lemma QuadTextParses(p: seq<string>)
    requires AreOctets(p)
    ensures Ipv4Int(Join(p, '.')) == Some(TextQuad(p)) && TextQuad(p) < 0x1_0000_0000
  {
    forall x | x in p ensures '.' !in x {
      var i :| 0 <= i < |p| && p[i] == x;
      assert IsOctetText(p[i]);
    }
    SplitJoin(p, '.');
    FoldsToQuad(p);
  }

  /** ...and nothing else parses. */
  lemma ParsedTextIsQuad(ip: string)
    requires Ipv4Int(ip).Some?
    ensures AreOctets(Split(ip, '.')) && ip == Join(Split(ip, '.'), '.')
    ensures Ipv4Int(ip).value == TextQuad(Split(ip, '.')) < 0x1_0000_0000
  {
    JoinSplit(ip, '.');
    FoldsToQuad(Split(ip, '.'));
  }

  /** A text of one to three digits, 255 at most. */
  predicate UpTo255(part: string) {
    1 <= |part| <= 3 && AllDigits(part) && Value(part, 10) <= 255
  }

  lemma OctetIff(part: string)
    ensures Octet(part).Some? <==> UpTo255(part)
    ensures UpTo255(part) ==> Octet(part).value == Value(part, 10)
  {
    assert AllDigits(part) <==> forall c :: c in part ==> IsDigit(c) by {
      assert forall i :: 0 <= i < |part| ==> part[i] in part;
    }
  }

  /** A text parses exactly when it is four such texts with dots between, and then to their value in base 256. */
  lemma ParsesExactly(ip: string)
    ensures var p := Split(ip, '.');
      && ip == Join(p, '.')
      && (Ipv4Int(ip).Some? <==> |p| == 4 && UpTo255(p[0]) && UpTo255(p[1]) && UpTo255(p[2]) && UpTo255(p[3]))
      && (Ipv4Int(ip).Some? ==>
            Ipv4Int(ip).value == Value(p[0], 10) * 0x100_0000 + Value(p[1], 10) * 0x1_0000
                                 + Value(p[2], 10) * 0x100 + Value(p[3], 10))
  {
    var p := Split(ip, '.');
    JoinSplit(ip, '.');
    if |p| == 4 {
      OctetIff(p[0]);
      OctetIff(p[1]);
      OctetIff(p[2]);
      OctetIff(p[3]);
      if AreOctets(p) {
        QuadTextParses(p);
      }
    }
    if Ipv4Int(ip).Some? {
      ParsedTextIsQuad(ip);
    }
  }

  lemma ParsedIsWord(ip: string)
    requires Ipv4Int(ip).Some?
    ensures Ipv4Int(ip).value < 0x1_0000_0000
  {
    ParsedTextIsQuad(ip);
  }

  /** `[a, b, c, d].join('.')`. */
  function PrintQuad(a: nat, b: nat, c: nat, d: nat): string {
    Join([Print(a, 10), Print(b, 10), Print(c, 10), Print(d, 10)], '.')
  }

  lemma PrintedOctet(n: nat)
    requires n < 256
    ensures Octet(Print(n, 10)) == Some(n)
  {
    ValueOfPrint(n, 10);
    PrintLength(n, 10, 3);
  }

  lemma PrintedQuadParses(a: nat, b: nat, c: nat, d: nat)
    requires a < 256 && b < 256 && c < 256 && d < 256
    ensures Ipv4Int(PrintQuad(a, b, c, d)) == Some(QuadValue(a, b, c, d)) && QuadValue(a, b, c, d) < 0x1_0000_0000
  {
    PrintedOctet(a);
    PrintedOctet(b);
    PrintedOctet(c);
    PrintedOctet(d);
    QuadTextParses([Print(a, 10), Print(b, 10), Print(c, 10), Print(d, 10)]);
  }

  // ----- Blocked ranges -----

  datatype Cidr = Cidr(base: string, bits: nat)

  /** Four octets and a prefix length. */
  datatype Block = Block(a: nat, b: nat, c: nat, d: nat, bits: nat)

  const BLOCKS: seq<Block> := [
    Block(0, 0, 0, 0, 8), Block(10, 0, 0, 0, 8), Block(100, 64, 0, 0, 10), Block(127, 0, 0, 0, 8),
    Block(169, 254, 0, 0, 16), Block(172, 16, 0, 0, 12), Block(192, 0, 0, 0, 24), Block(192, 0, 2, 0, 24),
    Block(192, 168, 0, 0, 16), Block(198, 18, 0, 0, 15), Block(198, 51, 100, 0, 24), Block(203, 0, 113, 0, 24),
    Block(224, 0, 0, 0, 4), Block(240, 0, 0, 0, 4)]

  /** A row of the table: the base as a dotted text, and the prefix length. */
  function Row(b: Block): Cidr {
    Cidr(PrintQuad(b.a, b.b, b.c, b.d), b.bits)
  }

  function Mask(bits: nat): nat
    requires bits <= 32
  {
    if bits == 0 then 0 else ToUint32(ShiftLeft(0xffffffff, 32 - bits))
  }

  predicate Matches(address: nat, cidr: Cidr)
    requires cidr.bits <= 32
  {
    match Ipv4Int(cidr.base)
    case None => false
    case Some(network) => BitAnd(address, Mask(cidr.bits)) == BitAnd(network, Mask(cidr.bits))
  }

  predicate IsBlockedIpv4(ip: string) {
    match Ipv4Int(ip)
    case None => true
    case Some(address) => exists i :: 0 <= i < |BLOCKS| && Matches(address, Row(BLOCKS[i]))
  }

  lemma MaskIsHighOnes(bits: nat)
    requires bits <= 32
    ensures Mask(bits) == Pow2(32) - Pow2(32 - bits) < 0x1_0000_0000
  {
    WordIsPow();
    if bits > 0 {
      var p := Pow2(32 - bits);
      PowsGrow(32 - bits, 31);
      assert Pow2(32) == 2 * Pow2(31);
      assert 0xffffffff * p == 0x1_0000_0000 * (p - 1) + (0x1_0000_0000 - p);
      DivModUnique(0xffffffff * p, 0x1_0000_0000, p - 1, 0x1_0000_0000 - p);
    }
  }

  lemma MaskRoundsDown(x: nat, bits: nat)
    requires x < 0x1_0000_0000 && bits <= 32
    ensures BitAnd(x, Mask(bits)) == ToInt32(x - x % Pow2(32 - bits))
    ensures 0 <= x - x % Pow2(32 - bits) < 0x1_0000_0000
  {
    WordIsPow();
    MaskIsHighOnes(bits);
    var size := Pow2(32 - bits);
    BitAndOfWords(x, Mask(bits));
    RoundsDown(x, size);
    AndHighOnes(x, 32 - bits, 32);
  }

  lemma ToInt32Injective(x: nat, y: nat)
    requires x < 0x1_0000_0000 && y < 0x1_0000_0000
    ensures ToInt32(x) == ToInt32(y) <==> x == y
  {
  }

  lemma SameBlock(a: nat, n: nat, size: nat)
    requires size > 0
    ensures var low := n - n % size; a - a % size == low <==> low <= a <= low + size - 1
  {
    var p, q := a / size, n / size;
    assert a == size * p + a % size && n == size * q + n % size;
    if p < q {
      MulStep(size, p, q);
    } else if q < p {
      MulStep(size, q, p);
    }
  }

  /** The mask test is a test for the block of 2^(32-bits) addresses that `network` lies in. */
  lemma MaskTestIsRange(address: nat, network: nat, bits: nat)
    requires address < 0x1_0000_0000 && network < 0x1_0000_0000 && bits <= 32
    ensures var size := Pow2(32 - bits);
      var low := network - network % size;
      BitAnd(address, Mask(bits)) == BitAnd(network, Mask(bits)) <==> low <= address <= low + size - 1
  {
    MaskRoundsDown(address, bits);
    MaskRoundsDown(network, bits);
    var size := Pow2(32 - bits);
    ToInt32Injective(address - address % size, network - network % size);
    SameBlock(address, network, size);
  }

  /** The first and the last address of each row of the table. */
  const RANGES: seq<(nat, nat)> := [
    (QuadValue(0, 0, 0, 0), QuadValue(0, 255, 255, 255)),
    (QuadValue(10, 0, 0, 0), QuadValue(10, 255, 255, 255)),
    (QuadValue(100, 64, 0, 0), QuadValue(100, 127, 255, 255)),
    (QuadValue(127, 0, 0, 0), QuadValue(127, 255, 255, 255)),
    (QuadValue(169, 254, 0, 0), QuadValue(169, 254, 255, 255)),
    (QuadValue(172, 16, 0, 0), QuadValue(172, 31, 255, 255)),
    (QuadValue(192, 0, 0, 0), QuadValue(192, 0, 0, 255)),
    (QuadValue(192, 0, 2, 0), QuadValue(192, 0, 2, 255)),
    (QuadValue(192, 168, 0, 0), QuadValue(192, 168, 255, 255)),
    (QuadValue(198, 18, 0, 0), QuadValue(198, 19, 255, 255)),
    (QuadValue(198, 51, 100, 0), QuadValue(198, 51, 100, 255)),
    (QuadValue(203, 0, 113, 0), QuadValue(203, 0, 113, 255)),
    (QuadValue(224, 0, 0, 0), QuadValue(239, 255, 255, 255)),
    (QuadValue(240, 0, 0, 0), QuadValue(255, 255, 255, 255))]

  predicate InRange(v: nat, i: nat)
    requires i < |RANGES|
  {
    RANGES[i].0 <= v <= RANGES[i].1
  }

  lemma SomePowers()
    ensures Pow2(8) == 0x100 && Pow2(16) == 0x1_0000 && Pow2(17) == 0x2_0000 && Pow2(20) == 0x10_0000
    ensures Pow2(22) == 0x40_0000 && Pow2(24) == 0x100_0000 && Pow2(28) == 0x1000_0000
  {
    assert Pow2(4) == 16;
    PowAdds(4, 4);
    PowAdds(8, 8);
    PowAdds(16, 4);
    PowAdds(20, 4);
    PowAdds(24, 4);
    assert Pow2(17) == 2 * Pow2(16) && Pow2(21) == 2 * Pow2(20) && Pow2(22) == 2 * Pow2(21);
  }

  predicate IsBlock(b: Block) {
    b.a < 256 && b.b < 256 && b.c < 256 && b.d < 256 && b.bits <= 32
  }

  /** The size of a block of the table. */
  function Size(bits: nat): nat {
    match bits
    case 4 => 0x1000_0000
    case 8 => 0x100_0000
    case 10 => 0x40_0000
    case 12 => 0x10_0000
    case 15 => 0x2_0000
    case 16 => 0x1_0000
    case _ => 0x100
  }

  /** Every block spans its range, and its base is so many times its size. */
  lemma SpanOfBlock(i: nat)
    requires i < |BLOCKS|
    ensures |BLOCKS| == |RANGES| && IsBlock(BLOCKS[i]) && BLOCKS[i].bits in {4, 8, 10, 12, 15, 16, 24}
    ensures var b := BLOCKS[i];
      var network := QuadValue(b.a, b.b, b.c, b.d);
      network % Size(b.bits) == 0 && RANGES[i] == (network, network + Size(b.bits) - 1)
  {
    match i
    case 0 =>
    case 1 =>
    case 2 =>
    case 3 =>
    case 4 =>
    case 5 =>
    case 6 =>
    case 7 =>
    case 8 =>
    case 9 =>
    case 10 =>
    case 11 =>
    case 12 =>
    case _ =>
  }

  /** Every block is aligned, and spans its range. */
  lemma RangeOfBlock(i: nat)
    requires i < |BLOCKS|
    ensures |BLOCKS| == |RANGES| && IsBlock(BLOCKS[i])
    ensures var b := BLOCKS[i];
      var network, size := QuadValue(b.a, b.b, b.c, b.d), Pow2(32 - b.bits);
      network % size == 0 && RANGES[i] == (network, network + size - 1)
  {
    SomePowers();
    SpanOfBlock(i);
    assert Pow2(32 - BLOCKS[i].bits) == Size(BLOCKS[i].bits);
  }

  lemma RowMatches(v: nat, i: nat)
    requires v < 0x1_0000_0000 && i < |RANGES|
    ensures Matches(v, Row(BLOCKS[i])) <==> InRange(v, i)
  {
    var b := BLOCKS[i];
    RangeOfBlock(i);
    PrintedQuadParses(b.a, b.b, b.c, b.d);
    MaskTestIsRange(v, QuadValue(b.a, b.b, b.c, b.d), b.bits);
  }

  predicate BlockedValue(v: nat) {
    exists i :: 0 <= i < |RANGES| && InRange(v, i)
  }

  /** An address is blocked exactly when it does not parse or lies in one of the ranges. */
  lemma BlockedIffInRange(ip: string)
    ensures IsBlockedIpv4(ip) <==>
      Ipv4Int(ip).None? || BlockedValue(Ipv4Int(ip).value)
  {
    if Ipv4Int(ip).Some? {
      var v := Ipv4Int(ip).value;
      ParsedTextIsQuad(ip);
      forall i | 0 <= i < |RANGES| ensures Matches(v, Row(BLOCKS[i])) <==> InRange(v, i) {
        RowMatches(v, i);
      }
    }
  }
}
