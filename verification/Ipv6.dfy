/** Which addresses server-side requests may dial. */
module Ipv6 {
  import opened Wrappers
  import opened Bits
  import opened Numbers
  import opened Text
  import opened Ipv4
  import opened Ipv6Text
  import opened Ipv6Spelling

  type Groups = seq<nat>

  predicate IsAddress(g: Groups) {
    |g| == 8 && forall i :: 0 <= i < 8 ==> g[i] < 0x1_0000
  }

  predicate ZeroFrom(g: Groups, lo: nat, hi: nat)
    requires lo <= hi <= |g|
  {
    forall i :: lo <= i < hi ==> g[i] == 0
  }

  /** Two hextets printed as a dotted quad. */
  function EmbeddedQuad(high: nat, low: nat): string
    requires high < 0x1_0000 && low < 0x1_0000
  {
    PrintQuad(HighByte(high), LowByte(high), HighByte(low), LowByte(low))
  }

  /** IPv4-mapped, IPv4-compatible and NAT64 addresses carry an IPv4 address in the last two groups. */
  predicate EmbedsAtEnd(g: Groups)
    requires IsAddress(g)
  {
    || (ZeroFrom(g, 0, 5) && g[5] == 0xffff)
    || ZeroFrom(g, 0, 6)
    || (g[0] == 0x64 && g[1] == 0xff9b && ZeroFrom(g, 2, 6))
  }

  /** The verdict on eight groups, branch by branch. */
  predicate IsBlockedGroups(g: Groups)
    requires IsAddress(g)
  {
    if EmbedsAtEnd(g) then IsBlockedIpv4(EmbeddedQuad(g[6], g[7]))
    else if g[0] == 0x2002 then IsBlockedIpv4(EmbeddedQuad(g[1], g[2]))
    else if ZeroFrom(g, 0, 8) then true
    else if ZeroFrom(g, 0, 7) && g[7] == 1 then true
    else if BitAnd(g[0], 0xfe00) == 0xfc00 then true
    else if BitAnd(g[0], 0xffc0) == 0xfe80 then true
    else BitAnd(g[0], 0xff00) == 0xff00
  }

  predicate IsBlockedIpv6(ip: string) {
    match ExpandIpv6(ip)
    case None => true
    case Some(g) => !IsAddress(g) || IsBlockedGroups(g)
  }

  /** `isIP`: the library's test of a text, 4, 6 or 0. */
  predicate IsBlockedAddress(ip: string, isIP: string -> nat) {
    var version := isIP(ip);
    if version == 4 then IsBlockedIpv4(ip)
    else if version == 6 then IsBlockedIpv6(ip)
    else true
  }

  // ----- Embedded addresses -----

  /** The 32-bit value two hextets hold. */
  function WordOf(high: nat, low: nat): nat {
    high * 0x1_0000 + low
  }

  lemma EmbeddedQuadIs(high: nat, low: nat)
    requires high < 0x1_0000 && low < 0x1_0000
    ensures EmbeddedQuad(high, low) == PrintQuad(high / 256, high % 256, low / 256, low % 256)
  {
  }

  lemma EmbeddedParses(high: nat, low: nat)
    requires high < 0x1_0000 && low < 0x1_0000
    ensures Ipv4Int(EmbeddedQuad(high, low)) == Some(WordOf(high, low))
  {
    EmbeddedQuadIs(high, low);
    PrintedQuadParses(high / 256, high % 256, low / 256, low % 256);
    WordIsQuad(high, low);
  }

  lemma WordIsQuad(high: nat, low: nat)
    ensures WordOf(high, low) == QuadValue(high / 256, high % 256, low / 256, low % 256)
  {
  }

  /** Printing an embedded address and parsing it back gives the verdict on its value. */
  lemma EmbeddedVerdict(high: nat, low: nat)
    requires high < 0x1_0000 && low < 0x1_0000
    ensures IsBlockedIpv4(EmbeddedQuad(high, low)) <==> BlockedValue(WordOf(high, low))
  {
    EmbeddedParses(high, low);
    BlockedIffInRange(EmbeddedQuad(high, low));
  }

  lemma ThisNetworkBlocked(v: nat)
    requires v <= 1
    ensures BlockedValue(v)
  {
    assert InRange(v, 0);
  }

  /** Rounding down to a block gives its first number exactly for the numbers in it. */
  lemma BlockOf(x: nat, size: nat, block: nat)
    requires size > 0
    ensures x - x % size == size * block <==> size * block <= x < size * block + size
  {
    if size * block <= x < size * block + size {
      DivModUnique(x, size, block, x - size * block);
    }
  }

  lemma UniqueLocalTest(x: nat)
    requires x < 0x1_0000
    ensures BitAnd(x, 0xfe00) == 0xfc00 <==> 0xfc00 <= x <= 0xfdff
  {
    assert Pow2(8) == 256 && Pow2(9) == 2 * Pow2(8);
    MaskHextet(x, 9, 512);
    BlockOf(x, 512, 126);
  }

  lemma LinkLocalTest(x: nat)
    requires x < 0x1_0000
    ensures BitAnd(x, 0xffc0) == 0xfe80 <==> 0xfe80 <= x <= 0xfebf
  {
    assert Pow2(6) == 64;
    MaskHextet(x, 6, 64);
    BlockOf(x, 64, 1018);
  }

  lemma MulticastTest(x: nat)
    requires x < 0x1_0000
    ensures BitAnd(x, 0xff00) == 0xff00 <==> 0xff00 <= x
  {
    assert Pow2(8) == 256;
    MaskHextet(x, 8, 256);
    BlockOf(x, 256, 255);
  }

  /** The first six groups of an address that carries an IPv4 address in its last two. */
  const CARRIERS: set<Groups> := {[0, 0, 0, 0, 0, 0xffff], [0, 0, 0, 0, 0, 0], [0x64, 0xff9b, 0, 0, 0, 0]}

  /** The whole classification in terms of numbers. */
  predicate NumericVerdict(g: Groups)
    requires IsAddress(g)
  {
    if g[..6] in CARRIERS then BlockedValue(WordOf(g[6], g[7]))
    else if g[0] == 0x2002 then BlockedValue(WordOf(g[1], g[2]))
    else 0xfc00 <= g[0] <= 0xfdff || 0xfe80 <= g[0] <= 0xfebf || 0xff00 <= g[0]
  }

  lemma EmbedsByPrefix(g: Groups)
    requires IsAddress(g)
    ensures EmbedsAtEnd(g) <==> g[..6] in CARRIERS
  {
    assert g[..6] == [g[0], g[1], g[2], g[3], g[4], g[5]];
  }

  lemma GroupsVerdict(g: Groups)
    requires IsAddress(g)
    ensures IsBlockedGroups(g) <==> NumericVerdict(g)
  {
    EmbedsByPrefix(g);
    EmbeddedVerdict(g[6], g[7]);
    EmbeddedVerdict(g[1], g[2]);
    UniqueLocalTest(g[0]);
    LinkLocalTest(g[0]);
    MulticastTest(g[0]);
  }

  lemma LoopbackWordBlocked(high: nat, low: nat)
    requires high == 0 && low <= 1
    ensures IsBlockedIpv4(EmbeddedQuad(high, low))
  {
    EmbeddedVerdict(high, low);
    ThisNetworkBlocked(WordOf(high, low));
  }

  /** `::` and `::1` are blocked as IPv4-compatible addresses, so the tests for them are never reached. */
  lemma LoopbackTestsUnreached(g: Groups)
    requires IsAddress(g) && ZeroFrom(g, 0, 7) && g[7] <= 1
    ensures EmbedsAtEnd(g) && IsBlockedGroups(g)
  {
    LoopbackWordBlocked(g[6], g[7]);
    assert ZeroFrom(g, 0, 6);
  }

  /** The forms in which an IPv6 address reaches an IPv4 host. */
  datatype Form = Mapped | Compatible | Nat64 | SixToFour(rest: seq<nat>)

  function Embed(form: Form, a: nat, b: nat, c: nat, d: nat): Groups {
    var high, low := a * 256 + b, c * 256 + d;
    match form
    case Mapped => [0, 0, 0, 0, 0, 0xffff, high, low]
    case Compatible => [0, 0, 0, 0, 0, 0, high, low]
    case Nat64 => [0x64, 0xff9b, 0, 0, 0, 0, high, low]
    case SixToFour(rest) => [0x2002, high, low] + rest
  }

  lemma FormPlaces(form: Form, a: nat, b: nat, c: nat, d: nat)
    requires IsAddress(Embed(form, a, b, c, d))
    ensures var g, high, low := Embed(form, a, b, c, d), a * 256 + b, c * 256 + d;
      if form.SixToFour? then g[0] == 0x2002 && !EmbedsAtEnd(g) && g[1] == high && g[2] == low
      else EmbedsAtEnd(g) && g[6] == high && g[7] == low
  {
  }

  lemma FormVerdict(form: Form, a: nat, b: nat, c: nat, d: nat)
    requires a < 256 && b < 256 && c < 256 && d < 256
    requires IsAddress(Embed(form, a, b, c, d))
    ensures NumericVerdict(Embed(form, a, b, c, d)) <==> BlockedValue(QuadValue(a, b, c, d))
  {
    FormPlaces(form, a, b, c, d);
    EmbedsByPrefix(Embed(form, a, b, c, d));
    assert WordOf(a * 256 + b, c * 256 + d) == QuadValue(a, b, c, d);
  }

  /** However it is spelled, an embedded IPv4 address gets exactly the verdict of its dotted quad. */
  lemma EmbeddedAgrees(u: Spelling, zone: string, form: Form, a: nat, b: nat, c: nat, d: nat)
    requires IsSpelling(u) && IsZone(zone)
    requires a < 256 && b < 256 && c < 256 && d < 256
    requires IsAddress(Embed(form, a, b, c, d)) && Address(u) == Embed(form, a, b, c, d)
    ensures IsBlockedIpv6(Render(u) + zone) <==> IsBlockedIpv4(PrintQuad(a, b, c, d))
  {
    SpellingExpands(u, zone);
    GroupsVerdict(Embed(form, a, b, c, d));
    FormVerdict(form, a, b, c, d);
    PrintedQuadParses(a, b, c, d);
    BlockedIffInRange(PrintQuad(a, b, c, d));
  }

  /** All spellings of one address get the same verdict. */
  lemma SpellingsAgree(u: Spelling, v: Spelling, zone: string, other: string)
    requires IsSpelling(u) && IsSpelling(v) && IsZone(zone) && IsZone(other) && Address(u) == Address(v)
    ensures IsBlockedIpv6(Render(u) + zone) <==> IsBlockedIpv6(Render(v) + other)
  {
    SpellingExpands(u, zone);
    SpellingExpands(v, other);
  }

  /** Whatever expands is an address, so only the verdict on its groups counts. */
  lemma ExpandedIsAddress(ip: string)
    requires ExpandIpv6(ip).Some?
    ensures IsAddress(ExpandIpv6(ip).value)
    ensures IsBlockedIpv6(ip) <==> IsBlockedGroups(ExpandIpv6(ip).value)
  {
    var s := ExpandedIsSpelling(ip);
  }

  /**
   What must not be dialled, in numbers: texts that are no address, or do not parse as one, the
   IPv4 addresses of the fourteen ranges, and the IPv6 addresses that carry one of those or are
   unique-local, link-local or multicast.
   */
  predicate MustNotDial(ip: string, version: nat) {
    match version
    case 4 => Ipv4Int(ip).None? || BlockedValue(Ipv4Int(ip).value)
    case 6 => ExpandIpv6(ip).None? || (IsAddress(ExpandIpv6(ip).value) ==> NumericVerdict(ExpandIpv6(ip).value))
    case _ => true
  }

  /** The exported verdict, for every text and whatever the library says of it. */
  lemma BlockedExactly(ip: string, isIP: string -> nat)
    ensures IsBlockedAddress(ip, isIP) <==> MustNotDial(ip, isIP(ip))
  {
    BlockedIffInRange(ip);
    if ExpandIpv6(ip).Some? {
      ExpandedIsAddress(ip);
      GroupsVerdict(ExpandIpv6(ip).value);
    }
  }

  // ----- The lookup filter -----

  datatype Entry = Entry(address: string, family: nat)

  datatype Answer = Failed | Refused(shown: Option<string>) | All(entries: seq<Entry>) | One(entry: Entry)

  /** `list.filter` of what is not `bad`. */
  function Kept<T>(list: seq<T>, bad: T -> bool): seq<T> {
    if list == [] then []
    else (if bad(list[0]) then [] else [list[0]]) + Kept(list[1..], bad)
  }

  function Allowed(list: seq<Entry>, isIP: string -> nat): seq<Entry> {
    Kept(list, (e: Entry) => IsBlockedAddress(e.address, isIP))
  }

  /** What the callback of the resolver hands on of what it was given. */
  function Filter(list: seq<Entry>, all: bool, isIP: string -> nat): Answer {
    var allowed := Allowed(list, isIP);
    if allowed == [] then Refused(if list == [] then None else Some(list[0].address))
    else if all then All(allowed)
    else One(allowed[0])
  }

  /** `resolved`: what the resolver finds, if it finds anything. */
  function SafeLookup(hostname: string, all: bool, resolved: Option<seq<Entry>>, isIP: string -> nat): Answer {
    var literal := isIP(hostname);
    if literal != 0 then
      if IsBlockedAddress(hostname, isIP) then Refused(Some(hostname))
      else if all then All([Entry(hostname, literal)])
      else One(Entry(hostname, literal))
    else if resolved.None? then Failed
    else Filter(resolved.value, all, isIP)
  }

  /** What the name stands for: itself when it is an address, else what the resolver found. */
  function Candidates(hostname: string, resolved: Option<seq<Entry>>, isIP: string -> nat): seq<Entry> {
    if isIP(hostname) != 0 then [Entry(hostname, isIP(hostname))] else if resolved.Some? then resolved.value else []
  }

  /** `at` lists, in order, the places in `list` of what is not `bad`. */
  ghost predicate Places<T>(at: seq<nat>, list: seq<T>, bad: T -> bool) {
    && (forall x, y :: 0 <= x < y < |at| ==> at[x] < at[y])
    && (forall i: nat :: i in at <==> i < |list| && !bad(list[i]))
  }

  ghost predicate At<T>(some: seq<T>, list: seq<T>, at: seq<nat>) {
    |some| == |at| && forall x :: 0 <= x < |at| ==> at[x] < |list| && some[x] == list[at[x]]
  }

  lemma PlacesMoved<T>(at: seq<nat>, list: seq<T>, bad: T -> bool) returns (moved: seq<nat>)
    requires list != [] && Places(at, list[1..], bad)
    ensures |moved| == |at| && forall x :: 0 <= x < |at| ==> moved[x] == at[x] + 1
    ensures Places((if bad(list[0]) then [] else [0]) + moved, list, bad)
  {
    moved := seq(|at|, x requires 0 <= x < |at| => at[x] + 1);
    var all := (if bad(list[0]) then [] else [0]) + moved;
    forall i: nat ensures i in all <==> i < |list| && !bad(list[i]) {
      if i > 0 {
        assert i - 1 in at <==> i - 1 < |list[1..]| && !bad(list[1..][i - 1]);
        if i - 1 in at {
          var x :| 0 <= x < |at| && at[x] == i - 1;
          assert moved[x] == i;
        }
      }
    }
  }

  /** Filtering keeps exactly what is not bad, in order. */
  lemma {:induction false} KeptAt<T>(list: seq<T>, bad: T -> bool) returns (at: seq<nat>)
    ensures Places(at, list, bad) && At(Kept(list, bad), list, at)
  {
    if list == [] {
      at := [];
    } else {
      var rest := KeptAt(list[1..], bad);
      var moved := PlacesMoved(rest, list, bad);
      at := (if bad(list[0]) then [] else [0]) + moved;
    }
  }

  /**
   The lookup answers with exactly the candidates that may be dialled, in their order, or with
   the first of them alone; it refuses exactly when none may be dialled; and it fails when the
   resolver does.
   */
  lemma LookupIsSafe(hostname: string, all: bool, resolved: Option<seq<Entry>>, isIP: string -> nat)
    returns (at: seq<nat>)
    ensures var found := Candidates(hostname, resolved, isIP);
      && Places(at, found, (e: Entry) => MustNotDial(e.address, isIP(e.address)))
      && match SafeLookup(hostname, all, resolved, isIP)
         case All(entries) => all && at != [] && At(entries, found, at)
         case One(entry) => !all && at != [] && At([entry], found, at[..1])
         case Refused(shown) =>
           && at == [] && (isIP(hostname) != 0 || resolved.Some?)
           && shown == if found == [] then None else Some(found[0].address)
         case Failed => isIP(hostname) == 0 && resolved.None?
  {
    var found := Candidates(hostname, resolved, isIP);
    var bad := (e: Entry) => IsBlockedAddress(e.address, isIP);
    at := KeptAt(found, bad);
    SameVerdicts(at, found, isIP);
    if isIP(hostname) != 0 {
      assert Kept(found, bad) == if bad(found[0]) then [] else found;
    }
  }

  lemma SameVerdicts(at: seq<nat>, found: seq<Entry>, isIP: string -> nat)
    requires Places(at, found, (e: Entry) => IsBlockedAddress(e.address, isIP))
    ensures Places(at, found, (e: Entry) => MustNotDial(e.address, isIP(e.address)))
  {
    forall i: nat | i < |found|
      ensures IsBlockedAddress(found[i].address, isIP) <==> MustNotDial(found[i].address, isIP(found[i].address))
    {
      BlockedExactly(found[i].address, isIP);
    }
  }
}
