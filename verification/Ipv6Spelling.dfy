/** The texts RFC 4291, section 2.2, allows for an address, and the proof that the expander reads them all back. */
module Ipv6Spelling {
  import opened Wrappers
  import opened Bits
  import opened Text
  import opened Ipv4
  import opened Ipv6Text

  /**
   A way to write an address. With a gap, `left::right`; without, all groups are in `right`.
   A `quad` of four octet texts may stand for the last two groups; otherwise it is empty.
   */
  datatype Spelling = Spelling(left: seq<string>, gap: bool, right: seq<string>, quad: seq<string>)

  function Width(s: Spelling): nat {
    |s.left| + |s.right| + (if s.quad == [] then 0 else 2)
  }

  function Pieces(s: Spelling): seq<string> {
    if s.quad == [] then s.right else s.right + [Join(s.quad, '.')]
  }

  function Render(s: Spelling): string {
    (if s.gap then Join(s.left, ':') + "::" else "") + Join(Pieces(s), ':')
  }

  predicate AreGroups(gs: seq<string>) {
    forall i :: 0 <= i < |gs| ==> IsGroupText(gs[i])
  }

  /** In lower case, and the right number of groups; a gap of no groups at all is let through, as the code does. */
  predicate WellFormed(s: Spelling) {
    && AreGroups(s.left) && AreGroups(s.right) && (s.quad == [] || AreOctets(s.quad))
    && if s.gap then Width(s) <= 8 else s.left == [] && Width(s) == 8
  }

  function Values(gs: seq<string>): (r: seq<nat>)
    requires AreGroups(gs)
    ensures |r| == |gs|
  {
    seq(|gs|, i requires 0 <= i < |gs| => Value(gs[i], 16))
  }

  function QuadWords(quad: seq<string>): seq<nat>
    requires quad == [] || AreOctets(quad)
  {
    if quad == [] then [] else [TextQuad(quad) / 0x1_0000, TextQuad(quad) % 0x1_0000]
  }

  /** The eight hextets a spelling stands for. */
  function Hextets(s: Spelling): (r: seq<nat>)
    requires WellFormed(s)
    ensures |r| == 8
  {
    Values(s.left) + Zeros(8 - Width(s)) + Values(s.right) + QuadWords(s.quad)
  }

  // ----- Groups only -----

  lemma {:induction false} ParsesGroups(gs: seq<string>)
    requires AreGroups(gs)
    ensures GroupValues(gs) == Some(Values(gs))
    decreases |gs|
  {
    if gs != [] {
      ParsesGroups(gs[1..]);
      assert Values(gs) == [Value(gs[0], 16)] + Values(gs[1..]);
    }
  }

  lemma {:induction false} JoinedGroups(gs: seq<string>)
    requires AreGroups(gs)
    ensures NoDouble(Join(gs, ':') + ":") && NoDouble(Join(gs, ':'))
    ensures gs != [] ==> Join(gs, ':') != "" && Join(gs, ':')[0] != ':'
    ensures forall c :: c in Join(gs, ':') ==> c == ':' || IsHex(c)
    decreases |gs|
  {
    if gs != [] {
      var g := gs[0];
      assert IsGroupText(g) && g[0] in g;
      assert forall i :: 0 <= i < |g| ==> g[i] in g;
      JoinedGroups(gs[1..]);
      if |gs| > 1 {
        var rest := Join(gs[1..], ':');
        assert Join(gs, ':') == g + ":" + rest;
        assert NoDouble(g + ":" + rest + ":") by {
          var s := g + ":" + rest + ":";
          forall i | 0 <= i < |s| - 1 ensures s[i] != ':' || s[i + 1] != ':' {
            if i > |g| {
              assert s[i] == (rest + ":")[i - |g| - 1] && s[i + 1] == (rest + ":")[i - |g|];
            }
          }
        }
        assert NoDouble(Join(gs, ':')) by {
          var s := Join(gs, ':');
          assert forall i :: 0 <= i < |s| ==> s[i] == (s + ":")[i];
        }
      }
    }
  }

  lemma ParsesJoined(gs: seq<string>)
    requires AreGroups(gs)
    ensures ParseGroups(Join(gs, ':')) == Some(Values(gs))
  {
    if gs != [] {
      JoinedGroups(gs);
      forall g | g in gs ensures ':' !in g {
        var i :| 0 <= i < |gs| && gs[i] == g;
        assert IsGroupText(gs[i]);
      }
      SplitJoin(gs, ':');
      ParsesGroups(gs);
    }
  }

  lemma ExpandsFull(gs: seq<string>)
    requires AreGroups(gs) && |gs| == 8
    ensures ExpandGroups(Join(gs, ':')) == Some(Values(gs))
  {
    JoinedGroups(gs);
    ParsesJoined(gs);
    SplitDoubleNone(Join(gs, ':'));
  }

  lemma ExpandsGap(left: seq<string>, right: seq<string>)
    requires AreGroups(left) && AreGroups(right) && |left| + |right| <= 8
    ensures ExpandGroups(Join(left, ':') + "::" + Join(right, ':'))
      == Some(Values(left) + Zeros(8 - |left| - |right|) + Values(right))
  {
    ParsesJoined(left);
    ParsesJoined(right);
    SplitsGap(left, right);
    ExpandsHalves(Join(left, ':'), Join(right, ':'), Values(left), Values(right));
  }

  lemma ExpandsHalves(a: string, b: string, head: seq<nat>, rear: seq<nat>)
    requires ParseGroups(a) == Some(head) && ParseGroups(b) == Some(rear) && |head| + |rear| <= 8
    ensures ExpandHalves([a, b]) == Some(head + Zeros(8 - |head| - |rear|) + rear)
  {
  }

  lemma SplitsGap(left: seq<string>, right: seq<string>)
    requires AreGroups(left) && AreGroups(right)
    ensures SplitDouble(Join(left, ':') + "::" + Join(right, ':')) == [Join(left, ':'), Join(right, ':')]
  {
    JoinedGroups(left);
    JoinedGroups(right);
    SplitDoubleAt(Join(left, ':'), Join(right, ':'));
    SplitDoubleNone(Join(right, ':'));
  }

  lemma ExpandsGroups(s: Spelling)
    requires WellFormed(s) && s.quad == []
    ensures ExpandGroups(Render(s)) == Some(Hextets(s))
  {
    var values := Values(s.right);
    assert values + [] == values;
    if s.gap {
      ExpandsGap(s.left, s.right);
      assert Hextets(s) == Values(s.left) + Zeros(8 - |s.left| - |s.right|) + values;
    } else {
      ExpandsFull(s.right);
      assert Render(s) == Join(s.right, ':');
      assert Hextets(s) == values;
    }
  }

  /** Conversely, only well-formed groups expand. */
  lemma ExpandedGroups(text: string) returns (s: Spelling)
    requires ExpandGroups(text).Some?
    ensures WellFormed(s) && s.quad == [] && text == Render(s) && ExpandGroups(text).value == Hextets(s)
  {
    var halves := SplitDouble(text);
    SplitDoubleRestores(text);
    var last := ParsedGroups(halves[|halves| - 1]);
    if |halves| == 1 {
      s := Spelling([], false, last, []);
    } else {
      var first := ParsedGroups(halves[0]);
      s := Spelling(first, true, last, []);
    }
    ExpandsGroups(s);
  }

  lemma ParsedGroups(segment: string) returns (gs: seq<string>)
    requires ParseGroups(segment).Some?
    ensures AreGroups(gs) && segment == Join(gs, ':') && ParseGroups(segment).value == Values(gs)
  {
    if segment == "" {
      gs := [];
    } else {
      gs := Split(segment, ':');
      JoinSplit(segment, ':');
      GroupsOfValues(gs);
      ParsesGroups(gs);
    }
  }

  lemma {:induction false} GroupsOfValues(gs: seq<string>)
    requires GroupValues(gs).Some?
    ensures AreGroups(gs)
    decreases |gs|
  {
    if gs != [] {
      GroupsOfValues(gs[1..]);
    }
  }

  // ----- With an IPv4 tail -----

  lemma {:induction false} JoinLast(gs: seq<string>, last: string)
    ensures Join(gs + [last], ':') == (if gs == [] then "" else Join(gs, ':') + ":") + last
    decreases |gs|
  {
    if gs != [] {
      JoinLast(gs[1..], last);
      assert (gs + [last])[1..] == gs[1..] + [last];
      if |gs| == 1 {
        assert gs[1..] == [];
      }
    }
  }

  /** What precedes the quad; it ends with a colon. */
  function BeforeQuad(s: Spelling): string {
    (if s.gap then Join(s.left, ':') + "::" else "") + (if s.right == [] then "" else Join(s.right, ':') + ":")
  }

  function PrintWords(quad: seq<string>): seq<string>
    requires AreOctets(quad)
  {
    var value := TextQuad(quad);
    [Print(value / 0x1_0000, 16), Print(value % 0x1_0000, 16)]
  }

  /** The same address with the quad written as two groups. */
  function Unquad(s: Spelling): Spelling
    requires s.quad == [] || AreOctets(s.quad)
  {
    if s.quad == [] then s else Spelling(s.left, s.gap, s.right + PrintWords(s.quad), [])
  }

  lemma PrintedGroup(n: nat)
    requires n < 0x1_0000
    ensures IsGroupText(Print(n, 16)) && Value(Print(n, 16), 16) == n
  {
    ValueOfPrint(n, 16);
    assert Power(16, 1) == 16 && Power(16, 2) == 256 && Power(16, 3) == 4096;
    PrintLength(n, 16, 4);
  }

  lemma UnquadSame(s: Spelling)
    requires WellFormed(s)
    ensures WellFormed(Unquad(s)) && Hextets(Unquad(s)) == Hextets(s)
  {
    if s.quad != [] {
      QuadTextParses(s.quad);
      var value := TextQuad(s.quad);
      PrintedGroup(value / 0x1_0000);
      PrintedGroup(value % 0x1_0000);
      assert Values(s.right + PrintWords(s.quad)) == Values(s.right) + QuadWords(s.quad);
    }
  }

  lemma QuadIsPlain(quad: seq<string>)
    requires AreOctets(quad)
    ensures ':' !in Join(quad, '.') && '.' in Join(quad, '.')
  {
    assert forall i :: 0 <= i < 4 ==> IsOctetText(quad[i]);
    var s3 := Join(quad[3..], '.');
    var s2 := Join(quad[2..], '.');
    var s1 := Join(quad[1..], '.');
    assert quad[1..][1..] == quad[2..] && quad[2..][1..] == quad[3..];
    assert s3 == quad[3] && s2 == quad[2] + "." + s3 && s1 == quad[1] + "." + s2;
    assert Join(quad, '.') == quad[0] + "." + s1;
    assert "."[0] == '.' && Join(quad, '.')[|quad[0]|] == '.';
  }

  lemma RendersQuad(s: Spelling)
    requires WellFormed(s) && s.quad != []
    ensures BeforeQuad(s) != "" && BeforeQuad(s)[|BeforeQuad(s)| - 1] == ':'
    ensures Render(s) == BeforeQuad(s) + Join(s.quad, '.')
  {
    var l := if s.gap then Join(s.left, ':') + "::" else "";
    var r := if s.right == [] then "" else Join(s.right, ':') + ":";
    JoinLast(s.right, Join(s.quad, '.'));
    assert l + (r + Join(s.quad, '.')) == (l + r) + Join(s.quad, '.');
    EndsInColon(l, r);
  }

  lemma EndsInColon(l: string, r: string)
    requires l != "" || r != ""
    requires l != "" ==> l[|l| - 1] == ':'
    requires r != "" ==> r[|r| - 1] == ':'
    ensures l + r != "" && (l + r)[|l + r| - 1] == ':'
  {
  }

  lemma JoinLastTwo(gs: seq<string>, a: string, b: string)
    ensures Join(gs + [a, b], ':') == (if gs == [] then "" else Join(gs, ':') + ":") + (a + ":" + b)
  {
    JoinLast(gs, a);
    JoinLast(gs + [a], b);
    assert gs + [a, b] == (gs + [a]) + [b];
  }

  lemma WordsOf(value: nat)
    requires value < 0x1_0000_0000
    ensures Low16(value / 0x1_0000) == value / 0x1_0000 && Low16(value) == value % 0x1_0000
  {
    var high := value / 0x1_0000;
    assert high < 0x1_0000 && high % 0x1_0000 == high;
  }

  lemma HexTailPrintsWords(value: nat)
    requires value < 0x1_0000_0000
    ensures HexTail(value) == Print(value / 0x1_0000, 16) + ":" + Print(value % 0x1_0000, 16)
  {
    WordsOf(value);
  }

  lemma RendersWords(s: Spelling)
    requires WellFormed(s) && s.quad != []
    ensures TextQuad(s.quad) < 0x1_0000_0000
    ensures Render(Unquad(s)) == BeforeQuad(s) + HexTail(TextQuad(s.quad))
  {
    QuadTextParses(s.quad);
    var value := TextQuad(s.quad);
    HexTailPrintsWords(value);
    var words := PrintWords(s.quad);
    JoinLastTwo(s.right, words[0], words[1]);
    var l := if s.gap then Join(s.left, ':') + "::" else "";
    var r := if s.right == [] then "" else Join(s.right, ':') + ":";
    assert Render(Unquad(s)) == l + Join(s.right + words, ':');
    assert l + (r + HexTail(value)) == (l + r) + HexTail(value);
  }

  lemma SubstitutesTail(before: string, q: string)
    requires before != "" && before[|before| - 1] == ':'
    requires ':' !in q && '.' in q && Ipv4Int(q).Some? && Ipv4Int(q).value < 0x1_0000_0000
    ensures SubstituteTail(before + q) == Some(before + HexTail(Ipv4Int(q).value))
  {
    var head := before[..|before| - 1];
    assert before == head + ":";
    LastIndexFound(head, q, ':');
    assert before + q == head + ":" + q;
    assert (before + q)[|head| + 1..] == q && (before + q)[..|head| + 1] == before;
  }

  lemma SubstitutesQuad(s: Spelling)
    requires WellFormed(s) && s.quad != []
    ensures SubstituteTail(Render(s)) == Some(Render(Unquad(s)))
  {
    RendersQuad(s);
    RendersWords(s);
    QuadIsPlain(s.quad);
    QuadTextParses(s.quad);
    SubstitutesTail(BeforeQuad(s), Join(s.quad, '.'));
  }

  lemma SubstitutesNothing(s: Spelling)
    requires WellFormed(s) && s.quad == []
    ensures SubstituteTail(Render(s)) == Some(Render(s))
  {
    JoinedGroups(s.left);
    JoinedGroups(s.right);
    assert '.' !in Render(s);
    LastIndexMeaning(Render(s), ':');
  }

  /** Every lower-case spelling expands to its hextets. */
  lemma ExpandsText(s: Spelling)
    requires WellFormed(s)
    ensures SubstituteTail(Render(s)) == Some(Render(Unquad(s)))
    ensures ExpandGroups(Render(Unquad(s))) == Some(Hextets(s))
  {
    UnquadSame(s);
    ExpandsGroups(Unquad(s));
    if s.quad == [] {
      SubstitutesNothing(s);
    } else {
      SubstitutesQuad(s);
    }
  }

  // ----- Case, surrounding space and zones -----

  function LowerAll(gs: seq<string>): (r: seq<string>)
    ensures |r| == |gs|
  {
    seq(|gs|, i requires 0 <= i < |gs| => Lower(gs[i]))
  }

  function LowerSpelling(s: Spelling): Spelling {
    Spelling(LowerAll(s.left), s.gap, LowerAll(s.right), s.quad)
  }

  lemma LowerConcat(a: string, b: string)
    ensures Lower(a + b) == Lower(a) + Lower(b)
  {
  }

  lemma LowerPlain(s: string)
    requires forall c :: c in s ==> LowerChar(c) == c
    ensures Lower(s) == s
  {
  }

  lemma LowerJoined(first: string, rest: string)
    ensures Lower(first + [':'] + rest) == Lower(first) + [':'] + Lower(rest)
  {
  }

  lemma {:induction false} LowerJoin(gs: seq<string>)
    ensures Lower(Join(gs, ':')) == Join(LowerAll(gs), ':')
    decreases |gs|
  {
    if |gs| > 1 {
      LowerJoin(gs[1..]);
      assert LowerAll(gs)[1..] == LowerAll(gs[1..]);
      LowerJoined(gs[0], Join(gs[1..], ':'));
    }
  }

  /** The texts made of hexadecimal digits, colons and dots. */
  predicate IsPlain(s: string) {
    forall c :: c in s ==> IsHex(c) || c == ':' || c == '.'
  }

  lemma QuadText(quad: seq<string>)
    requires AreOctets(quad)
    ensures IsPlain(Join(quad, '.')) && Lower(Join(quad, '.')) == Join(quad, '.')
  {
    assert forall i :: 0 <= i < 4 ==> IsOctetText(quad[i]);
    var s3 := Join(quad[3..], '.');
    var s2 := Join(quad[2..], '.');
    var s1 := Join(quad[1..], '.');
    assert quad[1..][1..] == quad[2..] && quad[2..][1..] == quad[3..];
    assert s3 == quad[3] && s2 == quad[2] + "." + s3 && s1 == quad[1] + "." + s2;
    assert Join(quad, '.') == quad[0] + "." + s1;
    assert forall c :: c in Join(quad, '.') ==> IsDigit(c) || c == '.';
    LowerPlain(Join(quad, '.'));
  }

  lemma PiecesPlain(s: Spelling)
    requires WellFormed(s)
    ensures IsPlain(Join(Pieces(s), ':'))
  {
    JoinedGroups(s.right);
    if s.quad != [] {
      QuadText(s.quad);
      JoinLast(s.right, Join(s.quad, '.'));
    }
  }

  lemma PiecesLower(u: Spelling)
    requires WellFormed(LowerSpelling(u))
    ensures LowerAll(Pieces(u)) == Pieces(LowerSpelling(u))
  {
    if u.quad != [] {
      QuadText(u.quad);
      assert LowerAll(Pieces(u)) == LowerAll(u.right) + [Lower(Join(u.quad, '.'))];
    }
  }

  lemma RenderPlain(s: Spelling)
    requires WellFormed(s)
    ensures IsPlain(Render(s)) && Render(s) != ""
  {
    JoinedGroups(s.left);
    PiecesPlain(s);
    if !s.gap {
      JoinedGroups(s.right);
      if s.quad != [] {
        JoinLast(s.right, Join(s.quad, '.'));
      }
    }
  }

  lemma RenderLower(u: Spelling)
    requires WellFormed(LowerSpelling(u))
    ensures Lower(Render(u)) == Render(LowerSpelling(u))
  {
    PiecesLower(u);
    LowerJoin(u.left);
    LowerJoin(Pieces(u));
    var gap := if u.gap then Join(u.left, ':') + "::" else "";
    LowerConcat(gap, Join(Pieces(u), ':'));
    LowerConcat(Join(u.left, ':'), "::");
    LowerPlain("::");
    LowerPlain("");
  }

  /** A zone suffix: nothing, or a percent sign and anything after it. */
  predicate IsZone(zone: string) {
    zone == "" || zone[0] == '%'
  }

  lemma {:induction false} TrimEndStops(text: string, zone: string) returns (rest: string)
    requires text != "" && !IsSpace(text[|text| - 1]) && IsZone(zone)
    ensures TrimEnd(text + zone) == text + rest && IsZone(rest)
    decreases |zone|
  {
    var s := text + zone;
    if zone == "" {
      rest := "";
    } else if IsSpace(s[|s| - 1]) {
      rest := TrimEndStops(text, zone[..|zone| - 1]);
      assert s[..|s| - 1] == text + zone[..|zone| - 1];
    } else {
      rest := zone;
    }
  }

  lemma TrimsTo(text: string, zone: string) returns (rest: string)
    requires text != "" && IsPlain(Lower(text)) && IsZone(zone)
    ensures Trim(text + zone) == text + rest && IsZone(rest)
  {
    assert Lower(text)[0] in Lower(text) && Lower(text)[|text| - 1] in Lower(text);
    rest := TrimEndStops(text, zone);
  }

  lemma ZoneCut(text: string, rest: string)
    requires '%' !in text && IsZone(rest)
    ensures IndexOf(text + rest, '%') == if rest == "" then -1 else |text|
  {
    var s := text + rest;
    if rest == "" {
      assert s == text;
    } else {
      var n := IndexOf(s, '%');
      assert s[|text|] == '%' && s[|text|] in s;
      assert forall i :: 0 <= i < |text| ==> s[i] == text[i] && text[i] in text;
      assert forall i :: 0 <= i < n ==> s[i] in s[..n];
    }
  }

  lemma CleansTo(text: string, zone: string)
    requires text != "" && IsPlain(Lower(text)) && IsZone(zone)
    ensures Clean(text + zone) == Lower(text)
  {
    var rest := TrimsTo(text, zone);
    LowerConcat(text, rest);
    ZoneCut(Lower(text), Lower(rest));
    assert (Lower(text) + Lower(rest))[..|text|] == Lower(text);
  }

  // ----- Round trip -----

  /** A spelling in any mixture of cases. */
  predicate IsSpelling(u: Spelling) {
    WellFormed(LowerSpelling(u))
  }

  function Address(u: Spelling): (g: seq<nat>)
    requires IsSpelling(u)
    ensures |g| == 8
  {
    Hextets(LowerSpelling(u))
  }

  /** Every spelling of an address, with or without a zone, expands to that address. */
  lemma SpellingExpands(u: Spelling, zone: string)
    requires IsSpelling(u) && IsZone(zone)
    ensures ExpandIpv6(Render(u) + zone) == Some(Address(u))
  {
    var l := LowerSpelling(u);
    RenderLower(u);
    ExpandsText(l);
    RenderPlain(l);
    CleansTo(Render(u), zone);
  }

  /** The eight groups printed in full. */
  function PrintAddress(g: seq<nat>): Spelling {
    Spelling([], false, seq(|g|, i requires 0 <= i < |g| => Print(g[i], 16)), [])
  }

  lemma PrintedAddressExpands(g: seq<nat>, zone: string)
    requires |g| == 8 && (forall i :: 0 <= i < 8 ==> g[i] < 0x1_0000) && IsZone(zone)
    ensures ExpandIpv6(Render(PrintAddress(g)) + zone) == Some(g)
  {
    var u := PrintAddress(g);
    forall i | 0 <= i < 8
      ensures IsGroupText(u.right[i]) && Value(u.right[i], 16) == g[i] && Lower(u.right[i]) == u.right[i]
    {
      PrintedGroup(g[i]);
      LowerPlain(u.right[i]);
    }
    assert LowerAll(u.right) == u.right;
    assert Address(u) == g;
    SpellingExpands(u, zone);
  }

  /** What expands is a spelling once its IPv4 tail is written as groups: malformed texts are all refused. */
  lemma ExpandedIsSpelling(ip: string) returns (s: Spelling)
    requires ExpandIpv6(ip).Some?
    ensures WellFormed(s) && SubstituteTail(Clean(ip)) == Some(Render(s)) && ExpandIpv6(ip).value == Hextets(s)
    ensures forall i :: 0 <= i < 8 ==> Hextets(s)[i] < 0x1_0000
  {
    s := ExpandedGroups(SubstituteTail(Clean(ip)).value);
    HextetsBelow(s);
  }

  lemma HextetsBelow(s: Spelling)
    requires WellFormed(s) && s.quad == []
    ensures forall i :: 0 <= i < 8 ==> Hextets(s)[i] < 0x1_0000
  {
    GroupsBelow(s.left);
    GroupsBelow(s.right);
  }

  lemma GroupsBelow(gs: seq<string>)
    requires AreGroups(gs)
    ensures forall i :: 0 <= i < |gs| ==> Values(gs)[i] < 0x1_0000
  {
    assert Power(16, 1) == 16 && Power(16, 2) == 256 && Power(16, 3) == 4096;
    forall i | 0 <= i < |gs| ensures Values(gs)[i] < 0x1_0000 {
      assert IsGroupText(gs[i]);
      ValueBound(gs[i], 16);
    }
  }
}
