/** Expanding IPv6 texts to eight hextets, and the spellings of RFC 4291, section 2.2. */
module Ipv6Text {
  import opened Wrappers
  import opened Bits
  import opened Text
  import opened Ipv4

  // ----- The expander -----

  /** `s.split('::')`. */
  function SplitDouble(s: string): (parts: seq<string>)
    ensures |parts| >= 1
  {
    if |s| >= 2 && s[0] == ':' && s[1] == ':' then [""] + SplitDouble(s[2..])
    else if s == "" then [""]
    else
      var rest := SplitDouble(s[1..]);
      [[s[0]] + rest[0]] + rest[1..]
  }

  predicate IsGroupText(part: string) {
    1 <= |part| <= 4 && forall c :: c in part ==> IsHex(c)
  }

  function GroupValues(parts: seq<string>): Option<seq<nat>> {
    if parts == [] then Some([])
    else if !IsGroupText(parts[0]) then None
    else Behind([Value(parts[0], 16)], GroupValues(parts[1..]))
  }

  function ParseGroups(segment: string): Option<seq<nat>> {
    if segment == "" then Some([]) else GroupValues(Split(segment, ':'))
  }

  function Behind(groups: seq<nat>, rest: Option<seq<nat>>): Option<seq<nat>> {
    match rest
    case None => None
    case Some(more) => Some(groups + more)
  }

  lemma BehindOne(groups: seq<nat>, value: nat, rest: Option<seq<nat>>)
    ensures Behind(groups, Behind([value], rest)) == Behind(groups + [value], rest)
    ensures Behind([], rest) == rest
  {
    if rest.Some? {
      assert groups + ([value] + rest.value) == (groups + [value]) + rest.value;
      assert [] + rest.value == rest.value;
    }
  }

  method ParseGroupsLoop(segment: string) returns (r: Option<seq<nat>>)
    ensures r == ParseGroups(segment)
  {
    if segment == "" {
      return Some([]);
    }
    var groups: seq<nat> := [];
    var parts := Split(segment, ':');
    BehindOne([], 0, GroupValues(parts));
    var i := 0;
    while i < |parts|
      invariant 0 <= i <= |parts|
      invariant GroupValues(parts) == Behind(groups, GroupValues(parts[i..]))
    {
      assert parts[i..][0] == parts[i] && parts[i..][1..] == parts[i + 1..];
      if !IsGroupText(parts[i]) {
        return None;
      }
      BehindOne(groups, Value(parts[i], 16), GroupValues(parts[i + 1..]));
      groups := groups + [Value(parts[i], 16)];
      i := i + 1;
    }
    assert groups + [] == groups;
    return Some(groups);
  }

  function Zeros(n: nat): (r: seq<nat>)
    ensures |r| == n && forall i :: 0 <= i < n ==> r[i] == 0
  {
    seq(n, _ => 0)
  }

  /** The text once it holds only hexadecimal groups. */
  function ExpandGroups(text: string): Option<seq<nat>> {
    ExpandHalves(SplitDouble(text))
  }

  function ExpandHalves(halves: seq<string>): Option<seq<nat>>
    requires |halves| >= 1
  {
    if |halves| > 2 then None
    else match ParseGroups(halves[0])
      case None => None
      case Some(head) =>
        if |halves| == 1 then (if |head| == 8 then Some(head) else None)
        else match ParseGroups(halves[1])
          case None => None
          case Some(rear) =>
            if |head| + |rear| > 8 then None
            else Some(head + Zeros(8 - |head| - |rear|) + rear)
  }

  /** `(value >>> 16) & 0xffff` and `value & 0xffff`, in hexadecimal. */
  function HexTail(value: nat): string
    requires value < 0x1_0000_0000
  {
    Print(Low16(value / 0x1_0000), 16) + ":" + Print(Low16(value), 16)
  }

  /** What stands behind the last colon. */
  function Suffix(text: string): (r: string)
    ensures |r| <= |text| && |text| - |r| == LastIndexOf(text, ':') + 1 && r == text[|text| - |r|..]
  {
    LastIndexMeaning(text, ':');
    text[LastIndexOf(text, ':') + 1..]
  }

  /** An IPv4 tail becomes two groups. */
  function SubstituteTail(text: string): Option<string> {
    var suffix := Suffix(text);
    if '.' !in suffix then Some(text)
    else match QuadTail(suffix)
      case None => None
      case Some(tail) => Some(text[..|text| - |suffix|] + tail)
  }

  function QuadTail(suffix: string): Option<string> {
    match Ipv4Int(suffix)
    case None => None
    case Some(value) =>
      ParsedIsWord(suffix);
      Some(HexTail(value))
  }

  /** Trimmed, in lower case, and without the zone. */
  function Clean(ip: string): string {
    var text := Lower(Trim(ip));
    var zone := IndexOf(text, '%');
    if zone >= 0 then text[..zone] else text
  }

  function ExpandIpv6(ip: string): Option<seq<nat>> {
    match SubstituteTail(Clean(ip))
    case None => None
    case Some(text) => ExpandGroups(text)
  }

  method ExpandGroupsLoop(text: string) returns (r: Option<seq<nat>>)
    ensures r == ExpandGroups(text)
  {
    var halves := SplitDouble(text);
    if |halves| > 2 {
      return None;
    }
    var head := ParseGroupsLoop(halves[0]);
    if head.None? {
      return None;
    }
    if |halves| == 1 {
      return if |head.value| == 8 then head else None;
    }
    var rear := ParseGroupsLoop(halves[1]);
    if rear.None? {
      return None;
    }
    var gap := 8 - |head.value| - |rear.value|;
    if gap < 0 {
      return None;
    }
    return Some(head.value + Zeros(gap) + rear.value);
  }

  method ExpandTail(suffix: string) returns (r: Option<string>)
    ensures r == QuadTail(suffix)
  {
    var value := Ipv4ToInt(suffix);
    if value.None? {
      return None;
    }
    ParsedIsWord(suffix);
    return Some(HexTail(value.value));
  }

  lemma SuffixAt(text: string)
    ensures var n := LastIndexOf(text, ':'); -1 <= n < |text| && text[n + 1..] == Suffix(text)
    ensures |text| - |Suffix(text)| == LastIndexOf(text, ':') + 1
  {
    var r := Suffix(text);
    assert LastIndexOf(text, ':') == |text| - |r| - 1;
  }

  /** The expander as it is written, reassigning `text`. */
  method Expand(ip: string) returns (r: Option<seq<nat>>)
    ensures r == ExpandIpv6(ip)
  {
    var text := Lower(Trim(ip));
    var zone := IndexOf(text, '%');
    if zone != -1 {
      text := text[..zone];
    }
    ghost var clean := Clean(ip);
    assert text == clean;
    SuffixAt(text);
    var lastColon := LastIndexOf(text, ':');
    var suffix := text[lastColon + 1..];
    if '.' in suffix {
      var tail := ExpandTail(suffix);
      if tail.None? {
        return None;
      }
      text := text[..lastColon + 1] + tail.value;
    }
    assert SubstituteTail(clean) == Some(text);
    r := ExpandGroupsLoop(text);
  }

  // ----- Splitting at a double colon -----

  ghost predicate NoDouble(s: string) {
    forall i :: 0 <= i < |s| - 1 ==> s[i] != ':' || s[i + 1] != ':'
  }

  lemma {:induction false} SplitDoubleNone(s: string)
    requires NoDouble(s)
    ensures SplitDouble(s) == [s]
    decreases |s|
  {
    if s != "" {
      assert NoDouble(s[1..]) by {
        forall i | 0 <= i < |s[1..]| - 1 ensures s[1..][i] != ':' || s[1..][i + 1] != ':' {
          assert s[i + 1] != ':' || s[i + 2] != ':';
        }
      }
      SplitDoubleNone(s[1..]);
      assert [s[0]] + s[1..] == s;
    }
  }

  lemma {:induction false} SplitDoubleAt(a: string, b: string)
    requires NoDouble(a + ":")
    ensures SplitDouble(a + "::" + b) == [a] + SplitDouble(b)
    decreases |a|
  {
    var s := a + "::" + b;
    if a == "" {
      assert s[2..] == b;
    } else {
      assert (a + ":")[0] == a[0] && (a + ":")[1] == s[1];
      assert a[0] != ':' || s[1] != ':';
      assert NoDouble(a[1..] + ":") by {
        forall i | 0 <= i < |a[1..] + ":"| - 1 ensures (a[1..] + ":")[i] != ':' || (a[1..] + ":")[i + 1] != ':' {
          assert (a + ":")[i + 1] != ':' || (a + ":")[i + 2] != ':';
        }
      }
      SplitDoubleAt(a[1..], b);
      assert s[1..] == a[1..] + "::" + b;
      assert [a[0]] + a[1..] == a;
    }
  }

  /** Splitting loses nothing. */
  lemma {:induction false} SplitDoubleRestores(s: string)
    ensures var h := SplitDouble(s);
      && (|h| == 1 ==> s == h[0])
      && (|h| == 2 ==> s == h[0] + "::" + h[1])
    decreases |s|
  {
    if |s| >= 2 && s[0] == ':' && s[1] == ':' {
      SplitDoubleRestores(s[2..]);
      assert s == "" + "::" + s[2..];
    } else if s != "" {
      SplitDoubleRestores(s[1..]);
      var rest := SplitDouble(s[1..]);
      Prepend(s[0], rest);
      assert s == [s[0]] + s[1..];
    }
  }

  lemma Prepend(c: char, rest: seq<string>)
    requires |rest| >= 1
    ensures var h := [[c] + rest[0]] + rest[1..];
      && |h| == |rest| && h[0] == [c] + rest[0]
      && (|rest| == 2 ==> h[1] == rest[1] && h[0] + "::" + h[1] == [c] + (rest[0] + "::" + rest[1]))
  {
  }
}
