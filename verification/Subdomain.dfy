/** Organisation subdomains: the URL built for one, and the two places that read one back from a host. */
module Subdomain {
  import opened Wrappers
  import Text

  // ----- Strings -----

  predicate StartsWith(s: string, head: string) {
    head <= s
  }

  predicate EndsWith(s: string, tail: string) {
    |tail| <= |s| && s[|s| - |tail|..] == tail
  }

  function DropScheme(s: string): string {
    if StartsWith(s, "http://") then s[7..]
    else if StartsWith(s, "https://") then s[8..]
    else s
  }

  /** Where a colon and digits at the end begin, or the length when there are none. */
  function HostLength(s: string): (n: nat)
    ensures n <= |s| && (n < |s| ==> s[n] == ':')
  {
    Text.LastIndexMeaning(s, ':');
    var n := Text.LastIndexOf(s, ':');
    if n >= 0 && n + 1 < |s| && Text.AllDigits(s[n + 1..]) then n else |s|
  }

  /** Drops a colon and digits at the end. */
  function DropPort(s: string): string {
    s[..HostLength(s)]
  }

  function NormalizeHost(value: Option<string>): string {
    DropPort(DropScheme(Text.Lower(Text.Trim(if value.Some? then value.value else ""))))
  }

  /** `domain`: the configured domain, if any. */
  function GetRootDomain(domain: string): string {
    NormalizeHost(Some(if domain != "" then domain else "mentrily.com"))
  }

  predicate Reserved(name: string) {
    name in {"www", "app", "api", "admin"}
  }

  /** Four names are kept for the platform itself. */
  lemma ReservedIff(name: string)
    ensures Reserved(name) <==> name == "www" || name == "app" || name == "api" || name == "admin"
  {
  }

  function FirstPart(s: string): string {
    Text.Split(s, '.')[0]
  }

  // ----- lib/domain -----

  function ParseSubdomain(hostOrUrl: Option<string>, domain: string): Option<string> {
    ParseHost(NormalizeHost(hostOrUrl), GetRootDomain(domain))
  }

  function ParseHost(host: string, rootDomain: string): Option<string> {
    if host == "" then None
    else if IsLocal(host) then
      if |Text.Split(host, '.')| > 1 && !Reserved(FirstPart(host)) then Some(FirstPart(host)) else None
    else if rootDomain == "" || !EndsWith(host, "." + rootDomain) then None
    else
      var prefix := host[..|host| - |rootDomain| - 1];
      if prefix == "" || FirstPart(prefix) == "" || Reserved(FirstPart(prefix)) then None
      else Some(FirstPart(prefix))
  }

  predicate IsLocal(host: string) {
    host == "localhost" || EndsWith(host, ".localhost")
  }

  function NormalizeLabel(subdomain: string): string {
    Text.Lower(Text.Trim(subdomain))
  }

  function OrgPath(pathname: string): string {
    if StartsWith(pathname, "/") then pathname else "/" + pathname
  }

  function BuildOrgUrl(subdomain: string, pathname: string, domain: string): Option<string> {
    var name := NormalizeLabel(subdomain);
    var rootDomain := GetRootDomain(domain);
    if name == "" || rootDomain == "" then None
    else if rootDomain == "localhost" then Some("http://" + name + ".localhost:3000" + OrgPath(pathname))
    else Some("https://" + name + "." + rootDomain + OrgPath(pathname))
  }

  // ----- The layout -----

  function ResolveSubdomain(host: string, rootDomain: string): string {
    if host == "" then ""
    else if IsLocal(host) then
      if |Text.Split(host, '.')| > 1 then FirstPart(host) else ""
    else if rootDomain == "" || !EndsWith(host, "." + rootDomain) then ""
    else
      var prefix := host[..|host| - |rootDomain| - 1];
      if prefix == "" then "" else FirstPart(prefix)
  }

  /** `cookie`: the value of the simulation cookie, or empty. */
  function InitialSubdomain(header: Option<string>, domain: string, cookie: string): Option<string> {
    FromHost(NormalizeHost(header), GetRootDomain(domain), cookie)
  }

  function FromHost(host: string, rootDomain: string, cookie: string): Option<string> {
    var resolved := ResolveSubdomain(host, rootDomain);
    var subdomain := if resolved == "" && host == "localhost" then Text.Lower(cookie) else resolved;
    if subdomain == "" || Reserved(subdomain) then None else Some(subdomain)
  }

  function EmptyAsNone(o: Option<string>): Option<string> {
    if o == Some("") then None else o
  }

  lemma HostReadersAgree(host: string, rootDomain: string, cookie: string)
    ensures EmptyAsNone(ParseHost(host, rootDomain)) == FromHost(host, rootDomain, cookie)
      <==> host != "localhost" || cookie == "" || Reserved(Text.Lower(cookie))
  {
    if host == "localhost" {
      Text.SplitWord("localhost", '.');
      assert cookie != "" ==> Text.Lower(cookie) != "";
    }
  }

  /**
   The two readers agree on every host and every configured domain, except on localhost itself
   when the simulation cookie names an organisation.
   */
  lemma ReadersAgree(header: Option<string>, domain: string, cookie: string)
    ensures EmptyAsNone(ParseSubdomain(header, domain)) == InitialSubdomain(header, domain, cookie)
      <==> NormalizeHost(header) != "localhost" || cookie == "" || Reserved(Text.Lower(cookie))
  {
    HostReadersAgree(NormalizeHost(header), GetRootDomain(domain), cookie);
  }

  // ----- Reading back what was built -----

  predicate HasScheme(s: string) {
    StartsWith(s, "http://") || StartsWith(s, "https://")
  }

  predicate IsLower(s: string) {
    forall i :: 0 <= i < |s| ==> Text.LowerChar(s[i]) == s[i]
  }

  lemma LowerOfLower(s: string)
    requires IsLower(s)
    ensures Text.Lower(s) == s
  {
  }

  lemma {:induction false} TrimEndOf(head: string, tail: string)
    requires head != "" && !Text.IsSpace(head[|head| - 1])
    ensures Text.TrimEnd(head + tail) == head + Text.TrimEnd(tail)
    decreases |tail|
  {
    var s := head + tail;
    if tail == "" {
      assert s == head;
    } else if Text.IsSpace(tail[|tail| - 1]) {
      TrimEndOf(head, tail[..|tail| - 1]);
      assert s[..|s| - 1] == head + tail[..|tail| - 1];
    }
  }

  lemma {:induction false} TrimStartShape(s: string)
    ensures var r := Text.TrimStart(s);
      && (r == "" || !Text.IsSpace(r[0]))
      && |r| <= |s| && (|r| == |s| ==> r == s)
  {
    if s != "" && Text.IsSpace(s[0]) {
      TrimStartShape(s[1..]);
    }
  }

  lemma {:induction false} TrimEndIsPrefix(s: string)
    ensures Text.TrimEnd(s) <= s
  {
    if s != "" && Text.IsSpace(s[|s| - 1]) {
      TrimEndIsPrefix(s[..|s| - 1]);
    }
  }

  lemma DropPortIsPrefix(s: string)
    ensures DropPort(s) <= s
    ensures ':' !in s ==> DropPort(s) == s
  {
  }

  lemma DropSchemeIsSuffix(s: string)
    ensures |DropScheme(s)| <= |s| && DropScheme(s) == s[|s| - |DropScheme(s)|..]
    ensures HasScheme(s) ==> |DropScheme(s)| < |s|
    ensures !HasScheme(s) ==> DropScheme(s) == s
  {
  }

  /** A label is in lower case and starts with no space. */
  lemma LabelShape(subdomain: string)
    ensures var name := NormalizeLabel(subdomain); (name == "" || !Text.IsSpace(name[0])) && IsLower(name)
  {
    TrimStartShape(subdomain);
    TrimEndIsPrefix(Text.TrimStart(subdomain));
    var trimmed := Text.Trim(subdomain);
    if trimmed != "" {
      assert Text.IsSpace(Text.LowerChar(trimmed[0])) <==> Text.IsSpace(trimmed[0]);
    }
  }

  /** A root domain is in lower case. */
  lemma RootIsLower(domain: string)
    ensures IsLower(GetRootDomain(domain))
  {
    var lower := Text.Lower(Text.Trim(if domain != "" then domain else "mentrily.com"));
    assert IsLower(lower);
    DropSchemeIsSuffix(lower);
    DropPortIsPrefix(DropScheme(lower));
  }

  /** What is left of a host's end: trailing space goes, then a port. */
  function Tail(end: string): string {
    DropPort(Text.TrimEnd(end))
  }

  lemma PortFound(head: string, port: string)
    requires ':' !in port
    ensures DropPort(head + [':'] + port) == if port != "" && Text.AllDigits(port) then head else head + [':'] + port
  {
    var s := head + [':'] + port;
    Text.LastIndexFound(head, port, ':');
    assert s[|head| + 1..] == port && s[..|head|] == head;
  }

  lemma DropPortOf(head: string, tail: string)
    requires ':' in tail || !Text.AllDigits(tail)
    ensures DropPort(head + tail) == head + DropPort(tail)
  {
    if ':' in tail {
      var m := Text.LastIndexOf(tail, ':');
      Text.LastIndexMeaning(tail, ':');
      var before, port := tail[..m], tail[m + 1..];
      assert tail == before + [':'] + port;
      assert head + tail == (head + before) + [':'] + port;
      PortFound(before, port);
      PortFound(head + before, port);
    } else {
      NoPort(head, tail);
      DropPortIsPrefix(tail);
    }
  }

  lemma NoPort(head: string, tail: string)
    requires ':' !in tail && !Text.AllDigits(tail)
    ensures DropPort(head + tail) == head + tail
  {
    var n := Text.LastIndexOf(head + tail, ':');
    LastColonInHead(head, tail);
    if n >= 0 {
      SomethingElseBehind(head, tail, n);
    }
  }

  lemma LastColonInHead(head: string, tail: string)
    requires ':' !in tail
    ensures -1 <= Text.LastIndexOf(head + tail, ':') < |head|
  {
    var s := head + tail;
    Text.LastIndexMeaning(s, ':');
    assert forall j :: |head| <= j < |s| ==> s[j] == tail[j - |head|];
  }

  lemma SomethingElseBehind(head: string, tail: string, n: nat)
    requires n < |head| && !Text.AllDigits(tail)
    ensures !Text.AllDigits((head + tail)[n + 1..])
  {
    var i :| 0 <= i < |tail| && !Text.IsDigit(tail[i]);
    assert (head + tail)[n + 1..][|head| + i - n - 1] == tail[i];
  }

  /** After a dot, the end of a host keeps its own port. */
  lemma DropPortAfterDot(name: string, rest: string)
    ensures DropPort(name + "." + rest) == name + "." + DropPort(rest)
  {
    assert name + "." + rest == name + ("." + rest);
    assert !Text.IsDigit(("." + rest)[0]);
    DropPortOf(name, "." + rest);
    if ':' in rest {
      DropPortOf(".", rest);
    } else {
      DropPortIsPrefix(rest);
      DropPortIsPrefix("." + rest);
    }
    assert name + ("." + DropPort(rest)) == name + "." + DropPort(rest);
  }

  // ----- What normalising does -----

  predicate AllSpace(s: string) {
    forall i :: 0 <= i < |s| ==> Text.IsSpace(s[i])
  }

  lemma {:induction false} SpaceInFront(before: string, s: string)
    requires AllSpace(before)
    ensures Text.TrimStart(before + s) == Text.TrimStart(s)
    decreases |before|
  {
    if before == "" {
      assert before + s == s;
    } else {
      assert (before + s)[1..] == before[1..] + s;
      SpaceInFront(before[1..], s);
    }
  }

  lemma {:induction false} SpaceBehind(after: string)
    requires AllSpace(after)
    ensures Text.TrimEnd(after) == ""
    decreases |after|
  {
    if after != "" {
      SpaceBehind(after[..|after| - 1]);
    }
  }

  predicate NoSpaceAround(s: string) {
    s != "" && !Text.IsSpace(s[0]) && !Text.IsSpace(s[|s| - 1])
  }

  lemma TrimIs(before: string, s: string, after: string)
    requires AllSpace(before) && AllSpace(after) && NoSpaceAround(s)
    ensures Text.Trim(before + s + after) == s
  {
    assert before + s + after == before + (s + after);
    SpaceInFront(before, s + after);
    assert Text.TrimStart(s + after) == s + after;
    TrimEndOf(s, after);
    SpaceBehind(after);
  }

  /** A label is the text between the spaces, in lower case. */
  lemma LabelIs(before: string, name: string, after: string)
    requires AllSpace(before) && AllSpace(after) && NoSpaceAround(name)
    ensures NormalizeLabel(before + name + after) == Text.Lower(name)
  {
    TrimIs(before, name, after);
  }

  lemma LowerJoins(a: string, b: string)
    ensures Text.Lower(a + b) == Text.Lower(a) + Text.Lower(b)
  {
  }

  function PortText(port: string): string {
    if port == "" then "" else [':'] + port
  }

  lemma PortKeepsText(host: string, port: string)
    requires NoSpaceAround(host) && (port == "" || Text.AllDigits(port))
    ensures NoSpaceAround(host + PortText(port))
  {
    var all := host + PortText(port);
    assert all[0] == host[0];
    if port != "" {
      assert all[|all| - 1] == port[|port| - 1] && Text.IsDigit(port[|port| - 1]);
    }
  }

  lemma LowerOfPort(port: string)
    requires Text.AllDigits(port)
    ensures Text.Lower([':'] + port) == [':'] + port && ':' !in port
  {
  }

  lemma SchemeKeepsText(scheme: string, rest: string)
    requires scheme == "http://" || scheme == "https://"
    requires NoSpaceAround(rest)
    ensures NoSpaceAround(scheme + rest)
  {
    assert (scheme + rest)[0] == 'h';
  }

  lemma LowerOfScheme(scheme: string)
    requires scheme == "http://" || scheme == "https://"
    ensures Text.Lower(scheme) == scheme
  {
  }

  lemma PortGone(host: string, port: string)
    requires ':' !in host && (port == "" || Text.AllDigits(port))
    ensures DropPort(host + PortText(port)) == host
  {
    if port == "" {
      assert host + "" == host;
      DropPortIsPrefix(host);
    } else {
      LowerOfPort(port);
      PortFound(host, port);
      assert host + ([':'] + port) == host + [':'] + port;
    }
  }

  lemma SchemeGone(scheme: string, rest: string)
    requires scheme == "http://" || scheme == "https://"
    ensures DropScheme(scheme + rest) == rest
  {
    assert (scheme + rest)[|scheme|..] == rest;
    assert scheme == "https://" ==> (scheme + rest)[4] == 's' && "http://"[4] == ':';
  }

  predicate ColonSlash(s: string, i: nat) {
    i + 1 < |s| && s[i] == ':' && s[i + 1] == '/'
  }

  lemma SchemeHasColonSlash(s: string)
    requires HasScheme(s)
    ensures exists i :: ColonSlash(s, i)
  {
    assert ColonSlash(s, if StartsWith(s, "http://") then 4 else 5);
  }

  /** No scheme is found where the first colon comes with a port. */
  lemma NoSchemeThere(host: string, end: string)
    requires ':' !in host && (end == "" || (|end| >= 2 && end[0] == ':' && Text.AllDigits(end[1..])))
    ensures DropScheme(host + end) == host + end
  {
    var s := host + end;
    assert forall i :: 0 <= i < |host| ==> s[i] == host[i] != ':';
    assert forall i :: |host| < i < |s| ==> s[i] == end[1..][i - |host| - 1];
    assert forall i: nat :: !ColonSlash(s, i);
    if HasScheme(s) {
      SchemeHasColonSlash(s);
    }
  }

  lemma TextIsHost(text: string, host: string, port: string)
    requires ':' !in host && text == host + PortText(port)
    requires port == "" || Text.AllDigits(port)
    ensures DropPort(DropScheme(Text.Lower(text))) == Text.Lower(host)
  {
    LowerOfPort(port);
    LowerJoins(host, PortText(port));
    NoSchemeThere(Text.Lower(host), PortText(port));
    PortGone(Text.Lower(host), port);
  }

  /** A host, with a port or without, is the host alone, in lower case. */
  lemma HostIs(before: string, host: string, port: string, after: string)
    requires AllSpace(before) && AllSpace(after) && NoSpaceAround(host) && ':' !in host
    requires port == "" || Text.AllDigits(port)
    ensures NormalizeHost(Some(before + (host + PortText(port)) + after)) == Text.Lower(host)
  {
    var text := host + PortText(port);
    PortKeepsText(host, port);
    TrimIs(before, text, after);
    TextIsHost(text, host, port);
  }

  lemma LowerOfHostUrl(scheme: string, host: string, port: string)
    requires scheme == "http://" || scheme == "https://"
    requires port == "" || Text.AllDigits(port)
    ensures Text.Lower(scheme + (host + PortText(port))) == scheme + (Text.Lower(host) + PortText(port))
  {
    LowerOfPort(port);
    LowerOfScheme(scheme);
    LowerJoins(host, PortText(port));
    LowerJoins(scheme, host + PortText(port));
  }

  lemma UrlIsHost(url: string, scheme: string, host: string, port: string)
    requires ':' !in host && url == scheme + (host + PortText(port))
    requires scheme == "http://" || scheme == "https://"
    requires port == "" || Text.AllDigits(port)
    ensures DropPort(DropScheme(Text.Lower(url))) == Text.Lower(host)
  {
    LowerOfHostUrl(scheme, host, port);
    SchemeGone(scheme, Text.Lower(host) + PortText(port));
    PortGone(Text.Lower(host), port);
  }

  /** And so it is after a scheme. */
  lemma HostOfUrlIs(before: string, scheme: string, host: string, port: string, after: string)
    requires AllSpace(before) && AllSpace(after) && NoSpaceAround(host) && ':' !in host
    requires scheme == "http://" || scheme == "https://"
    requires port == "" || Text.AllDigits(port)
    ensures NormalizeHost(Some(before + (scheme + (host + PortText(port))) + after)) == Text.Lower(host)
  {
    var url := scheme + (host + PortText(port));
    PortKeepsText(host, port);
    SchemeKeepsText(scheme, host + PortText(port));
    TrimIs(before, url, after);
    UrlIsHost(url, scheme, host, port);
  }

  /** A label without dots, as `NormalizeLabel` leaves it. */
  predicate IsLabel(name: string) {
    name != "" && !Text.IsSpace(name[0]) && '.' !in name && IsLower(name)
  }

  lemma SchemeBeforeDot(name: string, rest: string)
    requires '.' !in name
    ensures HasScheme(name + "." + rest) <==> HasScheme(name)
  {
    var host := name + "." + rest;
    assert host[|name|] == '.';
    assert forall i :: 0 <= i < |name| ==> host[i] == name[i];
    assert forall i :: 0 <= i < 7 ==> "http://"[i] != '.';
    assert forall i :: 0 <= i < 8 ==> "https://"[i] != '.';
    if HasScheme(host) {
      assert |name| >= 7;
      assert StartsWith(host, "https://") ==> |name| >= 8;
      assert host[..7] == name[..7];
    }
  }

  lemma TrimBuilt(name: string, end: string)
    requires IsLabel(name)
    ensures Text.Trim(name + "." + end) == name + "." + Text.TrimEnd(end)
  {
    var whole := name + "." + end;
    assert whole[0] == name[0];
    assert Text.TrimStart(whole) == whole;
    TrimEndOf(name + ".", end);
  }

  /** Normalising a built host strips a scheme from its label, and from its end what `Tail` strips. */
  lemma BuiltHostNormalized(name: string, end: string)
    requires IsLabel(name) && IsLower(end)
    ensures NormalizeHost(Some(name + "." + end)) == DropPort(DropScheme(name + "." + Text.TrimEnd(end)))
    ensures !HasScheme(name) ==> NormalizeHost(Some(name + "." + end)) == name + "." + Tail(end)
  {
    var rest := Text.TrimEnd(end);
    var host := name + "." + rest;
    TrimBuilt(name, end);
    TrimEndIsPrefix(end);
    LowerOfLower(host);
    SchemeBeforeDot(name, rest);
    DropSchemeIsSuffix(host);
    DropPortAfterDot(name, rest);
  }

  lemma {:induction false} FirstPartIsPrefix(s: string)
    ensures FirstPart(s) <= s
    ensures '.' !in s ==> FirstPart(s) == s
  {
    if s != "" {
      FirstPartIsPrefix(s[1..]);
    }
  }

  /** A suffix that starts with a dot cannot reach into a name without dots. */
  lemma SuffixOfHost(name: string, rest: string, end: string)
    requires '.' !in name && end != ""
    ensures EndsWith(name + "." + rest, "." + end) <==> rest == end || EndsWith(rest, "." + end)
  {
    var host, suffix := name + "." + rest, "." + end;
    var at := |host| - |suffix|;
    if rest == end {
      assert host[at..] == suffix;
    }
    if EndsWith(rest, suffix) {
      assert host[at..] == rest[|rest| - |suffix|..];
    }
    if EndsWith(host, suffix) {
      assert forall i :: 0 <= i < |name| ==> host[i] == name[i];
      assert host[at] == suffix[0] == '.';
      if at > |name| {
        assert rest[at - |name| - 1..] == host[at..];
      } else {
        assert rest == host[at + 1..] == suffix[1..] == end;
      }
    }
  }

  lemma LocalLabelled(name: string, rest: string)
    requires IsLabel(name)
    ensures IsLocal(name + "." + rest) <==> IsLocal(rest)
  {
    assert (name + "." + rest)[|name|] == '.';
    assert forall i :: 0 <= i < 9 ==> "localhost"[i] != '.';
    assert "." + "localhost" == ".localhost";
    SuffixOfHost(name, rest, "localhost");
  }

  /** A host with a plain label is parsed to the label exactly when what follows is the root domain, or localhost. */
  lemma ParseLabelled(name: string, rest: string, root: string)
    requires IsLabel(name) && !Reserved(name) && root != "" && |rest| <= |root|
    ensures ParseHost(name + "." + rest, root) == Some(name) <==> rest == root || IsLocal(rest)
  {
    var host := name + "." + rest;
    LocalLabelled(name, rest);
    if IsLocal(host) {
      Text.SplitPrefix(name, rest, '.');
    } else {
      SuffixOfHost(name, rest, root);
      if EndsWith(host, "." + root) {
        assert host[..|host| - |root| - 1] == name;
        FirstPartIsPrefix(name);
      }
    }
  }

  lemma ParsedIsPrefix(host: string, root: string)
    ensures var parsed := ParseHost(host, root); parsed.Some? ==> parsed.value <= host
  {
    FirstPartIsPrefix(host);
    if root != "" && EndsWith(host, "." + root) {
      FirstPartIsPrefix(host[..|host| - |root| - 1]);
    }
  }

  lemma TailIsShorter(end: string)
    ensures |Tail(end)| <= |end|
  {
    TrimEndIsPrefix(end);
    DropPortIsPrefix(Text.TrimEnd(end));
  }

  /** A label that starts with a scheme loses it. */
  lemma SchemeIsLost(name: string, rest: string, root: string)
    requires HasScheme(name) && '.' !in name
    ensures ParseHost(DropPort(DropScheme(name + "." + rest)), root) != Some(name)
  {
    var host := name + "." + rest;
    var stripped := DropScheme(host);
    SchemeBeforeDot(name, rest);
    DropSchemeIsSuffix(host);
    DropPortIsPrefix(stripped);
    ParsedIsPrefix(DropPort(stripped), root);
    assert |name| >= 7 && (StartsWith(host, "http://") || |name| >= 8);
    var at := |name| - (|host| - |stripped|);
    assert stripped[at] == host[|name|] == '.';
    assert name[at] != '.';
  }

  /** A built host is parsed to its label exactly when the label has no scheme and its end is read back. */
  lemma ParseBuilt(name: string, end: string, root: string)
    requires IsLabel(name) && IsLower(end) && !Reserved(name) && root != "" && |Tail(end)| <= |root|
    ensures ParseHost(NormalizeHost(Some(name + "." + end)), root) == Some(name)
      <==> !HasScheme(name) && (Tail(end) == root || IsLocal(Tail(end)))
  {
    BuiltHostNormalized(name, end);
    if HasScheme(name) {
      SchemeIsLost(name, Text.TrimEnd(end), root);
    } else {
      ParseLabelled(name, Tail(end), root);
    }
  }

  lemma TailOfHostAndPort(host: string, port: string)
    requires host != "" && ':' !in host && !Text.IsSpace(host[|host| - 1])
    requires port != "" && ':' !in port && Text.AllDigits(port)
    ensures Tail(host + [':'] + port) == host && Tail(host) == host
  {
    PortFound(host, port);
    DropPortIsPrefix(host);
    var last := port[|port| - 1];
    assert Text.IsDigit(last);
    assert !Text.IsSpace(last);
  }

  lemma LocalTail()
    ensures Tail("localhost:3000") == "localhost" && Tail("localhost") == "localhost"
    ensures IsLower("localhost:3000")
  {
    LocalParts("localhost", "3000", "localhost:3000");
  }

  lemma LocalParts(host: string, port: string, both: string)
    requires host == "localhost" && port == "3000" && both == "localhost:3000"
    ensures Tail(both) == host && Tail(host) == host && IsLower(both)
  {
    assert both == host + [':'] + port;
    assert host[8] == 't' && !Text.IsSpace('t');
    TailOfHostAndPort(host, port);
  }
}
