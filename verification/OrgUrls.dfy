/** The URL of an organisation: which organisation is read from its host, and which from the whole text. */
module OrgUrls {
  import opened Wrappers
  import opened Subdomain
  import Text

  // ----- The host of a URL -----

  predicate EndsAuthority(c: char) {
    c == '/' || c == '?' || c == '#'
  }

  /** What stands in front of the first slash, question mark or number sign. */
  function Authority(s: string): string {
    if s == "" || EndsAuthority(s[0]) then "" else [s[0]] + Authority(s[1..])
  }

  /** What follows the first "://". */
  function AfterScheme(url: string): string {
    if |url| < 3 then "" else if url[..3] == "://" then url[3..] else AfterScheme(url[1..])
  }

  /** What follows the last at sign, or everything. */
  function AfterAt(s: string): (r: string)
    ensures '@' !in r && |r| <= |s| && r == s[|s| - |r|..]
  {
    Text.LastIndexMeaning(s, '@');
    s[Text.LastIndexOf(s, '@') + 1..]
  }

  /** The host of a URL, with its port: section 3.2 of RFC 3986. */
  function UrlHost(url: string): string {
    AfterAt(Authority(AfterScheme(url)))
  }

  lemma {:induction false} AfterSchemeOf(scheme: string, rest: string)
    requires ':' !in scheme
    ensures AfterScheme(scheme + "://" + rest) == rest
    decreases |scheme|
  {
    var url := scheme + "://" + rest;
    if scheme == "" {
      assert url[..3] == "://" && url[3..] == rest;
    } else {
      assert url[0] == scheme[0] != ':';
      assert url[1..] == scheme[1..] + "://" + rest;
      AfterSchemeOf(scheme[1..], rest);
    }
  }

  lemma {:induction false} AuthorityShape(s: string)
    ensures Authority(s) <= s && forall c :: c in Authority(s) ==> !EndsAuthority(c)
  {
    if s != "" && !EndsAuthority(s[0]) {
      AuthorityShape(s[1..]);
    }
  }

  lemma {:induction false} AuthorityOf(head: string, tail: string)
    requires forall c :: c in head ==> !EndsAuthority(c)
    ensures Authority(head + tail) == head + Authority(tail)
    decreases |head|
  {
    if head == "" {
      assert head + tail == tail;
    } else {
      assert (head + tail)[1..] == head[1..] + tail && head[0] in head;
      AuthorityOf(head[1..], tail);
      assert head == [head[0]] + head[1..];
    }
  }

  lemma {:induction false} AuthorityStops(end: string, path: string)
    requires StartsWith(path, "/")
    ensures Authority(end + path) == Authority(end)
    decreases |end|
  {
    if end == "" {
      assert end + path == path && path[0] == '/';
    } else if !EndsAuthority(end[0]) {
      assert (end + path)[1..] == end[1..] + path;
      AuthorityStops(end[1..], path);
    }
  }

  lemma AfterAtWithin(s: string)
    ensures forall c :: c in AfterAt(s) ==> c in s
    ensures '@' !in s ==> AfterAt(s) == s
  {
    var r := AfterAt(s);
    assert s == s[..|s| - |r|] + r;
    if '@' !in s {
      NoAtNoIndex(s);
    }
  }

  lemma NoAtNoIndex(s: string)
    requires '@' !in s
    ensures Text.LastIndexOf(s, '@') == -1
  {
    Text.LastIndexMeaning(s, '@');
  }

  lemma AfterAtOf(head: string, tail: string)
    requires '@' in tail
    ensures AfterAt(head + tail) == AfterAt(tail)
  {
    Text.LastIndexMeaning(tail, '@');
    var m := Text.LastIndexOf(tail, '@');
    var before, host := tail[..m], tail[m + 1..];
    assert tail == before + ['@'] + host;
    assert head + tail == (head + before) + ['@'] + host;
    Text.LastIndexFound(head + before, host, '@');
  }

  /** A label that may stand in a URL as it is. */
  predicate PlainLabel(name: string) {
    forall c :: c in name ==> !EndsAuthority(c) && c != '@'
  }

  /** The host that is read from a URL built for a plain label, when the text `end` follows label and dot. */
  function HostBehind(name: string, end: string): string {
    var authority := Authority(end);
    if '@' in authority then AfterAt(authority) else name + "." + authority
  }

  lemma LabelAuthority(name: string, end: string, path: string)
    requires PlainLabel(name) && StartsWith(path, "/")
    ensures Authority(name + "." + end + path) == name + "." + Authority(end)
  {
    assert name + "." + end + path == name + "." + (end + path);
    AuthorityOf(name + ".", end + path);
    AuthorityStops(end, path);
  }

  lemma BuiltUrlHost(scheme: string, name: string, end: string, path: string)
    requires ':' !in scheme && StartsWith(path, "/")
    ensures var host := UrlHost(scheme + "://" + (name + "." + end + path));
      && (forall c :: c in host ==> !EndsAuthority(c) && c != '@')
      && (PlainLabel(name) ==> host == HostBehind(name, end))
  {
    var rest := name + "." + end + path;
    AfterSchemeOf(scheme, rest);
    AuthorityShape(rest);
    AfterAtWithin(Authority(rest));
    if PlainLabel(name) {
      LabelAuthority(name, end, path);
      if '@' in Authority(end) {
        AfterAtOf(name + ".", Authority(end));
      } else {
        AfterAtWithin(name + "." + Authority(end));
      }
    }
  }

  /** A mark that is no letter stays out of a host when it is normalised. */
  lemma NormalizeKeepsOut(host: string, mark: char)
    requires mark !in host && !('a' <= mark <= 'z')
    ensures mark !in NormalizeHost(Some(host))
  {
    TrimStartKeepsOut(host, mark);
    var trimmed := Text.Trim(host);
    TrimEndIsPrefix(Text.TrimStart(host));
    assert forall i :: 0 <= i < |trimmed| ==> Text.LowerChar(trimmed[i]) != mark;
    var lower := Text.Lower(trimmed);
    DropSchemeIsSuffix(lower);
    DropPortIsPrefix(DropScheme(lower));
  }

  lemma {:induction false} TrimStartKeepsOut(s: string, mark: char)
    requires mark !in s
    ensures mark !in Text.TrimStart(s)
  {
    if s != "" && Text.IsSpace(s[0]) {
      TrimStartKeepsOut(s[1..], mark);
    }
  }

  // ----- Building and reading -----

  /** What follows a label and its dot in a built URL. */
  function Behind(root: string): string {
    if root == "localhost" then "localhost:3000" else root
  }

  function Scheme(root: string): string {
    if root == "localhost" then "http" else "https"
  }

  lemma Regroup(a: string, b: string, c: string, d: string)
    ensures a + b + c + d == a + (b + c + d)
    ensures a + b + (c + d) == a + b + c + d
    ensures a == "" ==> b + c + d == b + (c + d)
  {
  }

  lemma LocalUrl(name: string, path: string)
    ensures "http://" + name + ".localhost:3000" + path == "http" + "://" + (name + "." + "localhost:3000" + path)
  {
    assert "http" + "://" == "http://" && "." + "localhost:3000" == ".localhost:3000";
    Regroup("http://", name, ".localhost:3000", path);
    Regroup("", name, ".", "localhost:3000");
  }

  lemma SecureUrl(name: string, root: string, path: string)
    ensures "https://" + name + "." + root + path == "https" + "://" + (name + "." + root + path)
  {
    assert "https" + "://" == "https://";
    Regroup("https://", name, "." + root, path);
    Regroup("https://", name, ".", root);
    Regroup("", name, ".", root);
  }

  lemma BuiltUrl(subdomain: string, pathname: string, domain: string)
    requires NormalizeLabel(subdomain) != "" && GetRootDomain(domain) != ""
    ensures var name, root := NormalizeLabel(subdomain), GetRootDomain(domain);
      BuildOrgUrl(subdomain, pathname, domain)
        == Some(Scheme(root) + "://" + (name + "." + Behind(root) + OrgPath(pathname)))
  {
    var name, root := NormalizeLabel(subdomain), GetRootDomain(domain);
    if root == "localhost" {
      LocalUrl(name, OrgPath(pathname));
    } else {
      SecureUrl(name, root, OrgPath(pathname));
    }
  }

  /** The first characters of a built URL. */
  lemma SchemeFound(root: string, rest: string)
    ensures StartsWith(Scheme(root) + "://" + rest, "https://") <==> root != "localhost"
    ensures ':' !in Scheme(root)
  {
    var url := Scheme(root) + "://" + rest;
    if root == "localhost" {
      assert url[4] == ':' && "https://"[4] == 's';
    } else {
      assert "https" + "://" == "https://";
    }
  }

  /**
   The root domain survives being read back behind a label: it is what is left of itself, or
   that is read as a simulation of localhost. A root domain with an at sign moves the host
   behind the sign.
   */
  predicate RootReadsBack(name: string, root: string) {
    var authority := Authority(root);
    if '@' in authority then
      var host := NormalizeHost(Some(AfterAt(authority)));
      IsLocal(host) && StartsWith(host, name + ".")
    else
      Tail(authority) == root || IsLocal(Tail(authority))
  }

  lemma ParsedShape(host: string, root: string)
    ensures var parsed := ParseHost(host, root); parsed.Some? ==> '.' !in parsed.value && !Reserved(parsed.value)
  {
    Text.JoinSplit(host, '.');
    if root != "" && EndsWith(host, "." + root) {
      Text.JoinSplit(host[..|host| - |root| - 1], '.');
    }
  }

  /** No reading of a host without these marks gives a label that has one. */
  lemma OddLabelIsLost(name: string, host: string, root: string)
    requires !PlainLabel(name) && forall c :: c in host ==> !EndsAuthority(c) && c != '@'
    ensures ParseHost(NormalizeHost(Some(host)), root) != Some(name)
  {
    var mark :| mark in name && (EndsAuthority(mark) || mark == '@');
    NormalizeKeepsOut(host, mark);
    ParsedIsPrefix(NormalizeHost(Some(host)), root);
  }

  lemma SchemeIsNotPlain(name: string)
    requires HasScheme(name)
    ensures !PlainLabel(name)
  {
    assert name[6] == '/';
    assert '/' in name;
  }

  lemma SuffixMark(host: string, end: string, mark: char)
    ensures EndsWith(host, end) && mark in end ==> mark in host
  {
    if EndsWith(host, end) && mark in end {
      var i :| 0 <= i < |end| && end[i] == mark;
      assert host[|host| - |end|..][i] == mark;
    }
  }

  lemma FirstPartBeforeDot(host: string, name: string)
    requires '.' !in name
    ensures |Text.Split(host, '.')| > 1 && FirstPart(host) == name <==> StartsWith(host, name + ".")
  {
    if StartsWith(host, name + ".") {
      Text.SplitPrefix(name, host[|name| + 1..], '.');
      assert host == name + "." + host[|name| + 1..];
    }
    if |Text.Split(host, '.')| > 1 && FirstPart(host) == name {
      Text.JoinSplit(host, '.');
      assert StartsWith(host, name + ".");
    }
  }

  /** A host that cannot end in the root domain names the organisation only as a simulation of localhost. */
  lemma ForeignHost(name: string, host: string, root: string)
    requires name != "" && '.' !in name && !Reserved(name) && '@' in root && '@' !in host
    ensures ParseHost(host, root) == Some(name) <==> IsLocal(host) && StartsWith(host, name + ".")
  {
    SuffixMark(host, "." + root, '@');
    FirstPartBeforeDot(host, name);
  }

  lemma NoMarks(host: string)
    requires forall i :: 0 <= i < |host| ==> !EndsAuthority(host[i])
    ensures Authority(host) == host
  {
    AuthorityOf(host, "");
    assert host + "" == host;
  }

  lemma LocalMarks(host: string)
    requires host == "localhost:3000" || host == "localhost"
    ensures Authority(host) == host && '@' !in host
  {
    assert forall i :: 0 <= i < |host| ==> !EndsAuthority(host[i]) && host[i] != '@';
    NoMarks(host);
  }

  lemma LocalAuthority()
    ensures Authority("localhost:3000") == "localhost:3000" && '@' !in "localhost:3000"
    ensures Authority("localhost") == "localhost" && '@' !in "localhost"
  {
    LocalMarks("localhost:3000");
    LocalMarks("localhost");
  }

  lemma LocalReadsBack(name: string)
    requires IsLabel(name) && PlainLabel(name) && !Reserved(name)
    ensures ParseHost(NormalizeHost(Some(HostBehind(name, "localhost:3000"))), "localhost") == Some(name)
    ensures RootReadsBack(name, "localhost")
  {
    LocalTail();
    LocalAuthority();
    if HasScheme(name) {
      SchemeIsNotPlain(name);
    }
    ParseBuilt(name, "localhost:3000", "localhost");
  }

  lemma HostReadsBack(name: string, root: string)
    requires IsLabel(name) && PlainLabel(name) && !Reserved(name) && root != "" && IsLower(root)
    ensures ParseHost(NormalizeHost(Some(HostBehind(name, Behind(root)))), root) == Some(name)
      <==> RootReadsBack(name, root)
  {
    if root == "localhost" {
      LocalReadsBack(name);
    } else {
      var authority := Authority(root);
      AuthorityShape(root);
      if '@' in authority {
        AfterAtWithin(authority);
        NormalizeKeepsOut(AfterAt(authority), '@');
        ForeignHost(name, NormalizeHost(Some(AfterAt(authority))), root);
      } else {
        TailIsShorter(authority);
        if HasScheme(name) {
          SchemeIsNotPlain(name);
        }
        ParseBuilt(name, authority, root);
      }
    }
  }

  lemma HostGivesLabel(name: string, root: string, path: string)
    requires name != "" && !Text.IsSpace(name[0]) && IsLower(name)
    requires root != "" && IsLower(root) && StartsWith(path, "/")
    ensures var host := UrlHost(Scheme(root) + "://" + (name + "." + Behind(root) + path));
      (ParseHost(NormalizeHost(Some(host)), root) == Some(name)
       <==> '.' !in name && !Reserved(name) && PlainLabel(name) && RootReadsBack(name, root))
  {
    var host := UrlHost(Scheme(root) + "://" + (name + "." + Behind(root) + path));
    SchemeFound(root, "");
    BuiltUrlHost(Scheme(root), name, Behind(root), path);
    ParsedShape(NormalizeHost(Some(host)), root);
    if !PlainLabel(name) {
      OddLabelIsLost(name, host, root);
    } else if IsLabel(name) && !Reserved(name) {
      HostReadsBack(name, root);
    }
  }

  lemma EndsInPath(scheme: string, host: string, pathname: string)
    ensures EndsWith(scheme + (host + OrgPath(pathname)),
                     "/" + if StartsWith(pathname, "/") then pathname[1..] else pathname)
  {
    var path := OrgPath(pathname);
    assert path == "/" + if StartsWith(pathname, "/") then pathname[1..] else pathname;
    assert scheme + (host + path) == scheme + host + path;
  }

  lemma UrlShape(subdomain: string, pathname: string, domain: string)
    requires NormalizeLabel(subdomain) != "" && GetRootDomain(domain) != ""
    ensures var url := BuildOrgUrl(subdomain, pathname, domain);
      && url.Some?
      && (StartsWith(url.value, "https://") <==> GetRootDomain(domain) != "localhost")
      && EndsWith(url.value, "/" + if StartsWith(pathname, "/") then pathname[1..] else pathname)
  {
    var name, root := NormalizeLabel(subdomain), GetRootDomain(domain);
    BuiltUrl(subdomain, pathname, domain);
    SchemeFound(root, name + "." + Behind(root) + OrgPath(pathname));
    EndsInPath(Scheme(root) + "://", name + "." + Behind(root), pathname);
  }

  lemma LabelGivenBack(subdomain: string, pathname: string, domain: string)
    requires NormalizeLabel(subdomain) != "" && GetRootDomain(domain) != ""
    ensures var url, name := BuildOrgUrl(subdomain, pathname, domain), NormalizeLabel(subdomain);
      && url.Some?
      && (ParseSubdomain(Some(UrlHost(url.value)), domain) == Some(name)
          <==> '.' !in name && !Reserved(name) && PlainLabel(name) && RootReadsBack(name, GetRootDomain(domain)))
  {
    LabelShape(subdomain);
    RootIsLower(domain);
    BuiltUrl(subdomain, pathname, domain);
    HostGivesLabel(NormalizeLabel(subdomain), GetRootDomain(domain), OrgPath(pathname));
  }

  /**
   A URL is built unless label or domain is empty. Reading its host gives back the label exactly
   when the label is not reserved, has none of ".", "/", "?", "#" and "@", and the configured
   domain reads back. The URL ends in the path asked for, and only localhost is reached
   without TLS.
   */
  lemma ParseInvertsBuild(subdomain: string, pathname: string, domain: string)
    ensures var url := BuildOrgUrl(subdomain, pathname, domain);
      var name, root := NormalizeLabel(subdomain), GetRootDomain(domain);
      && (url.Some? <==> name != "" && root != "")
      && (url.Some? ==>
            && (StartsWith(url.value, "https://") <==> root != "localhost")
            && EndsWith(url.value, "/" + if StartsWith(pathname, "/") then pathname[1..] else pathname)
            && (ParseSubdomain(Some(UrlHost(url.value)), domain) == Some(name)
                <==> '.' !in name && !Reserved(name) && PlainLabel(name) && RootReadsBack(name, root)))
  {
    if BuildOrgUrl(subdomain, pathname, domain).Some? {
      UrlShape(subdomain, pathname, domain);
      LabelGivenBack(subdomain, pathname, domain);
    }
  }

  /** A domain that is configured in its normal form, without those marks, is read back behind every label. */
  lemma NormalRootReadsBack(domain: string)
    requires domain != "" && NormalizeHost(Some(domain)) == domain && PlainLabel(domain)
    ensures GetRootDomain(domain) == domain && forall name :: RootReadsBack(name, domain)
  {
    var start := Text.TrimStart(domain);
    TrimStartShape(domain);
    TrimEndIsPrefix(start);
    var lower := Text.Lower(Text.Trim(domain));
    DropSchemeIsSuffix(lower);
    DropPortIsPrefix(DropScheme(lower));
    assert Text.Trim(domain) == start == domain;
    assert DropScheme(lower) == lower == domain;
    NoMarks(domain);
  }

  lemma PlainDomain(domain: string)
    requires domain == "mentrily.com"
    ensures NormalizeHost(Some(domain)) == domain && PlainLabel(domain)
    ensures forall i :: 0 <= i < |domain| ==> !EndsAuthority(domain[i])
  {
    assert forall i :: 0 <= i < |domain| ==> !EndsAuthority(domain[i]) && domain[i] != '@' && domain[i] != ':';
    assert Text.Trim(domain) == domain;
    LowerOfLower(domain);
  }

  /** With no domain configured, the root domain is the platform's own. */
  lemma DefaultRoot(domain: string)
    requires domain == "mentrily.com"
    ensures GetRootDomain("") == domain
  {
    PlainDomain(domain);
  }

  // ----- A label with an at sign -----

  lemma UserInFront(both: string, user: string, name: string, end: string, path: string)
    requires both == user + "@" + name
    ensures both + "." + end + path == user + (['@'] + (name + "." + end + path))
  {
    assert "@" == ['@'];
    assert both + "." + end + path == user + ['@'] + name + "." + end + path;
  }

  lemma UserAuthority(user: string, rest: string)
    requires PlainLabel(user)
    ensures Authority(user + (['@'] + rest)) == user + (['@'] + Authority(rest))
  {
    assert (['@'] + rest)[1..] == rest;
    AuthorityOf(user, ['@'] + rest);
  }

  lemma AfterUser(user: string, host: string)
    requires '@' !in host
    ensures AfterAt(user + (['@'] + host)) == host
  {
    assert user + (['@'] + host) == user + ['@'] + host;
    Text.LastIndexFound(user, host, '@');
  }

  lemma UserIsSkipped(scheme: string, both: string, user: string, name: string, end: string, path: string)
    requires ':' !in scheme && StartsWith(path, "/") && both == user + "@" + name
    requires PlainLabel(user) && PlainLabel(name) && '@' !in Authority(end)
    ensures UrlHost(scheme + "://" + (both + "." + end + path)) == HostBehind(name, end)
  {
    var rest, host := name + "." + end + path, name + "." + Authority(end);
    AfterSchemeOf(scheme, both + "." + end + path);
    UserInFront(both, user, name, end, path);
    UserAuthority(user, rest);
    LabelAuthority(name, end, path);
    AfterUser(user, host);
  }

  lemma UserIsRead(both: string, user: string, name: string, root: string, path: string)
    requires both == user + "@" + name && PlainLabel(user) && StartsWith(path, "/")
    requires IsLabel(name) && PlainLabel(name) && !Reserved(name)
    requires root != "" && IsLower(root) && '@' !in Authority(root) && RootReadsBack(name, root)
    ensures var url := Scheme(root) + "://" + (both + "." + Behind(root) + path);
      ParseHost(NormalizeHost(Some(UrlHost(url))), root) == Some(name)
  {
    SchemeFound(root, "");
    LocalAuthority();
    UserIsSkipped(Scheme(root), both, user, name, Behind(root), path);
    HostReadsBack(name, root);
  }

  /**
   What stands before an at sign in a label becomes the user of the URL, and what follows it
   is read as the organisation.
   */
  lemma AtSignNamesAnother(subdomain: string, user: string, name: string, pathname: string, domain: string)
    requires NormalizeLabel(subdomain) == user + "@" + name && PlainLabel(user)
    requires IsLabel(name) && PlainLabel(name) && !Reserved(name)
    requires var root := GetRootDomain(domain); root != "" && '@' !in Authority(root) && RootReadsBack(name, root)
    ensures var url := BuildOrgUrl(subdomain, pathname, domain);
      url.Some? && ParseSubdomain(Some(UrlHost(url.value)), domain) == Some(name)
  {
    var root := GetRootDomain(domain);
    RootIsLower(domain);
    BuiltUrl(subdomain, pathname, domain);
    UserIsRead(user + "@" + name, user, name, root, OrgPath(pathname));
  }

  lemma AtSignLabel(name: string)
    requires name == "x@y"
    ensures NormalizeLabel(name) == name && name == "x" + "@" + "y"
    ensures IsLabel("y") && !Reserved("y")
  {
    assert Text.Trim(name) == name;
    LowerOfLower(name);
  }

  lemma AtSignText(name: string, path: string, domain: string, scheme: string, url: string)
    requires name == "x@y" && path == "/" && domain == "mentrily.com"
    requires scheme == "https://" && url == "https://x@y.mentrily.com/"
    ensures scheme + name + "." + domain + path == url
  {
  }

  lemma AtSignUrl(name: string, path: string, domain: string)
    requires name == "x@y" && path == "/" && domain == "mentrily.com"
    requires NormalizeLabel(name) == name && GetRootDomain(domain) == domain
    ensures BuildOrgUrl(name, path, domain) == Some("https://x@y.mentrily.com/")
  {
    assert domain[0] == 'm' && "localhost"[0] == 'l';
    AtSignText(name, path, domain, "https://", "https://x@y.mentrily.com/");
  }

  /** The URL built for "x@y" is one of the organisation "y". */
  lemma AtSignExample(name: string, path: string, domain: string)
    requires name == "x@y" && path == "/" && domain == "mentrily.com"
    ensures BuildOrgUrl(name, path, domain) == Some("https://x@y.mentrily.com/")
    ensures ParseSubdomain(Some(UrlHost("https://x@y.mentrily.com/")), domain) == Some("y")
  {
    AtSignLabel(name);
    PlainDomain(domain);
    NormalRootReadsBack(domain);
    NoMarks(domain);
    AtSignUrl(name, path, domain);
    AtSignNamesAnother(name, "x", "y", path, domain);
  }

  // ----- Reading a whole URL -----

  /** What normalising leaves of the path of a URL. */
  function PathLeft(pathname: string): string {
    DropPort(Text.Lower(Text.TrimEnd(OrgPath(pathname))))
  }

  lemma {:induction false} PathTrimmed(head: string, path: string)
    requires StartsWith(path, "/")
    ensures Text.TrimEnd(head + path) == head + Text.TrimEnd(path) && StartsWith(Text.TrimEnd(path), "/")
    decreases |path|
  {
    var url := head + path;
    if Text.IsSpace(path[|path| - 1]) {
      PathTrimmed(head, path[..|path| - 1]);
      assert url[..|url| - 1] == head + path[..|path| - 1];
    }
  }

  lemma PathLeftShape(pathname: string)
    ensures StartsWith(PathLeft(pathname), "/") && !Text.AllDigits(Text.Lower(Text.TrimEnd(OrgPath(pathname))))
  {
    PathTrimmed("", OrgPath(pathname));
    assert Text.Lower(Text.TrimEnd(OrgPath(pathname)))[0] == '/';
  }

  lemma UrlTrimmed(head: string, path: string)
    requires head != "" && !Text.IsSpace(head[0]) && StartsWith(path, "/")
    ensures Text.Trim(head + path) == head + Text.TrimEnd(path)
  {
    assert Text.TrimStart(head + path) == head + path;
    PathTrimmed(head, path);
  }

  lemma LowerOfUrl(root: string, host: string, left: string)
    requires IsLower(host)
    ensures Text.Lower(Scheme(root) + "://" + host + left) == Scheme(root) + "://" + (host + Text.Lower(left))
  {
    assert forall i :: 0 <= i < |Scheme(root) + "://"| ==>
      Text.LowerChar((Scheme(root) + "://")[i]) == (Scheme(root) + "://")[i];
  }

  lemma SchemeDropped(root: string, rest: string)
    ensures DropScheme(Scheme(root) + "://" + rest) == rest
  {
    var url := Scheme(root) + "://" + rest;
    if root == "localhost" {
      assert "http" + "://" == "http://";
      assert url[7..] == rest;
    } else {
      assert "https" + "://" == "https://";
      assert url[4] == 's' && "http://"[4] == ':';
      assert url[8..] == rest;
    }
  }

  /** The scheme of a whole URL goes, but its path stays behind the host. */
  lemma UrlNormalized(root: string, host: string, pathname: string)
    requires IsLower(host)
    ensures NormalizeHost(Some(Scheme(root) + "://" + (host + OrgPath(pathname)))) == host + PathLeft(pathname)
  {
    var path := OrgPath(pathname);
    var left := Text.TrimEnd(path);
    assert Scheme(root) + "://" + (host + path) == Scheme(root) + "://" + host + path;
    UrlTrimmed(Scheme(root) + "://" + host, path);
    LowerOfUrl(root, host, left);
    SchemeDropped(root, host + Text.Lower(left));
    PathLeftShape(pathname);
    DropPortOf(host, Text.Lower(left));
  }

  /** A text that goes on behind the root domain names the organisation only if it ends in a subdomain again. */
  lemma ParseBehind(name: string, rest: string, root: string)
    requires IsLabel(name) && root != "" && rest != root && rest != "localhost"
    ensures ParseHost(name + "." + rest, root)
      == if !Reserved(name) && (EndsWith(rest, ".localhost") || EndsWith(rest, "." + root)) then Some(name) else None
  {
    var host := name + "." + rest;
    LocalLabelled(name, rest);
    SuffixOfHost(name, rest, root);
    Text.SplitPrefix(name, rest, '.');
    if EndsWith(rest, "." + root) {
      var before := rest[..|rest| - |root| - 1];
      assert host[..|host| - |root| - 1] == name + "." + before;
      Text.SplitPrefix(name, before, '.');
    }
  }

  lemma LabelledIsLower(name: string, root: string)
    requires IsLower(name) && IsLower(root)
    ensures IsLower(name + "." + Behind(root))
  {
    LocalTail();
    var host := name + "." + Behind(root);
    assert host[|name|] == '.';
  }

  lemma NotALocalhost(end: string, path: string)
    requires StartsWith(path, "/")
    ensures end + path != "localhost" && |end + path| > |end|
  {
    assert (end + path)[|end|] == '/';
    assert forall i :: 0 <= i < 9 ==> "localhost"[i] != '/';
  }

  lemma WholeUrlRead(name: string, root: string, pathname: string)
    requires IsLabel(name) && root != "" && IsLower(root)
    ensures var url, rest := Scheme(root) + "://" + (name + "." + Behind(root) + OrgPath(pathname)),
                             Behind(root) + PathLeft(pathname);
      ParseHost(NormalizeHost(Some(url)), root)
        == if !Reserved(name) && (EndsWith(rest, ".localhost") || EndsWith(rest, "." + root)) then Some(name) else None
  {
    var end, left := Behind(root), PathLeft(pathname);
    LabelledIsLower(name, root);
    UrlNormalized(root, name + "." + end, pathname);
    Regroup("", name + ".", end, left);
    PathLeftShape(pathname);
    NotALocalhost(end, left);
    ParseBehind(name, end + left, root);
  }

  /**
   Given the whole URL instead of its host, the reader names the organisation exactly when the
   path ends as one of its hosts would, and otherwise none: the path is still there when the
   end of the text is compared with the root domain.
   */
  lemma WholeUrlParses(subdomain: string, pathname: string, domain: string)
    requires var name := NormalizeLabel(subdomain); name != "" && '.' !in name
    requires GetRootDomain(domain) != ""
    ensures var url := BuildOrgUrl(subdomain, pathname, domain);
      var name, root := NormalizeLabel(subdomain), GetRootDomain(domain);
      var rest := Behind(root) + PathLeft(pathname);
      && url.Some?
      && ParseSubdomain(url, domain)
         == if !Reserved(name) && (EndsWith(rest, ".localhost") || EndsWith(rest, "." + root)) then Some(name) else None
  {
    LabelShape(subdomain);
    RootIsLower(domain);
    BuiltUrl(subdomain, pathname, domain);
    WholeUrlRead(NormalizeLabel(subdomain), GetRootDomain(domain), pathname);
  }

  lemma PathWithoutDot(pathname: string)
    requires '.' !in pathname
    ensures '.' !in PathLeft(pathname)
  {
    var path := OrgPath(pathname);
    assert '.' !in path;
    TrimEndIsPrefix(path);
    var left := Text.TrimEnd(path);
    assert forall i :: 0 <= i < |left| ==> left[i] == path[i] && Text.LowerChar(left[i]) != '.';
    DropPortIsPrefix(Text.Lower(left));
  }

  lemma SuffixReaches(end: string, path: string, root: string)
    requires StartsWith(path, "/")
    ensures EndsWith(end + path, "." + root) ==> '.' in path || '/' in root
  {
    var all, suffix := end + path, "." + root;
    if EndsWith(all, suffix) {
      var at := |all| - |suffix|;
      assert all[at] == suffix[0] == '.';
      if at >= |end| {
        assert all[at] == path[at - |end|];
      } else {
        assert all[|end|] == path[0] == '/';
        assert suffix[|end| - at] == all[at..][|end| - at] == '/';
      }
    }
  }

  lemma OrdinaryEnd(host: string, path: string, root: string)
    requires StartsWith(path, "/") && '.' !in path && '/' !in root
    ensures ParseHost(host + path, root) == None
  {
    NotALocalhost(host, path);
    SuffixReaches(host, path, root);
    assert "." + "localhost" == ".localhost";
    assert forall i :: 0 <= i < 9 ==> "localhost"[i] != '/';
    SuffixReaches(host, path, "localhost");
  }

  /** So no organisation is read from a URL whose path has no dot, such as "/dashboard", whatever its label. */
  lemma OrdinaryUrlNamesNone(subdomain: string, pathname: string, domain: string)
    requires '/' !in GetRootDomain(domain) && '.' !in pathname
    ensures ParseSubdomain(BuildOrgUrl(subdomain, pathname, domain), domain) == None
  {
    var url, name, root := BuildOrgUrl(subdomain, pathname, domain), NormalizeLabel(subdomain), GetRootDomain(domain);
    if url.Some? {
      var host := name + "." + Behind(root);
      LabelShape(subdomain);
      RootIsLower(domain);
      BuiltUrl(subdomain, pathname, domain);
      LabelledIsLower(name, root);
      UrlNormalized(root, host, pathname);
      PathLeftShape(pathname);
      PathWithoutDot(pathname);
      OrdinaryEnd(host, PathLeft(pathname), root);
    }
  }
}
