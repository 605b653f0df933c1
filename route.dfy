/**
  Upstream resolution: the first segment of the request URI becomes the
  subdomain in the upstream URL string, and everything after that
  segment's slash (further slashes and the query string included) becomes
  the path in that string. The segment is not checked, so a `?` or `#` in
  it lands inside what the template treats as the host; how an HTTP client
  then reads the host out of the string is not part of this model.
 */
module Route {
  import opened Wrappers

  /** The position of the first `c` in `s`, if `s` has one. */
  function IndexOf(s: string, c: char): (r: Option<nat>)
    ensures r.None? <==> c !in s
    ensures r.Some? ==> r.value < |s| && s[r.value] == c && c !in s[..r.value]
  {
    if s == [] then None
    else if s[0] == c then Some(0)
    else
      match IndexOf(s[1..], c)
      case None => None
      case Some(i) =>
        assert s[..i + 1] == [s[0]] + s[1..][..i];
        Some(i + 1)
  }

  /** The first `c` in `a + [c] + b` is the one just after `a` when `a` has none. */
  lemma IndexOfAfter(a: string, c: char, b: string)
    requires c !in a
    ensures IndexOf(a + [c] + b, c) == Some(|a|)
  {
    var s := a + [c] + b;
    assert s[|a|] == c;
    assert s[..|a|] == a;
  }

  /**
    Splits `s` at its first `sep` into at most two parts (the Go call
    `strings.SplitN(s, sep, 2)` for a one-character separator): one part
    when there is no separator, else the text before it and the text after.
   */
  function SplitOnce(s: string, sep: char): (parts: seq<string>)
    ensures |parts| == 1 || |parts| == 2
    ensures |parts| == 1 <==> sep !in s
    ensures |parts| == 1 ==> parts[0] == s
    ensures |parts| == 2 ==> s == parts[0] + [sep] + parts[1] && sep !in parts[0]
  {
    match IndexOf(s, sep)
    case None => [s]
    case Some(i) =>
      assert s == s[..i] + [sep] + s[i + 1..];
      [s[..i], s[i + 1..]]
  }

  /** The two parts are the ones the text was joined from, whenever the first has no separator. */
  lemma SplitOnceJoin(a: string, sep: char, b: string)
    requires sep !in a
    ensures SplitOnce(a + [sep] + b, sep) == [a, b]
  {
    var s := a + [sep] + b;
    IndexOfAfter(a, sep, b);
    assert s[..|a|] == a;
    assert s[|a| + 1..] == b;
  }

  /** The upstream chosen for a request: its subdomain and the path sent there. */
  datatype Target = Target(subdomain: string, path: string)

  /**
    Reads the target from a request URI: the first character is dropped and
    the rest is split once at `/`. Only the number of parts is checked, so
    an empty subdomain or an empty path is accepted.
   */
  function ParseTarget(uri: string): (t: Option<Target>)
    requires |uri| >= 1
    ensures t.None? <==> '/' !in uri[1..]
    ensures t.Some? ==> uri[1..] == t.value.subdomain + "/" + t.value.path
    ensures t.Some? ==> '/' !in t.value.subdomain
  {
    var parts := SplitOnce(uri[1..], '/');
    if |parts| < 2 then None else Some(Target(parts[0], parts[1]))
  }

  /** Any URI made of one leading character, a slash-free subdomain, `/` and a path reads back as that target. */
  lemma ParseTargetJoin(lead: char, t: Target)
    requires '/' !in t.subdomain
    ensures ParseTarget([lead] + t.subdomain + "/" + t.path) == Some(t)
  {
    var uri := [lead] + t.subdomain + "/" + t.path;
    assert uri[1..] == t.subdomain + ['/'] + t.path;
    SplitOnceJoin(t.subdomain, '/', t.path);
  }

  /**
    The upstream URL string for a target: the scheme, the subdomain, the
    fixed upstream domain, a slash, then the path unchanged.
   */
  function BuildURL(t: Target): (url: string)
    ensures |url| == |t.subdomain| + |t.path| + 20
    ensures url[..8] == "https://"
    ensures url[8..8 + |t.subdomain|] == t.subdomain
    ensures url[8 + |t.subdomain|..20 + |t.subdomain|] == ".roblox.com/"
    ensures url[20 + |t.subdomain|..] == t.path
  {
    "https://" + t.subdomain + ".roblox.com/" + t.path
  }

  /**
    Reads the subdomain and path back from an upstream URL string by
    splitting at its first `/` after the scheme: the inverse of `BuildURL`
    on strings. It is not the host an HTTP client would connect to.
   */
  function ParseURL(url: string): (t: Option<Target>)
  {
    if |url| < 8 || url[..8] != "https://" then None
    else
      var rest := url[8..];
      match IndexOf(rest, '/')
      case None => None
      case Some(i) =>
        var host := rest[..i];
        if |host| < 11 || host[|host| - 11..] != ".roblox.com" then None
        else Some(Target(host[..|host| - 11], rest[i + 1..]))
  }

  /** The upstream URL string determines the target it was built from, whenever the subdomain has no slash. */
  lemma URLRoundTrip(t: Target)
    requires '/' !in t.subdomain
    ensures ParseURL(BuildURL(t)) == Some(t)
  {
    var url := BuildURL(t);
    var host := t.subdomain + ".roblox.com";
    assert '/' !in ".roblox.com";
    assert '/' !in host;
    assert url[..8] == "https://";
    assert url[8..] == host + ['/'] + t.path;
    IndexOfAfter(host, '/', t.path);
    var rest := url[8..];
    assert rest[..|host|] == host;
    assert rest[|host| + 1..] == t.path;
    assert host[|host| - 11..] == ".roblox.com";
    assert host[..|host| - 11] == t.subdomain;
  }

  /**
    The URL sent upstream for a parsed URI is the URI's first segment as a
    subdomain of the upstream domain, followed verbatim by everything after
    that segment's slash, and it reads back as the same target.
   */
  lemma UpstreamOfURI(uri: string)
    requires |uri| >= 1 && ParseTarget(uri).Some?
    ensures var t := ParseTarget(uri).value;
      && 1 + |t.subdomain| < |uri|
      && uri[1 + |t.subdomain|] == '/'
      && BuildURL(t) == "https://" + uri[1..1 + |t.subdomain|] + ".roblox.com/" + uri[2 + |t.subdomain|..]
      && ParseURL(BuildURL(t)) == Some(t)
  {
    var t := ParseTarget(uri).value;
    var n := |t.subdomain|;
    assert uri[1..] == t.subdomain + "/" + t.path;
    assert uri[1..1 + n] == uri[1..][..n];
    assert uri[2 + n..] == uri[1..][n + 1..];
    URLRoundTrip(t);
  }

  /** The URI `/users/v1/users/1` selects the users subdomain and keeps the rest as the path. */
  lemma ExampleUsers(uri: string)
    requires uri == "/users/v1/users/1"
    ensures ParseTarget(uri) == Some(Target("users", "v1/users/1"))
  {
    var t := Target("users", "v1/users/1");
    assert uri == [uri[0]] + t.subdomain + "/" + t.path;
    ParseTargetJoin(uri[0], t);
  }

  /** The users target goes to `https://users.roblox.com/v1/users/1`. */
  lemma ExampleUsersURL(t: Target)
    requires t == Target("users", "v1/users/1")
    ensures BuildURL(t) == "https://users.roblox.com/v1/users/1"
  {
    assert "https://" + "users" + ".roblox.com/" + "v1/users/1" == "https://users.roblox.com/v1/users/1";
  }

  /** Empty segments pass the check: `//x` has an empty subdomain and `/a/` an empty path. */
  lemma ExampleEmptySegments(a: string, b: string)
    requires a == "//x" && b == "/a/"
    ensures ParseTarget(a) == Some(Target("", "x"))
    ensures ParseTarget(b) == Some(Target("a", ""))
  {
    assert a == [a[0]] + "" + "/" + "x";
    ParseTargetJoin(a[0], Target("", "x"));
    assert b == [b[0]] + "a" + "/" + "";
    ParseTargetJoin(b[0], Target("a", ""));
  }

  /** A URI with no slash after its first character, such as `/badpath`, has no target. */
  lemma ExampleNoSlash(uri: string)
    requires uri == "/badpath"
    ensures ParseTarget(uri).None?
  {
    var rest := uri[1..];
    assert rest == "badpath";
    assert forall i :: 0 <= i < |rest| ==> rest[i] != '/';
  }

  /**
    The segment is taken as it is: `/evil.example?/x` gives the subdomain
    `evil.example?`, and the URL string becomes `https://evil.example?.roblox.com/x`.
   */
  lemma ExampleQueryInSubdomain(uri: string)
    requires uri == "/evil.example?/x"
    ensures ParseTarget(uri) == Some(Target("evil.example?", "x"))
  {
    var t := Target("evil.example?", "x");
    assert '/' !in t.subdomain by {
      assert forall i :: 0 <= i < |t.subdomain| ==> t.subdomain[i] != '/';
    }
    assert uri == [uri[0]] + t.subdomain + "/" + t.path;
    ParseTargetJoin(uri[0], t);
  }

  /** The target with subdomain `evil.example?` gives the URL string `https://evil.example?.roblox.com/x`. */
  lemma ExampleQueryInSubdomainURL(t: Target)
    requires t == Target("evil.example?", "x")
    ensures BuildURL(t) == "https://evil.example?.roblox.com/x"
  {
    assert "https://" + "evil.example?" + ".roblox.com/" + "x" == "https://evil.example?.roblox.com/x";
  }
}
