/** The origin allowlist check of the relay: a parsed URL is admitted when its
    host is a key of the allowlist, its scheme is one the host's rule lists and
    its rebuilt path starts with one of the rule's prefixes, the two lists
    restricting nothing when they are empty. */
module Allowlist {
  import opened Text

  /** The fields of a parsed URL the check reads: `path` holds the segments
      between the slashes, as the URL parser returns them. */
  datatype Url = Url(scheme: string, host: string, path: seq<string>)

  /** A host's rule: the accepted schemes and the accepted path prefixes. */
  datatype Rule = Rule(schemes: seq<string>, paths: seq<string>)

  type Whitelist = map<string, Rule>

  datatype Reason = HostNotWhitelisted | SchemeNotWhitelisted | PathNotWhitelisted

  /** Every rejection carries status 403; the check has no `false` answer. */
  datatype Verdict = Allowed | Rejected(reason: Reason, status: nat)

  const Forbidden: nat := 403

  /** The path the prefixes are matched against: a slash, then the segments
      joined by slashes with the join's last character dropped. */
  function RebuiltPath(segments: seq<string>): (p: string)
    ensures |p| > 0 && p[0] == '/'
    ensures p[1..] <= Join(segments, "/")
    ensures |p| == if Join(segments, "/") == "" then 1 else |Join(segments, "/")|
  {
    "/" + DropLast(Join(segments, "/"))
  }

  predicate MatchesSomePrefix(p: string, prefixes: seq<string>)
  {
    exists i :: 0 <= i < |prefixes| && prefixes[i] <= p
  }

  /** An empty scheme list admits every scheme. */
  predicate SchemeAccepted(rule: Rule, scheme: string)
  {
    |rule.schemes| == 0 || scheme in rule.schemes
  }

  /** An empty prefix list admits every path. */
  predicate PathAccepted(rule: Rule, path: string)
  {
    |rule.paths| == 0 || MatchesSomePrefix(path, rule.paths)
  }

  /** The answer of the check: host first, then scheme, then path, stopping at
      the first failure. */
  function VerdictOf(url: Url, wl: Whitelist): (v: Verdict)
    ensures v.Rejected? ==> v.status == Forbidden
    ensures v == Allowed <==>
      url.host in wl && SchemeAccepted(wl[url.host], url.scheme)
      && PathAccepted(wl[url.host], RebuiltPath(url.path))
    ensures v.Rejected? && v.reason == HostNotWhitelisted <==> url.host !in wl
    ensures v.Rejected? && v.reason == SchemeNotWhitelisted <==>
      url.host in wl && !SchemeAccepted(wl[url.host], url.scheme)
    ensures v.Rejected? && v.reason == PathNotWhitelisted <==>
      url.host in wl && SchemeAccepted(wl[url.host], url.scheme)
      && !PathAccepted(wl[url.host], RebuiltPath(url.path))
  {
    if url.host !in wl then Rejected(HostNotWhitelisted, Forbidden)
    else if !SchemeAccepted(wl[url.host], url.scheme) then Rejected(SchemeNotWhitelisted, Forbidden)
    else if !PathAccepted(wl[url.host], RebuiltPath(url.path)) then Rejected(PathNotWhitelisted, Forbidden)
    else Allowed
  }

  /** The text of the 403 a rejection aborts with: it names the part of the
      URL that failed and ends with the value that was refused. */
  function RejectionMessage(reason: Reason, url: Url): (m: string)
    ensures reason == HostNotWhitelisted ==> "Hostname" <= m && |url.host| <= |m| && m[|m| - |url.host|..] == url.host
    ensures reason == SchemeNotWhitelisted ==> "Scheme" <= m && |url.scheme| <= |m| && m[|m| - |url.scheme|..] == url.scheme
    ensures reason == PathNotWhitelisted ==>
              "Path" <= m && |RebuiltPath(url.path)| <= |m|
              && m[|m| - |RebuiltPath(url.path)|..] == RebuiltPath(url.path)
  {
    match reason
    case HostNotWhitelisted => "Hostname not whitelisted, " + url.host
    case SchemeNotWhitelisted => "Scheme not whitelisted, " + url.scheme
    case PathNotWhitelisted => "Path not whitelisted, " + RebuiltPath(url.path)
  }

  /** The `for ... else` search over the prefixes: the index of the first
      prefix the path starts with, or `|prefixes|` when there is none. */
  method FirstMatchingPrefix(p: string, prefixes: seq<string>) returns (i: nat)
    ensures i <= |prefixes|
    ensures i < |prefixes| ==> prefixes[i] <= p
    ensures forall j :: 0 <= j < i ==> !(prefixes[j] <= p)
    ensures i == |prefixes| <==> !MatchesSomePrefix(p, prefixes)
  {
    i := 0;
    while i < |prefixes|
      invariant i <= |prefixes|
      invariant forall j :: 0 <= j < i ==> !(prefixes[j] <= p)
    {
      if prefixes[i] <= p {
        return;
      }
      i := i + 1;
    }
  }

  /** `check_cal_url` on an already parsed URL. */
  method CheckCalUrl(url: Url, wl: Whitelist) returns (v: Verdict)
    ensures v == VerdictOf(url, wl)
  {
    if url.host !in wl {
      return Rejected(HostNotWhitelisted, Forbidden);
    }
    var options := wl[url.host];
    if |options.schemes| > 0 && url.scheme !in options.schemes {
      return Rejected(SchemeNotWhitelisted, Forbidden);
    }
    var urlPath := RebuiltPath(url.path);
    if |options.paths| > 0 {
      var k := FirstMatchingPrefix(urlPath, options.paths);
      if k == |options.paths| {
        return Rejected(PathNotWhitelisted, Forbidden);
      }
    }
    return Allowed;
  }

  /** A rule with two empty lists admits every URL on its host. */
  lemma EmptyRuleAdmitsAll(url: Url, wl: Whitelist)
    requires url.host in wl && wl[url.host] == Rule([], [])
    ensures VerdictOf(url, wl) == Allowed
  {
  }

  /** A URL with at least one non-empty segment below the directory `dir`
      rebuilds to a path starting with `/dir/`; only the join's last character
      is lost, and it lies past that prefix. */
  lemma {:induction false} BelowDirectoryKeepsPrefix(dir: seq<string>, rest: seq<string>)
    requires |dir| > 0 && Join(rest, "/") != ""
    ensures "/" + Join(dir, "/") + "/" <= RebuiltPath(dir + rest)
  {
    assert |rest| > 0;
    JoinAppend(dir, rest, "/");
    var whole := Join(dir + rest, "/");
    var head := Join(dir, "/") + "/";
    assert whole == head + Join(rest, "/");
    assert head <= DropLast(whole);
  }

  /** The rebuilt path keeps the traversal segments and loses one character. */
  lemma {:induction false} RebuiltPathWithDotSegments()
    ensures RebuiltPath(["sp", "webcal", "abc", "..", ".."]) == "/sp/webcal/abc/../."
  {
    var segs := ["sp", "webcal", "abc", "..", ".."];
    JoinAppend(["sp", "webcal"], ["abc", "..", ".."], "/");
    assert segs == ["sp", "webcal"] + ["abc", "..", ".."];
  }
}
