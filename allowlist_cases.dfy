/** What the allowlist check does with the shipped allowlist: which URLs it
    admits, and its answers on the URLs the repository's unit test lists. */
module AllowlistCases {
  import opened Text
  import opened Allowlist
  import opened Confs

  const Campus: string := "campus.kit.edu"

  /** Every http or https URL on the campus host with something below
      `/sp/webcal/` is admitted, whatever the segments after it hold. */
  lemma ShippedAdmitsBelowWebcal(url: Url, rest: seq<string>)
    requires url.host == Campus && (url.scheme == "http" || url.scheme == "https")
    requires url.path == ["sp", "webcal"] + rest && Join(rest, "/") != ""
    ensures VerdictOf(url, OriginWhitelist) == Allowed
  {
    BelowDirectoryKeepsPrefix(["sp", "webcal"], rest);
    assert "/" + Join(["sp", "webcal"], "/") + "/" == "/sp/webcal/";
    assert OriginWhitelist[Campus].paths[0] == "/sp/webcal/";
    assert MatchesSomePrefix(RebuiltPath(url.path), OriginWhitelist[Campus].paths);
  }

  /** Conversely an admitted URL is on the campus host, uses http or https and
      rebuilds to a path below `/sp/webcal/`. */
  lemma ShippedAllowedMeans(url: Url)
    requires VerdictOf(url, OriginWhitelist) == Allowed
    ensures url.host == Campus
    ensures url.scheme == "http" || url.scheme == "https"
    ensures "/sp/webcal/" <= RebuiltPath(url.path)
  {
    var rule := OriginWhitelist[Campus];
    assert MatchesSomePrefix(RebuiltPath(url.path), rule.paths);
    var i :| 0 <= i < |rule.paths| && rule.paths[i] <= RebuiltPath(url.path);
  }

  /** Any host other than the campus host is refused for that reason, whatever
      the scheme and path. */
  lemma ForeignHostRejected(url: Url)
    requires url.host != Campus
    ensures VerdictOf(url, OriginWhitelist) == Rejected(HostNotWhitelisted, Forbidden)
  {
  }

  /** The unit test's URLs whose host is not listed: `example.com`, `kit.edu`. */
  lemma {:induction false} TestForeignHosts()
    ensures forall scheme :: scheme in ["abc", "http", "https"] ==>
      VerdictOf(Url(scheme, "example.com", []), OriginWhitelist).Rejected?
      && VerdictOf(Url(scheme, "kit.edu", []), OriginWhitelist).Rejected?
  {
    forall scheme | scheme in ["abc", "http", "https"]
      ensures VerdictOf(Url(scheme, "example.com", []), OriginWhitelist).Rejected?
      ensures VerdictOf(Url(scheme, "kit.edu", []), OriginWhitelist).Rejected?
    {
      ForeignHostRejected(Url(scheme, "example.com", []));
      ForeignHostRejected(Url(scheme, "kit.edu", []));
    }
  }

  /** The scheme is checked before the path: `abc://campus.kit.edu/...` is
      refused for its scheme, with or without an admissible path. */
  lemma TestUnlistedScheme(path: seq<string>)
    ensures VerdictOf(Url("abc", Campus, path), OriginWhitelist)
      == Rejected(SchemeNotWhitelisted, Forbidden)
  {
  }

  /** The bare host and `/test` rebuild to `/` and `/tes`, below no prefix. */
  lemma {:induction false} TestPathsOutsideWebcal(scheme: string)
    requires scheme == "http" || scheme == "https"
    ensures VerdictOf(Url(scheme, Campus, []), OriginWhitelist) == Rejected(PathNotWhitelisted, Forbidden)
    ensures VerdictOf(Url(scheme, Campus, ["test"]), OriginWhitelist) == Rejected(PathNotWhitelisted, Forbidden)
  {
    assert RebuiltPath([]) == "/";
    assert RebuiltPath(["test"]) == "/tes";
    assert !("/sp/webcal/" <= "/tes");
  }

  /** `http(s)://campus.kit.edu/sp/webcal/abc` is admitted: the check sees
      `/sp/webcal/ab`. */
  lemma {:induction false} TestAdmitted(scheme: string)
    requires scheme == "http" || scheme == "https"
    ensures RebuiltPath(["sp", "webcal", "abc"]) == "/sp/webcal/ab"
    ensures VerdictOf(Url(scheme, Campus, ["sp", "webcal", "abc"]), OriginWhitelist) == Allowed
  {
    ShippedAdmitsBelowWebcal(Url(scheme, Campus, ["sp", "webcal", "abc"]), ["abc"]);
    JoinAppend(["sp", "webcal"], ["abc"], "/");
  }

  /** The unit test expects `.../sp/webcal/abc/../..` to be refused, but the
      segments are not resolved: the check sees `/sp/webcal/abc/../.` and
      admits it, although the URL names `/sp/`. */
  lemma {:induction false} TraversalAdmitted(scheme: string)
    requires scheme == "http" || scheme == "https"
    ensures VerdictOf(Url(scheme, Campus, ["sp", "webcal", "abc", "..", ".."]), OriginWhitelist) == Allowed
  {
    RebuiltPathWithDotSegments();
    assert "/sp/webcal/" <= "/sp/webcal/abc/../.";
    assert OriginWhitelist[Campus].paths[0] == "/sp/webcal/";
    assert MatchesSomePrefix("/sp/webcal/abc/../.", OriginWhitelist[Campus].paths);
  }

  /** The directory itself is refused: `/sp/webcal/` rebuilds to `/sp/webcal`
      and `/sp/webcal` to `/sp/webca`. */
  lemma {:induction false} WebcalDirectoryRejected(scheme: string)
    requires scheme == "http" || scheme == "https"
    ensures VerdictOf(Url(scheme, Campus, ["sp", "webcal", ""]), OriginWhitelist) == Rejected(PathNotWhitelisted, Forbidden)
    ensures VerdictOf(Url(scheme, Campus, ["sp", "webcal"]), OriginWhitelist) == Rejected(PathNotWhitelisted, Forbidden)
  {
    JoinAppend(["sp", "webcal"], [""], "/");
    assert ["sp", "webcal", ""] == ["sp", "webcal"] + [""];
    assert RebuiltPath(["sp", "webcal", ""]) == "/sp/webcal";
    assert !("/sp/webcal/" <= "/sp/webcal");
    assert RebuiltPath(["sp", "webcal"]) == "/sp/webca";
    assert !("/sp/webcal/" <= "/sp/webca");
  }
}
