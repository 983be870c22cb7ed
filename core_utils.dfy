/** `clean_http_referer` of djangoerp/core/utils/__init__.py: the referer
    of a request with the schemes and the current host cut out. */
module Referer {
  import opened Wrappers
  import opened Text

  /** The headers `clean_http_referer` reads from `request.META`. */
  datatype Meta = Meta(referer: Option<string>, host: Option<string>)

  /** The only error: `request.META['HTTP_HOST']` is missing. */
  datatype RefererError = KeyError

  /** Every "http://", then every "https://", then every occurrence of the
      host, removed in that order. */
  function Strip(referer: string, host: string): (r: string)
    ensures |r| <= |referer|
  {
    var noHttp := Replace(referer, "http://", "");
    var noHttps := Replace(noHttp, "https://", "");
    RemovalShortens(referer, "http://");
    RemovalShortens(noHttp, "https://");
    if host == "" then
      InterleaveEmpty(noHttps);
      noHttps
    else
      RemovalShortens(noHttps, host);
      Replace(noHttps, host, "")
  }

  /** Removing a non-empty pattern never lengthens a string. */
  lemma {:induction false} RemovalShortens(s: string, pat: string)
    requires |pat| > 0
    ensures |Replace(s, pat, "")| <= |s|
    decreases |s|
  {
    if s != [] {
      if StartsWith(s, pat) {
        RemovalShortens(s[|pat|..], pat);
      } else {
        RemovalShortens(s[1..], pat);
      }
    }
  }

  /** `clean_http_referer(request, default_referer)`: with no request the
      default; otherwise the referer header, or the default when it is
      missing, stripped of the schemes and the host. */
  function CleanHttpReferer(request: Option<Meta>, defaultReferer: string): (r: Result<string, RefererError>)
    ensures request.None? ==> r == Ok(defaultReferer)
    ensures request.Some? && request.value.host.None? ==> r == Err(KeyError)
    ensures request.Some? && request.value.host.Some? && request.value.referer.None?
            ==> r == Ok(Strip(defaultReferer, request.value.host.value))
    ensures request.Some? && request.value.host.Some? && request.value.referer.Some?
            ==> r == Ok(Strip(request.value.referer.value, request.value.host.value))
  {
    if request.None? then Ok(defaultReferer)
    else
      var referer := if request.value.referer.Some? then request.value.referer.value else defaultReferer;
      if request.value.host.None? then Err(KeyError) else Ok(Strip(referer, request.value.host.value))
  }

  /** A referer with no scheme and without the host is returned as it is. */
  lemma StripPlain(referer: string, host: string)
    requires !Contains(referer, "http://") && !Contains(referer, "https://")
    requires host == "" || !Contains(referer, host)
    ensures Strip(referer, host) == referer
  {
    ReplaceAbsent(referer, "http://", "");
    ReplaceAbsent(referer, "https://", "");
    if host != "" {
      ReplaceAbsent(referer, host, "");
    } else {
      InterleaveEmpty(referer);
    }
  }

  /** A leading "http://" is removed from a referer that is otherwise
      plain. */
  lemma StripLeadingHttp(rest: string, host: string)
    requires !Contains(rest, "http://") && !Contains(rest, "https://")
    requires host != "" && !Contains(rest, host)
    ensures Strip("http://" + rest, host) == rest
  {
    ReplaceLeading("http://", rest, "");
    ReplaceAbsent(rest, "http://", "");
    assert "" + rest == rest;
    ReplaceAbsent(rest, "https://", "");
    ReplaceAbsent(rest, host, "");
  }

  /** A leading host is removed from a referer with no scheme. */
  lemma StripLeadingHost(host: string, rest: string)
    requires !Contains(host + rest, "http://") && !Contains(host + rest, "https://")
    requires host != "" && !Contains(rest, host)
    ensures Strip(host + rest, host) == rest
  {
    ReplaceAbsent(host + rest, "http://", "");
    ReplaceAbsent(host + rest, "https://", "");
    ReplaceLeading(host, rest, "");
    ReplaceAbsent(rest, host, "");
    assert "" + rest == rest;
  }

  /** A referer on another site keeps its host: "http://www.test.com" seen
      on host "myhost.com" gives "www.test.com". */
  lemma OtherSiteReferer()
    ensures CleanHttpReferer(Some(Meta(Some("http://www.test.com"), Some("myhost.com"))), "/") == Ok("www.test.com")
  {
    var rest := "www.test.com";
    OtherSitePlain(rest);
    StripLeadingHttp(rest, "myhost.com");
    assert "http://www.test.com" == "http://" + rest;
  }

  lemma OtherSitePlain(rest: string)
    requires rest == "www.test.com"
    ensures !Contains(rest, "http://") && !Contains(rest, "https://") && !Contains(rest, "myhost.com")
  {
    MissingCharNotContains(rest, "http://", 'h');
    MissingCharNotContains(rest, "https://", 'h');
    MissingCharNotContains(rest, "myhost.com", 'y');
  }

  /** The current host is cut out: "myhost.com/test" gives "/test". */
  lemma HostStrippedReferer()
    ensures CleanHttpReferer(Some(Meta(Some("myhost.com/test"), Some("myhost.com"))), "/") == Ok("/test")
  {
    var host, rest := "myhost.com", "/test";
    assert "myhost.com/test" == host + rest;
    MissingCharNotContains(host + rest, "http://", 'p');
    MissingCharNotContains(host + rest, "https://", 'p');
    MissingCharNotContains(rest, host, 'm');
    StripLeadingHost(host, rest);
  }

  /** Scheme and host both go: "http://myhost.com/bookmarks/" gives
      "/bookmarks/". */
  lemma BookmarkReferer()
    ensures CleanHttpReferer(Some(Meta(Some("http://myhost.com/bookmarks/"), Some("myhost.com"))), "/") == Ok("/bookmarks/")
  {
    var host, rest := "myhost.com", "/bookmarks/";
    var s := host + rest;
    assert "http://myhost.com/bookmarks/" == "http://" + s;
    BookmarkPlain(host, rest);
    ReplaceLeading("http://", s, "");
    ReplaceAbsent(s, "http://", "");
    assert "" + s == s;
    StripLeadingHost(host, rest);
  }

  lemma BookmarkPlain(host: string, rest: string)
    requires host == "myhost.com" && rest == "/bookmarks/"
    ensures !Contains(host + rest, "http://") && !Contains(host + rest, "https://") && !Contains(rest, host)
  {
    MissingCharNotContains(host + rest, "http://", 'p');
    MissingCharNotContains(host + rest, "https://", 'p');
    MissingCharNotContains(rest, host, 'y');
  }

  /** Not only a leading scheme is removed: a scheme after a path that has
      no 'h' is removed too. */
  lemma SchemeRemovedAnywhere(path: string, rest: string)
    requires 'h' !in path && !Contains(rest, "http://") && !Contains(rest, "https://")
    ensures Strip(path + "http://" + rest, "") == path + rest
  {
    ReplaceAfterPlain(path, "http://", rest, "");
    ReplaceAbsent(rest, "http://", "");
    assert path + "" + rest == path + rest;
    NotContainsConcat(path, rest, "https://");
    ReplaceAbsent(path + rest, "https://", "");
    InterleaveEmpty(path + rest);
  }
}

/** `check_dependency` and `DependencyError` of
    djangoerp/core/utils/dependencies.py. */
module Dependencies {
  import opened Wrappers
  import opened Text

  /** `DependencyError(app_name)`: it keeps the missing app's name. */
  datatype DependencyError = DependencyError(appName: string)

  const MessagePrefix: string := "A dependency is not satisfied: "

  /** `DependencyError.__str__` */
  function Message(e: DependencyError): (msg: string)
    ensures StartsWith(msg, MessagePrefix)
    ensures msg[|MessagePrefix|..] == e.appName
  {
    MessagePrefix + e.appName
  }

  /** The message names the app: two errors with the same message are for
      the same app. */
  lemma MessageNamesApp(a: DependencyError, b: DependencyError)
    requires Message(a) == Message(b)
    ensures a == b
  {
    assert a.appName == Message(a)[|MessagePrefix|..];
  }

  /** `check_dependency(app_name)` against `settings.INSTALLED_APPS`: it
      raises exactly when the app is not installed, with that app's name. */
  function CheckDependency(installedApps: seq<string>, appName: string): (r: Outcome<DependencyError>)
    ensures r.Pass? <==> appName in installedApps
    ensures r.Fail? ==> r.error == DependencyError(appName)
  {
    if appName !in installedApps then Fail(DependencyError(appName)) else Pass
  }
}
