/**
 * The post-login redirect target: the open-redirect guard that decides what is
 * remembered in the session, the read-then-delete that consumes it, and the
 * helper that appends a `redirect` query parameter to a URL.
 */
module Redirects {
  import opened Values

  /** The session key the remembered target is kept under. */
  const RedirectKey: string := "HybridAuth.redirectUrl"

  /** The query string key of the remembered target. */
  const QueryStringRedirect: string := "redirect"

  /** PHP's `substr($s, 0, $n)` for `$n >= 0`. */
  function Prefix(s: string, n: nat): (p: string)
    ensures |p| <= n && p <= s
    ensures |s| >= n ==> |p| == n
  {
    if |s| <= n then s else s[..n]
  }

  /**
   * The guard of `_setRedirectUrl`: the query value is present, not empty, begins
   * with `/` and does not begin with `//`.
   */
  predicate AcceptedRedirect(query: Option<string>)
  {
    query.Some?
    && Truthy(Str(query.value))
    && Prefix(query.value, 1) == "/"
    && Prefix(query.value, 2) != "//"
  }

  /**
   * The guard accepts exactly the server-relative paths: a first character `/`
   * that is not followed by a second `/`.
   */
  lemma AcceptedRedirectIsLocalPath(s: string)
    ensures AcceptedRedirect(Some(s)) <==> |s| >= 1 && s[0] == '/' && (|s| == 1 || s[1] != '/')
  {
    if |s| >= 2 && s[0] == '/' && s[1] != '/' {
      assert Prefix(s, 2) == [s[0], s[1]];
      assert Prefix(s, 2)[1] != '/';
    }
    if |s| >= 2 && s[0] == '/' && s[1] == '/' {
      assert Prefix(s, 2) == "//";
    }
    if |s| >= 1 && s[0] == '/' {
      assert Prefix(s, 1) == [s[0]];
      assert s != "0";
    }
    if AcceptedRedirect(Some(s)) {
      assert s[..1] == Prefix(s, 1);
    }
  }

  /**
   * `_setRedirectUrl` on the session data: the remembered target is always
   * cleared first and then set only to an accepted query value.
   */
  function StoreRedirect(session: Fields, query: Option<string>): (r: Fields)
    ensures RedirectKey in r <==> AcceptedRedirect(query)
    ensures AcceptedRedirect(query) ==> r[RedirectKey] == Str(query.value)
    ensures forall k :: k != RedirectKey ==> Get(r, k) == Get(session, k)
  {
    var cleared := session - {RedirectKey};
    if AcceptedRedirect(query) then cleared[RedirectKey := Str(query.value)] else cleared
  }

  /**
   * `_getRedirectUrl` on the session data: a truthy remembered target is
   * returned and deleted; otherwise the fallback is returned and the session is
   * left alone.
   */
  function TakeRedirect(session: Fields, fallback: Value): (r: (Value, Fields))
    ensures Truthy(Get(session, RedirectKey)) ==> r.0 == session[RedirectKey] && RedirectKey !in r.1
    ensures !Truthy(Get(session, RedirectKey)) ==> r == (fallback, session)
    ensures forall k :: k != RedirectKey ==> Get(r.1, k) == Get(session, k)
  {
    var stored := Get(session, RedirectKey);
    if Truthy(stored) then (stored, session - {RedirectKey}) else (fallback, session)
  }

  /**
   * An accepted target is used exactly once: the first read returns it, the
   * second read returns the fallback.
   */
  lemma RedirectConsumedOnce(session: Fields, s: string, fallback: Value)
    requires AcceptedRedirect(Some(s))
    ensures TakeRedirect(StoreRedirect(session, Some(s)), fallback).0 == Str(s)
    ensures var after := TakeRedirect(StoreRedirect(session, Some(s)), fallback).1;
            TakeRedirect(after, fallback) == (fallback, after)
  {
    var stored := StoreRedirect(session, Some(s));
    assert Get(stored, RedirectKey) == Str(s);
  }

  /** A rejected query value is never used: the next read returns the fallback. */
  lemma RejectedRedirectFallsBack(session: Fields, query: Option<string>, fallback: Value)
    requires !AcceptedRedirect(query)
    ensures TakeRedirect(StoreRedirect(session, query), fallback) == (fallback, session - {RedirectKey})
  {
    var stored := StoreRedirect(session, query);
    assert stored == session - {RedirectKey};
  }

  /** A scheme-relative URL and a relative path are refused; an absolute path is kept. */
  lemma RedirectGuardExamples()
    ensures !AcceptedRedirect(Some("//evil.example"))
    ensures !AcceptedRedirect(Some("account"))
    ensures !AcceptedRedirect(Some(""))
    ensures !AcceptedRedirect(None)
    ensures AcceptedRedirect(Some("/account/settings"))
  {
    AcceptedRedirectIsLocalPath("//evil.example");
    AcceptedRedirectIsLocalPath("account");
    AcceptedRedirectIsLocalPath("/account/settings");
  }

  /** The query parameter `redirect=<encoded target>`. */
  function RedirectParameter(redirect: string, urlencode: string -> string): string
  {
    QueryStringRedirect + "=" + urlencode(redirect)
  }

  /** A URL as `_appendRedirectQueryString` takes it: a string, or a route array with its `?` element. */
  datatype Url = Href(s: string) | RouteArray(parts: Fields, query: map<string, string>)

  /** The part of a URL string before its first `?`. */
  function Path(s: string): string
  {
    if s == [] || s[0] == '?' then [] else [s[0]] + Path(s[1..])
  }

  /** The part of a URL string after its first `?`, empty when there is none. */
  function Query(s: string): string
  {
    if s == [] then [] else if s[0] == '?' then s[1..] else Query(s[1..])
  }

  /** A URL string is its path, then `?` and its query when it has one. */
  lemma {:induction false} PathQueryJoin(s: string)
    ensures s == Path(s) + (if '?' in s then "?" + Query(s) else "")
  {
    if s != [] && s[0] != '?' {
      PathQueryJoin(s[1..]);
      assert '?' in s <==> '?' in s[1..];
      assert s == [s[0]] + s[1..];
    }
  }

  /** Appending to a URL that already has a query extends only its query. */
  lemma {:induction false} AppendAfterQuery(s: string, t: string)
    requires '?' in s
    ensures Path(s + t) == Path(s) && Query(s + t) == Query(s) + t
  {
    assert s != [];
    if s[0] == '?' {
      assert (s + t)[0] == '?' && (s + t)[1..] == s[1..] + t;
    } else {
      AppendAfterQuery(s[1..], t);
      assert (s + t)[1..] == s[1..] + t;
    }
  }

  /** Appending `?` and a query to a URL without one gives exactly that path and query. */
  lemma {:induction false} AppendNewQuery(s: string, t: string)
    requires '?' !in s
    ensures Path(s + "?" + t) == s && Query(s + "?" + t) == t
  {
    if s == [] {
      assert s + "?" + t == ['?'] + t;
    } else {
      AppendNewQuery(s[1..], t);
      assert (s + "?" + t)[1..] == s[1..] + "?" + t;
    }
  }

  /**
   * `_appendRedirectQueryString`: an empty or falsy target leaves the URL alone;
   * otherwise a route array gets the raw target under `redirect` in its query,
   * and a string gets `?` (no query yet) or `&`, `redirect=` and the encoded
   * target.
   */
  function AppendRedirectQueryString(url: Url, redirect: Option<string>, urlencode: string -> string): (r: Url)
    ensures !(redirect.Some? && Truthy(Str(redirect.value))) ==> r == url
    ensures r.Href? <==> url.Href?
    ensures r.RouteArray? && redirect.Some? && Truthy(Str(redirect.value)) ==>
      r.parts == url.parts && r.query == url.query[QueryStringRedirect := redirect.value]
  {
    if !(redirect.Some? && Truthy(Str(redirect.value))) then url
    else match url
      case RouteArray(parts, query) => RouteArray(parts, query[QueryStringRedirect := redirect.value])
      case Href(s) =>
        var sep := if '?' !in s then "?" else "&";
        Href(s + sep + RedirectParameter(redirect.value, urlencode))
  }

  /** Adding `&` and a parameter to a URL that has a query keeps its path. */
  lemma AppendParameter(s: string, param: string)
    requires '?' in s
    ensures Path(s + "&" + param) == Path(s) && Query(s + "&" + param) == Query(s) + "&" + param
  {
    AppendAfterQuery(s, "&" + param);
    assert s + "&" + param == s + ("&" + param);
    assert Query(s) + ("&" + param) == Query(s) + "&" + param;
  }

  /** Adding `?` and a parameter to a URL without a query keeps its path. */
  lemma StartQuery(s: string, param: string)
    requires '?' !in s
    ensures Path(s + "?" + param) == Path(s) && Query(s + "?" + param) == param
  {
    AppendNewQuery(s, param);
    PathQueryJoin(s);
  }

  /**
   * On a URL string the path is kept and `redirect=<encoded target>` becomes the
   * last query parameter, joined to an existing query by `&`.
   */
  lemma AppendedRedirectIsLastParameter(s: string, redirect: string, urlencode: string -> string)
    requires Truthy(Str(redirect))
    ensures var r := AppendRedirectQueryString(Href(s), Some(redirect), urlencode).s;
      && Path(r) == Path(s)
      && Query(r) == (if '?' in s then Query(s) + "&" else "") + RedirectParameter(redirect, urlencode)
  {
    var param := RedirectParameter(redirect, urlencode);
    if '?' in s {
      AppendParameter(s, param);
    } else {
      StartQuery(s, param);
      assert "" + param == param;
    }
  }
}
