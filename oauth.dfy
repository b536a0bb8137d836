/**
  OAuth authentication with an access token: the authenticator appends the
  query parameter `access_token=<token>` to the request URL. Whether it joins
  the parameter with `?` or `&` depends on where the first `?` of the URL sits
  (the query component of section 3.4 of RFC 3986 starts after the first `?`).
 */
module OAuthAuth {
  import opened Results
  import opened Explode
  import Http

  const TokenParameter: string := "access_token="

  /** `strpos(s, c)`: the index of the first `c`, or None (PHP false) when there is none. */
  function FirstIndex(s: string, c: char): (r: Option<nat>)
    ensures r.None? <==> c !in s
    ensures r.Some? ==> r.value < |s| && s[r.value] == c && c !in s[..r.value]
    decreases |s|
  {
    if |s| == 0 then None
    else if s[0] == c then Some(0)
    else
      match FirstIndex(s[1..], c)
      case None => None
      case Some(i) =>
        assert s[..i + 1] == [s[0]] + s[1..][..i];
        Some(i + 1)
  }

  /**
    `strpos($url, '?') > 0 ? '&' : '?'`: PHP compares false with 0 as false,
    so a URL without `?` and a URL starting with `?` both get `?`.
   */
  function QueryPrefix(url: string): (p: char)
    ensures p == '&' <==> '?' in url && url[0] != '?'
    ensures p != '&' ==> p == '?'
  {
    match FirstIndex(url, '?')
    case Some(i) => if i > 0 then '&' else '?'
    case None => '?'
  }

  /** The URL `authenticate` sets: the old URL, the prefix, and the token parameter, unescaped. */
  function WithAccessToken(url: string, token: string): (r: string)
    ensures |r| == |url| + 14 + |token|
    ensures r[..|url|] == url && r[|url|] == QueryPrefix(url)
    ensures r[|url| + 1..|url| + 14] == TokenParameter && r[|url| + 14..] == token
  {
    var r := url + [QueryPrefix(url)] + TokenParameter + token;
    assert r[..|url|] == url;
    assert r[|url| + 1..|url| + 14] == TokenParameter;
    assert r[|url| + 14..] == token;
    r
  }

  /** The query string of a URL: what follows its first `?`, or nothing when it has none. */
  function QueryOf(url: string): (q: string)
    ensures '?' !in url ==> q == []
    ensures '?' in url ==> |q| < |url| && url[|url| - |q| - 1] == '?' &&
                           '?' !in url[..|url| - |q| - 1] && url[|url| - |q|..] == q
  {
    match FirstIndex(url, '?')
    case Some(i) => url[i + 1..]
    case None => ""
  }

  /** The query of the extended URL is the old query followed by the separator and the token parameter. */
  lemma QueryOfWithAccessToken(url: string, token: string)
    requires url == [] || url[0] != '?'
    ensures '?' in url ==> QueryOf(WithAccessToken(url, token)) == QueryOf(url) + "&" + TokenParameter + token
    ensures '?' !in url ==> QueryOf(WithAccessToken(url, token)) == TokenParameter + token
  {
    if '?' in url {
      QueryExtended(url, token);
    } else {
      QueryStarted(url, token);
    }
  }

  lemma QueryExtended(url: string, token: string)
    requires '?' in url && url[0] != '?'
    ensures QueryOf(WithAccessToken(url, token)) == QueryOf(url) + "&" + TokenParameter + token
  {
    var tail := [QueryPrefix(url)] + TokenParameter + token;
    assert WithAccessToken(url, token) == url + tail;
    QueryOfExtension(url, tail);
    Regroup(QueryOf(url), [QueryPrefix(url)], TokenParameter, token);
    assert QueryPrefix(url) == '&';
  }

  lemma Regroup3<T>(a: seq<T>, b: seq<T>, c: seq<T>)
    ensures a + b + c == a + (b + c)
  {}

  lemma Regroup<T>(a: seq<T>, b: seq<T>, c: seq<T>, d: seq<T>)
    ensures a + (b + c + d) == a + b + c + d
  {}

  lemma QueryStarted(url: string, token: string)
    requires '?' !in url
    ensures QueryOf(WithAccessToken(url, token)) == TokenParameter + token
  {
    var param := TokenParameter + token;
    var tail := [QueryPrefix(url)] + param;
    assert WithAccessToken(url, token) == url + tail;
    QueryPastPrefix(url, tail);
    DropFirst(QueryPrefix(url), param);
  }

  lemma DropFirst<T>(x: T, s: seq<T>)
    ensures ([x] + s)[1..] == s
  {}

  /** Text appended after a query belongs to that query. */
  lemma QueryOfExtension(s: string, t: string)
    requires '?' in s
    ensures QueryOf(s + t) == QueryOf(s) + t
  {
    FirstIndexOfExtension(s, t, '?');
    var i := FirstIndex(s, '?').value;
    assert (s + t)[i + 1..] == s[i + 1..] + t;
  }

  /** Appending a `?` to a URL without one starts the query there. */
  lemma QueryPastPrefix(s: string, t: string)
    requires '?' !in s && |t| > 0 && t[0] == '?'
    ensures QueryOf(s + t) == t[1..]
  {
    FirstIndexPastPrefix(s, t, '?');
    assert (s + t)[|s| + 1..] == t[1..];
  }

  lemma {:induction false} FirstIndexOfExtension(s: string, t: string, c: char)
    requires c in s
    ensures FirstIndex(s + t, c) == FirstIndex(s, c)
    decreases |s|
  {
    if s[0] != c {
      assert (s + t)[1..] == s[1..] + t;
      assert c in s[1..] by {
        var i :| 0 <= i < |s| && s[i] == c;
        assert s[1..][i - 1] == c;
      }
      FirstIndexOfExtension(s[1..], t, c);
    }
  }

  lemma {:induction false} FirstIndexPastPrefix(s: string, t: string, c: char)
    requires c !in s && |t| > 0 && t[0] == c
    ensures FirstIndex(s + t, c) == Some(|s|)
    decreases |s|
  {
    if |s| == 0 {
      assert s + t == t;
    } else {
      assert (s + t)[1..] == s[1..] + t;
      assert c !in s[1..] by {
        forall x | x in s[1..] ensures x != c {
          var i :| 0 <= i < |s| - 1 && s[1..][i] == x;
          assert s[i + 1] == x;
        }
      }
      FirstIndexPastPrefix(s[1..], t, c);
    }
  }

  /**
    For a URL that does not start with `?`, and a token without `&`, the
    token parameter is one of the `&`-separated pieces of the new query.
   */
  lemma TokenIsQueryParameter(url: string, token: string)
    requires url == [] || url[0] != '?'
    requires '&' !in token
    ensures TokenParameter + token in Split(QueryOf(WithAccessToken(url, token)), '&')
  {
    var param := TokenParameter + token;
    QueryOfWithAccessToken(url, token);
    NoAmpersandInParameter(token);
    SplitWithoutSeparator(param, '&');
    if '?' in url {
      Regroup3(QueryOf(url) + "&", TokenParameter, token);
      LastPiece(QueryOf(url), param);
    }
  }

  /** A piece without `&` added after an `&` is the last piece of the split. */
  lemma LastPiece(q: string, param: string)
    requires '&' !in param
    ensures param in Split(q + "&" + param, '&')
  {
    SplitWithoutSeparator(param, '&');
    SplitAround(q, '&', param);
    LastIn(Split(q, '&'), param);
  }

  lemma NoAmpersandInParameter(token: string)
    requires '&' !in token
    ensures '&' !in TokenParameter + token
  {
    assert '&' !in TokenParameter;
  }

  lemma LastIn<T>(xs: seq<T>, x: T)
    ensures x in xs + [x]
  {
    assert (xs + [x])[|xs|] == x;
  }

  /**
    A URL that starts with `?` gets a second `?`, so the token is glued to
    the last parameter already there instead of becoming a parameter of its own.
   */
  lemma LeadingQuestionMark(query: string, token: string)
    requires '&' !in query && '&' !in token
    ensures Split(QueryOf(WithAccessToken("?" + query, token)), '&') == [query + "?" + TokenParameter + token]
    ensures TokenParameter + token !in Split(QueryOf(WithAccessToken("?" + query, token)), '&')
  {
    var glued := query + "?" + TokenParameter + token;
    LeadingQuery(query, token);
    GluedHasNoAmpersand(query, token);
    SplitWithoutSeparator(glued, '&');
    assert |glued| != |TokenParameter + token|;
  }

  /** After a leading `?`, the token parameter follows a second `?` at the end of the old query. */
  lemma LeadingQuery(query: string, token: string)
    ensures QueryOf(WithAccessToken("?" + query, token)) == query + "?" + TokenParameter + token
  {
    var url := "?" + query;
    var r := WithAccessToken(url, token);
    var rest := query + [QueryPrefix(url)] + TokenParameter + token;
    assert r == ['?'] + rest;
    DropFirst('?', rest);
    assert FirstIndex(r, '?') == Some(0);
    assert QueryPrefix(url) == '?';
  }

  lemma GluedHasNoAmpersand(query: string, token: string)
    requires '&' !in query && '&' !in token
    ensures '&' !in query + "?" + TokenParameter + token
  {
    assert '&' !in TokenParameter;
  }

  /** The request of the test: `http://test.com?name=dsyph3r` with the token `KFGDSYGSDHKKGFSFN`. */
  lemma TestRequestGetsToken()
    ensures "access_token=KFGDSYGSDHKKGFSFN" in
            Split(QueryOf(WithAccessToken("http://test.com?name=dsyph3r", "KFGDSYGSDHKKGFSFN")), '&')
  {
    assert '&' !in "KFGDSYGSDHKKGFSFN";
    TokenIsQueryParameter("http://test.com?name=dsyph3r", "KFGDSYGSDHKKGFSFN");
    TestParameter();
  }

  lemma TestParameter()
    ensures TokenParameter + "KFGDSYGSDHKKGFSFN" == "access_token=KFGDSYGSDHKKGFSFN"
  {}

  class OAuth {
    var accessToken: string

    constructor (accessToken: string)
      ensures this.accessToken == accessToken
    {
      this.accessToken := accessToken;
    }

    method GetToken() returns (t: string)
      ensures t == accessToken
    {
      t := accessToken;
    }

    method SetToken(accessToken: string)
      modifies this
      ensures this.accessToken == accessToken
    {
      this.accessToken := accessToken;
    }

    /** Rewrites the request URL to carry the token; headers and the stored token stay as they were. */
    method Authenticate(request: Http.Request) returns (result: Http.Request)
      modifies request
      ensures result == request
      ensures request.url == WithAccessToken(old(request.url), accessToken)
      ensures request.headers == old(request.headers)
      ensures accessToken == old(accessToken)
    {
      var url := request.GetUrl();
      var prefix := if FirstIndex(url, '?').Some? && FirstIndex(url, '?').value > 0 then '&' else '?';
      request.FromUrl(url + [prefix] + "access_token=" + accessToken);
      result := request;
    }
  }
}
