/**
  The shared base of every resource wrapper (lib/GitHub/API/Api.php): the API
  origin, the request builders for the five HTTP verbs, pagination and
  optional-parameter helpers, and the Accept header for custom media types.

  The transport is a sink: a request builder returns the `Call` it would hand
  to the transport (verb, absolute URL, parameters or encoded body, options).
 */
module GitHubApi {
  import opened Results
  import opened PhpArrays

  const ApiUrl: string := "https://api.github.com/"

  const FormatJson: string := "json"
  const FormatRaw: string := "raw"
  const FormatText: string := "text"
  const FormatHtml: string := "html"
  const FormatFull: string := "full"

  /** The API returns at most 100 items per page; the library asks for 30 by default. */
  const DefaultPageSize: int := 30

  /** What a wrapper throws before sending anything. */
  datatype Error =
    | ApiException(message: string)
      /** `new Exception(...)` inside a namespace that defines no `Exception` class. */
    | ClassNotFound(className: string)

  /** The transport layer; it is only passed around and shared. */
  class Transport {
    constructor () {}
  }

  class Api {
    const transport: Transport

    /** Uses the given transport, or a new one when none is given. */
    constructor (transport: Transport?)
      ensures transport != null ==> this.transport == transport
      ensures transport == null ==> fresh(this.transport)
    {
      if transport == null {
        this.transport := new Transport();
      } else {
        this.transport := transport;
      }
    }
  }

  datatype Verb = Get | Post | Put | Patch | Delete

  /**
    What accompanies the URL: GET parameters as they are, or a body that is
    either absent (PHP null) or the JSON encoding of the parameters. The
    encoding itself is not modelled: `Json(p)` stands for `json_encode(p)`.
   */
  datatype Payload = Query(params: PhpArray) | NoBody | Json(params: PhpArray)

  /** A request as handed to the transport. */
  datatype Call = Call(verb: Verb, url: string, payload: Payload, options: PhpArray)

  /** The path relative to the API origin, when `url` lies below it. */
  function PathOf(url: string): (p: Option<string>)
    ensures p.Some? <==> ApiUrl <= url
    ensures p.Some? ==> url == ApiUrl + p.value
  {
    if ApiUrl <= url then Some(url[|ApiUrl|..]) else None
  }

  lemma {:induction false} PathOfApiUrl(path: string)
    ensures PathOf(ApiUrl + path) == Some(path)
  {
    assert (ApiUrl + path)[..|ApiUrl|] == ApiUrl;
    assert (ApiUrl + path)[|ApiUrl|..] == path;
  }

  /** `c` is a `verb` request for `path` below the API origin. */
  predicate Sends(c: Call, verb: Verb, path: string) {
    c.verb == verb && PathOf(c.url) == Some(path)
  }

  /** The body of POST, PUT, PATCH and DELETE: null for no parameters, otherwise their encoding. */
  function Body(params: PhpArray): (p: Payload)
    ensures p.NoBody? <==> |params| == 0
    ensures !p.NoBody? ==> p == Json(params)
  {
    if |params| > 0 then Json(params) else NoBody
  }

  function RequestGet(url: string, params: PhpArray := [], options: PhpArray := []): (c: Call)
    ensures c.verb == Get && PathOf(c.url) == Some(url)
    ensures c.payload == Query(params) && c.options == options
  {
    PathOfApiUrl(url);
    Call(Get, ApiUrl + url, Query(params), options)
  }

  function RequestPost(url: string, params: PhpArray := [], options: PhpArray := []): (c: Call)
    ensures c.verb == Post && PathOf(c.url) == Some(url) && c.options == options
    ensures c.payload.NoBody? <==> |params| == 0
    ensures !c.payload.NoBody? ==> c.payload == Json(params)
  {
    PathOfApiUrl(url);
    Call(Post, ApiUrl + url, Body(params), options)
  }

  function RequestPut(url: string, params: PhpArray := [], options: PhpArray := []): (c: Call)
    ensures c.verb == Put && PathOf(c.url) == Some(url) && c.options == options
    ensures c.payload.NoBody? <==> |params| == 0
    ensures !c.payload.NoBody? ==> c.payload == Json(params)
  {
    PathOfApiUrl(url);
    Call(Put, ApiUrl + url, Body(params), options)
  }

  function RequestPatch(url: string, params: PhpArray := [], options: PhpArray := []): (c: Call)
    ensures c.verb == Patch && PathOf(c.url) == Some(url) && c.options == options
    ensures c.payload.NoBody? <==> |params| == 0
    ensures !c.payload.NoBody? ==> c.payload == Json(params)
  {
    PathOfApiUrl(url);
    Call(Patch, ApiUrl + url, Body(params), options)
  }

  function RequestDelete(url: string, params: PhpArray := [], options: PhpArray := []): (c: Call)
    ensures c.verb == Delete && PathOf(c.url) == Some(url) && c.options == options
    ensures c.payload.NoBody? <==> |params| == 0
    ensures !c.payload.NoBody? ==> c.payload == Json(params)
  {
    PathOfApiUrl(url);
    Call(Delete, ApiUrl + url, Body(params), options)
  }

  /** The pagination parameters `page` and `per_page`. */
  function BuildPageParams(page: int, pageSize: int): (p: PhpArray)
    ensures KeysOf(p) == [Name("page"), Name("per_page")]
    ensures Lookup(p, Name("page")) == Some(Int(page))
    ensures Lookup(p, Name("per_page")) == Some(Int(pageSize))
  {
    [(Name("page"), Int(page)), (Name("per_page"), Int(pageSize))]
  }

  /** The entries of `a` whose value is not null, in their original order. */
  function NonNull(a: PhpArray): (r: PhpArray)
    ensures forall e :: e in r ==> e in a
    decreases |a|
  {
    if |a| == 0 then []
    else
      var rest := NonNull(a[1..]);
      if a[0].1.Null? then rest
      else
        assert forall j :: 0 <= j < |rest| ==> rest[j].0 != a[0].0 by {
          forall j | 0 <= j < |rest| ensures rest[j].0 != a[0].0 {
            assert rest[j] in a[1..];
            var m :| 0 <= m < |a| - 1 && a[1..][m] == rest[j];
            assert a[m + 1] == rest[j];
          }
        }
        [a[0]] + rest
  }

  /** Filtering looks at one entry at a time, from the front. */
  lemma NonNullFrom(a: PhpArray, i: nat)
    requires i < |a|
    ensures NonNull(a[i..]) == (if a[i].1.Null? then [] else [a[i]]) + NonNull(a[i + 1..])
  {
    assert a[i..][1..] == a[i + 1..];
  }

  /** Filtering two entries keeps each of them exactly when its value is not null. */
  lemma NonNullPair(k1: Key, v1: Value, k2: Key, v2: Value)
    requires k1 != k2
    ensures var r := NonNull([(k1, v1), (k2, v2)]);
            Lookup(r, k1) == (if v1.Null? then None else Some(v1)) &&
            Lookup(r, k2) == (if v2.Null? then None else Some(v2)) &&
            (forall k :: k != k1 && k != k2 ==> Lookup(r, k).None?) &&
            (|r| == 0 <==> v1.Null? && v2.Null?) &&
            IsSubsequence(r, [(k1, v1), (k2, v2)])
  {
    var raw: PhpArray := [(k1, v1), (k2, v2)];
    NonNullSubsequence(raw);
    NonNullFrom(raw, 0);
    NonNullFrom(raw, 1);
    assert raw[0..] == raw && raw[2..] == [];
  }

  /** `buildParams`: copies every entry whose value is not null into a new array. */
  method BuildParams(rawParams: PhpArray) returns (params: PhpArray)
    ensures params == NonNull(rawParams)
  {
    params := [];
    var i := 0;
    while i < |rawParams|
      invariant 0 <= i <= |rawParams|
      invariant params == NonNull(rawParams[..i])
    {
      var (key, value) := rawParams[i];
      assert rawParams[..i + 1] == rawParams[..i] + [rawParams[i]];
      NonNullSnoc(rawParams[..i], rawParams[i]);
      if !value.Null? {
        forall j | 0 <= j < |params| ensures params[j].0 != key {
          assert params[j] in rawParams[..i];
          var m :| 0 <= m < i && rawParams[..i][m] == params[j];
          assert rawParams[m] == params[j];
        }
        params := Set(params, key, value);
      }
      i := i + 1;
    }
    assert rawParams[..|rawParams|] == rawParams;
  }

  /** Filtering one more entry at the end extends the filtered array by that entry, if it is not null. */
  lemma {:induction false} NonNullSnoc(a: PhpArray, e: Entry)
    requires DistinctKeys(a + [e])
    ensures NonNull(a + [e]) == NonNull(a) + (if e.1.Null? then [] else [e])
    decreases |a|
  {
    if |a| == 0 {
      assert [e][1..] == [];
    } else {
      assert (a + [e])[1..] == a[1..] + [e];
      NonNullSnoc(a[1..], e);
    }
  }

  /** An entry survives `buildParams` exactly when it is in the input and its value is not null. */
  lemma {:induction false} NonNullMembers(a: PhpArray, e: Entry)
    ensures e in NonNull(a) <==> e in a && !e.1.Null?
    decreases |a|
  {
    if |a| > 0 {
      NonNullMembers(a[1..], e);
      assert a == [a[0]] + a[1..];
    }
  }

  /** Every key keeps its value unless that value is null, in which case the key is gone. */
  lemma {:induction false} NonNullLookup(a: PhpArray, k: Key)
    ensures Lookup(NonNull(a), k) ==
            if Lookup(a, k).Some? && !Lookup(a, k).value.Null? then Lookup(a, k) else None
    decreases |a|
  {
    if |a| > 0 {
      NonNullLookup(a[1..], k);
      if a[0].0 != k && !a[0].1.Null? {
        assert ([a[0]] + NonNull(a[1..]))[1..] == NonNull(a[1..]);
      }
      if a[0].0 == k {
        assert k !in KeysOf(NonNull(a[1..]));
      }
    }
  }

  /** `x` is `y` with some entries left out, the rest in their original order. */
  predicate IsSubsequence(x: seq<Entry>, y: seq<Entry>)
    decreases |y|
  {
    if |x| == 0 then true
    else if |y| == 0 then false
    else if x[0] == y[0] then IsSubsequence(x[1..], y[1..])
    else IsSubsequence(x, y[1..])
  }

  lemma {:induction false} NonNullSubsequence(a: PhpArray)
    ensures IsSubsequence(NonNull(a), a)
    decreases |a|
  {
    if |a| > 0 {
      NonNullSubsequence(a[1..]);
      if a[0].1.Null? {
        SubsequenceOfTail(NonNull(a), a);
      } else {
        assert ([a[0]] + NonNull(a[1..]))[1..] == NonNull(a[1..]);
      }
    }
  }

  lemma SubsequenceOfTail(x: seq<Entry>, y: seq<Entry>)
    requires |y| > 0 && IsSubsequence(x, y[1..])
    ensures IsSubsequence(x, y)
    decreases |y|, |x|
  {
    if |x| > 0 && x[0] == y[0] {
      SubsequenceDrop(x, y[1..]);
    }
  }

  lemma SubsequenceDrop(x: seq<Entry>, y: seq<Entry>)
    requires |x| > 0 && IsSubsequence(x, y)
    ensures IsSubsequence(x[1..], y)
    decreases |y|, |x|
  {
    if |y| > 0 {
      if x[0] == y[0] {
        SubsequenceOfTail(x[1..], y);
      } else {
        SubsequenceDrop(x, y[1..]);
        SubsequenceOfTail(x[1..], y);
      }
    }
  }

  /** Filtering twice is filtering once. */
  lemma {:induction false} NonNullIdempotent(a: PhpArray)
    ensures NonNull(NonNull(a)) == NonNull(a)
    decreases |a|
  {
    if |a| > 0 {
      NonNullIdempotent(a[1..]);
      if !a[0].1.Null? {
        assert ([a[0]] + NonNull(a[1..]))[1..] == NonNull(a[1..]);
      }
    }
  }

  /** Filtering leaves nothing exactly when every value is null. */
  lemma {:induction false} NonNullEmpty(a: PhpArray)
    ensures |NonNull(a)| == 0 <==> forall i :: 0 <= i < |a| ==> a[i].1.Null?
    decreases |a|
  {
    if |a| > 0 {
      NonNullEmpty(a[1..]);
      assert forall i :: 1 <= i < |a| ==> a[i] == a[1..][i - 1];
    }
  }

  /** Only null is dropped: false, 0, the empty string and the empty array are all kept. */
  lemma FalsyValuesKept()
    ensures NonNull([(Name("a"), Bool(false)), (Name("b"), Int(0)), (Name("c"), Str("")), (Name("d"), Arr([]))])
         == [(Name("a"), Bool(false)), (Name("b"), Int(0)), (Name("c"), Str("")), (Name("d"), Arr([]))]
  {}

  lemma BuildParamsExample()
    ensures NonNull([(Name("a"), Int(1)), (Name("b"), Null), (Name("c"), Str("x"))])
         == [(Name("a"), Int(1)), (Name("c"), Str("x"))]
  {}

  /** The media-type header asking for `format` of `resource`. */
  function AcceptHeader(format: string, resource: string): string {
    "Accept: application/vnd.github-" + resource + "." + format + "+json"
  }

  /** `$options['headers'][] = ...` needs the headers, when set, to be an array. */
  predicate HeadersAppendable(options: PhpArray) {
    match Lookup(options, Name("headers"))
    case None => true
    case Some(v) => v.Null? || (v.Arr? && DistinctKeys(v.entries))
  }

  /** The headers array of `options`, empty when `isset($options['headers'])` is false. */
  function HeadersOf(options: PhpArray): PhpArray
    requires HeadersAppendable(options)
  {
    match Lookup(options, Name("headers"))
    case Some(Arr(hs)) => hs
    case _ => []
  }

  /** `setResponseFormatOptions`: the options with the Accept header appended to their headers. */
  function FormatOptions(format: string, resource: string, options: PhpArray): (r: PhpArray)
    requires HeadersAppendable(options)
    ensures KeysOf(r) == if Name("headers") in KeysOf(options) then KeysOf(options)
                         else KeysOf(options) + [Name("headers")]
    ensures forall k :: k != Name("headers") ==> Lookup(r, k) == Lookup(options, k)
    ensures Lookup(r, Name("headers")).Some? && Lookup(r, Name("headers")).value.Arr?
    ensures var hs := Lookup(r, Name("headers")).value.entries;
            |hs| == |HeadersOf(options)| + 1 && hs[..|HeadersOf(options)|] == HeadersOf(options) &&
            hs[|HeadersOf(options)|].1 == Str(AcceptHeader(format, resource))
  {
    Set(options, Name("headers"), Arr(Push(HeadersOf(options), Str(AcceptHeader(format, resource)))))
  }

  /** Creates the headers entry when it is not set, then appends the Accept header to it. */
  method SetResponseFormatOptions(format: string, resourceKind: string, options: PhpArray)
    returns (result: PhpArray)
    requires HeadersAppendable(options)
    ensures result == FormatOptions(format, resourceKind, options)
  {
    result := options;
    var current := Lookup(result, Name("headers"));
    if current.None? || current.value.Null? {
      result := Set(result, Name("headers"), Arr([]));
    }
    assert Lookup(result, Name("headers")) == Some(Arr(HeadersOf(options)));
    var headers: PhpArray := Lookup(result, Name("headers")).value.entries;
    headers := Push(headers, Str(AcceptHeader(format, resourceKind)));
    SetTwice(options, Name("headers"), Arr([]), Arr(headers));
    result := Set(result, Name("headers"), Arr(headers));
  }

  /** Formatting options built from nothing hold exactly one header. */
  lemma FormatOptionsFresh(format: string, resource: string)
    ensures FormatOptions(format, resource, []) ==
            [(Name("headers"), Arr([(Index(0), Str(AcceptHeader(format, resource)))]))]
  {}
}
