/**
  The part of a Buzz HTTP request the authenticators touch: its URL, read
  with `getUrl` and replaced with `fromUrl`, and its list of raw header
  lines, extended with `addHeader`.
 */
module Http {

  class Request {
    var url: string
    var headers: seq<string>

    /** A new request is a GET of the resource `/` with no host and no headers. */
    constructor ()
      ensures url == "/" && headers == []
    {
      url := "/";
      headers := [];
    }

    /** `getUrl`. */
    method GetUrl() returns (u: string)
      ensures u == url
    {
      u := url;
    }

    /** `addHeader`: appends one raw header line. */
    method AddHeader(header: string)
      modifies this`headers
      ensures headers == old(headers) + [header]
    {
      headers := headers + [header];
    }

    /** `fromUrl`: the request now targets `u`. */
    method FromUrl(u: string)
      modifies this`url
      ensures url == u
    {
      url := u;
    }
  }
}
