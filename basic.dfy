/**
  HTTP Basic authentication (section 2 of RFC 7617): the authenticator holds
  a username and a password and adds `Authorization: Basic <token>` to a
  request, where the token is the base64 encoding of `username:password`.
  PHP strings are byte strings, so the credentials are bytes.
 */
module BasicAuth {
  import opened Results
  import opened Base64
  import opened Explode
  import Http

  /** The byte `:`. */
  const Colon: byte := 58

  const HeaderPrefix: string := "Authorization: Basic "

  /** `username . ':' . password`. */
  function Credentials(username: seq<byte>, password: seq<byte>): (c: seq<byte>)
    ensures |c| == |username| + 1 + |password|
    ensures c[..|username|] == username && c[|username|] == Colon && c[|username| + 1..] == password
  {
    var c := username + [Colon] + password;
    assert c[..|username|] == username && c[|username| + 1..] == password;
    c
  }

  /** The header line `authenticate` adds. */
  function AuthorizationHeader(username: seq<byte>, password: seq<byte>): (h: string)
    ensures HeaderPrefix <= h && |h| == |HeaderPrefix| + |Encode(Credentials(username, password))|
  {
    HeaderPrefix + Encode(Credentials(username, password))
  }

  /** The token of a header line that starts with the Basic prefix. */
  function TokenOf(header: string): (r: Option<string>)
    ensures r.Some? <==> HeaderPrefix <= header
    ensures r.Some? ==> header == HeaderPrefix + r.value
  {
    if HeaderPrefix <= header then Some(header[|HeaderPrefix|..]) else None
  }

  /** Splits at the first `:`, as a server reading the credentials does. */
  function SplitAtColon(s: seq<byte>): (r: Option<(seq<byte>, seq<byte>)>)
    ensures r.Some? <==> Colon in s
    ensures r.Some? ==> Colon !in r.value.0 && s == r.value.0 + [Colon] + r.value.1
    decreases |s|
  {
    if |s| == 0 then None
    else if s[0] == Colon then Some(([], s[1..]))
    else
      match SplitAtColon(s[1..])
      case None => None
      case Some((u, p)) =>
        assert s == [s[0]] + u + [Colon] + p;
        Some(([s[0]] + u, p))
  }

  /** A colon-free prefix followed by a colon is exactly what `SplitAtColon` cuts off. */
  lemma {:induction false} SplitAtColonCredentials(username: seq<byte>, password: seq<byte>)
    requires Colon !in username
    ensures SplitAtColon(Credentials(username, password)) == Some((username, password))
    decreases |username|
  {
    var s := Credentials(username, password);
    if |username| > 0 {
      assert s[1..] == Credentials(username[1..], password);
      assert Colon !in username[1..] by {
        forall x | x in username[1..] ensures x != Colon {
          var i :| 0 <= i < |username| - 1 && username[1..][i] == x;
          assert username[i + 1] == x;
        }
      }
      SplitAtColonCredentials(username[1..], password);
      assert [username[0]] + username[1..] == username;
    }
  }

  /**
    The header carries the credentials recoverably: its token decodes to
    `username:password`, and splitting at the first colon gives the username
    and the password back, as long as the username has no colon.
   */
  lemma CredentialsRecovered(username: seq<byte>, password: seq<byte>)
    requires Colon !in username
    ensures TokenOf(AuthorizationHeader(username, password)) == Some(Encode(Credentials(username, password)))
    ensures Decode(TokenOf(AuthorizationHeader(username, password)).value) == Some(Credentials(username, password))
    ensures SplitAtColon(Credentials(username, password)) == Some((username, password))
  {
    var token := Encode(Credentials(username, password));
    assert (HeaderPrefix + token)[..|HeaderPrefix|] == HeaderPrefix;
    assert (HeaderPrefix + token)[|HeaderPrefix|..] == token;
    DecodeEncode(Credentials(username, password));
    SplitAtColonCredentials(username, password);
  }

  /** The token contains no space, so cutting the header line at spaces isolates it as the third piece. */
  lemma HeaderPieces(username: seq<byte>, password: seq<byte>)
    ensures Split(AuthorizationHeader(username, password), ' ') ==
            ["Authorization:", "Basic", Encode(Credentials(username, password))]
  {
    var token := Encode(Credentials(username, password));
    TokenHasNoSpace(Credentials(username, password));
    PrefixPieces();
    assert AuthorizationHeader(username, password) == "Authorization:" + [' '] + "Basic" + [' '] + token;
    ThreePieces("Authorization:", "Basic", token, ' ');
  }

  lemma PrefixPieces()
    ensures HeaderPrefix == "Authorization:" + [' '] + "Basic" + [' ']
  {
    assert HeaderPrefix[..14] == "Authorization:" && HeaderPrefix[15..20] == "Basic";
  }

  lemma TokenHasNoSpace(b: seq<byte>)
    ensures ' ' !in Encode(b)
  {
    EncodeShape(b);
    forall i | 0 <= i < |Encode(b)| ensures Encode(b)[i] != ' ' {
      assert Encode(b)[i] == '=' || IsAlphabetChar(Encode(b)[i]);
    }
  }

  lemma ThreePieces<T>(a: seq<T>, b: seq<T>, c: seq<T>, sep: T)
    requires sep !in a && sep !in b && sep !in c
    ensures Split(a + [sep] + b + [sep] + c, sep) == [a, b, c]
  {
    var tail := b + [sep] + c;
    assert a + [sep] + b + [sep] + c == a + [sep] + tail;
    SplitWithoutSeparator(a, sep);
    SplitWithoutSeparator(b, sep);
    SplitWithoutSeparator(c, sep);
    SplitAround(b, sep, c);
    assert Split(tail, sep) == [b, c];
    SplitAround(a, sep, tail);
    assert Split(a + [sep] + tail, sep) == [a] + [b, c];
  }

  /**
    When neither credential contains a colon, cutting the decoded token at
    every colon yields exactly the username and the password.
   */
  lemma ExplodeCredentials(username: seq<byte>, password: seq<byte>)
    requires Colon !in username && Colon !in password
    ensures Split(Credentials(username, password), Colon) == [username, password]
  {
    SplitAround(username, Colon, password);
    SplitWithoutSeparator(username, Colon);
    SplitWithoutSeparator(password, Colon);
  }

  /**
    A colon in the username is not escaped: moving the first colon of
    `username:password` between the two fields gives the same header.
   */
  lemma ColonMakesHeaderAmbiguous(u1: seq<byte>, u2: seq<byte>, password: seq<byte>)
    ensures AuthorizationHeader(u1 + [Colon] + u2, password) == AuthorizationHeader(u1, u2 + [Colon] + password)
  {
    Regroup(u1, Colon, u2, password);
    assert Credentials(u1 + [Colon] + u2, password) == Credentials(u1, u2 + [Colon] + password);
  }

  lemma Regroup<T>(a: seq<T>, c: T, b: seq<T>, d: seq<T>)
    ensures a + [c] + b + [c] + d == a + [c] + (b + [c] + d)
  {}

  class Basic {
    var username: seq<byte>
    var password: seq<byte>

    constructor (username: seq<byte>, password: seq<byte>)
      ensures this.username == username && this.password == password
    {
      this.username := username;
      this.password := password;
    }

    method GetUsername() returns (u: seq<byte>)
      ensures u == username
    {
      u := username;
    }

    method GetPassword() returns (p: seq<byte>)
      ensures p == password
    {
      p := password;
    }

    method SetUsername(username: seq<byte>)
      modifies this`username
      ensures this.username == username && password == old(password)
    {
      this.username := username;
    }

    method SetPassword(password: seq<byte>)
      modifies this`password
      ensures this.password == password && username == old(username)
    {
      this.password := password;
    }

    /** Adds the Basic header to the request, and changes nothing else. */
    method Authenticate(request: Http.Request) returns (result: Http.Request)
      modifies request
      ensures result == request
      ensures request.headers == old(request.headers) + [AuthorizationHeader(username, password)]
      ensures request.url == old(request.url)
      ensures username == old(username) && password == old(password)
    {
      var encoded := Encode(username + [Colon] + password);
      request.AddHeader("Authorization: Basic " + encoded);
      result := request;
    }
  }
}
