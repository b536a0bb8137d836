/**
  Gists (lib/GitHub/API/Gist/Gist.php): the listing route depends on whether
  a username is given, whether the caller is authenticated and which gist
  type is asked for; creation sends every field, update only the non-null
  ones; the comments wrapper is created once and kept.
 */
module Gists {
  import opened Results
  import opened PhpArrays
  import opened GitHubApi
  import opened SubResources

  const TypePrivate: string := "private"
  const TypePublic: string := "public"
  const TypeStarred: string := "starred"

  const OnlyPublicTail: string := "] gistType option. Unathenticated user requests can only list public gists [ApiGist::GIST_TYPE_PUBLIC]"

  function OnlyPublicMessage(gistType: string): string {
    "Unsupported [" + gistType + OnlyPublicTail
  }

  /** The route of a listing that is not rejected. */
  function ListPath(username: Option<string>, authenticated: bool, gistType: string): string {
    match username
    case None => if authenticated && gistType == TypeStarred then "gists/starred" else "gists"
    case Some(u) => "users/" + u + "/gists"
  }

  /** `all`: a named user's listing must ask for public gists; otherwise nothing is sent. */
  function All(username: Option<string>, authenticated: bool, gistType: string := TypePublic,
               page: int := 1, pageSize: int := DefaultPageSize): (r: Result<Call, Error>)
    ensures r.Failure? <==> username.Some? && gistType != TypePublic
    ensures r.Failure? ==> r.error == ApiException(OnlyPublicMessage(gistType))
    ensures r.Success? ==> Sends(r.value, Verb.Get, ListPath(username, authenticated, gistType)) &&
                           r.value.payload == Query(BuildPageParams(page, pageSize)) && r.value.options == []
  {
    if username.Some? && TypePublic != gistType then Failure(ApiException(OnlyPublicMessage(gistType)))
    else Success(RequestGet(ListPath(username, authenticated, gistType), BuildPageParams(page, pageSize)))
  }

  /** Without a username and without authentication, every gist type lists the public gists. */
  lemma UnauthenticatedListsPublicGists(gistType: string, page: int, pageSize: int)
    ensures All(None, false, gistType, page, pageSize).Success?
    ensures PathOf(All(None, false, gistType, page, pageSize).value.url) == Some("gists")
  {}

  /** Authenticated and without a username, the starred gists are listed exactly when asked for. */
  lemma AuthenticatedStarredRoute(gistType: string, page: int, pageSize: int)
    ensures All(None, true, gistType, page, pageSize).Success?
    ensures PathOf(All(None, true, gistType, page, pageSize).value.url) == Some("gists/starred") <==> gistType == TypeStarred
    ensures gistType != TypeStarred ==> PathOf(All(None, true, gistType, page, pageSize).value.url) == Some("gists")
  {
    assert "gists" != "gists/starred";
  }

  /** A named user's public gists are listed at that user's route. */
  lemma NamedUserRoute(username: string, authenticated: bool, page: int, pageSize: int)
    ensures All(Some(username), authenticated, TypePublic, page, pageSize).Success?
    ensures PathOf(All(Some(username), authenticated, TypePublic, page, pageSize).value.url) ==
            Some("users/" + username + "/gists")
  {}

  /** `get`. */
  function Get(id: string): (c: Call)
    ensures c.options == [] && Sends(c, Verb.Get, "gists/" + id) && c.payload == Query([])
  {
    RequestGet("gists/" + id)
  }

  /** The body of `create`: all three fields, unfiltered. */
  function CreateDetails(files: Value, public: Value, description: Value): (p: PhpArray)
    ensures KeysOf(p) == [Name("description"), Name("public"), Name("files")]
    ensures Lookup(p, Name("description")) == Some(description)
    ensures Lookup(p, Name("public")) == Some(public)
    ensures Lookup(p, Name("files")) == Some(files)
  {
    var p: PhpArray := [(Name("description"), description), (Name("public"), public), (Name("files"), files)];
    LookupAt(p, 2);
    p
  }

  /** `create`: a POST to `gists` whose body always holds the three fields. */
  function Create(files: Value, public: Value, description: Value := Str("")): (c: Call)
    ensures c.options == [] && Sends(c, Post, "gists") && c.payload == Json(CreateDetails(files, public, description))
  {
    RequestPost("gists", CreateDetails(files, public, description))
  }

  /** The body of `update`: the description and the files, those that are not null. */
  function UpdateDetails(files: Value, description: Value): (p: PhpArray)
    ensures Lookup(p, Name("description")) == if description.Null? then None else Some(description)
    ensures Lookup(p, Name("files")) == if files.Null? then None else Some(files)
    ensures forall k :: k != Name("description") && k != Name("files") ==> Lookup(p, k).None?
    ensures IsSubsequence(p, [(Name("description"), description), (Name("files"), files)])
  {
    NonNullPair(Name("description"), description, Name("files"), files);
    NonNull([(Name("description"), description), (Name("files"), files)])
  }

  /** `update`: a PATCH of the non-null fields. */
  function Update(id: string, files: Value := Arr([]), description: Value := Str("")): (c: Call)
    ensures c.options == [] && Sends(c, Patch, "gists/" + id)
    ensures c.payload == Body(UpdateDetails(files, description))
  {
    RequestPatch("gists/" + id, UpdateDetails(files, description))
  }

  /** The defaults are not null, so an update without arguments still sends both fields. */
  lemma UpdateDefaultsSent(id: string)
    ensures Update(id).payload == Json([(Name("description"), Str("")), (Name("files"), Arr([]))])
  {}

  /** Only when both fields are null is the body null. */
  lemma UpdateBodyNull(id: string, files: Value, description: Value)
    ensures Update(id, files, description).payload.NoBody? <==> files.Null? && description.Null?
  {
    var p := UpdateDetails(files, description);
    if !files.Null? {
      assert Name("files") in KeysOf(p);
    }
    if !description.Null? {
      assert Name("description") in KeysOf(p);
    }
  }

  function Star(id: string): (c: Call)
    ensures c.options == [] && Sends(c, Put, "gists/" + id + "/star") && c.payload == NoBody
  {
    RequestPut("gists/" + id + "/star")
  }

  function Unstar(id: string): (c: Call)
    ensures c.options == [] && Sends(c, Verb.Delete, "gists/" + id + "/star") && c.payload == NoBody
  {
    RequestDelete("gists/" + id + "/star")
  }

  function IsStarred(id: string): (c: Call)
    ensures c.options == [] && Sends(c, Verb.Get, "gists/" + id + "/star") && c.payload == Query([])
  {
    RequestGet("gists/" + id + "/star")
  }

  /** Starring, unstarring and checking all address the same route. */
  lemma StarRoutesAgree(id: string)
    ensures Star(id).url == Unstar(id).url == IsStarred(id).url
  {}

  function Fork(id: string): (c: Call)
    ensures c.options == [] && Sends(c, Post, "gists/" + id + "/fork") && c.payload == NoBody
  {
    RequestPost("gists/" + id + "/fork")
  }

  function Delete(id: string): (c: Call)
    ensures c.options == [] && Sends(c, Verb.Delete, "gists/" + id) && c.payload == NoBody
  {
    RequestDelete("gists/" + id)
  }

  class Gist {
    const transport: Transport
    var comment: GistComment?

    predicate Valid()
      reads this
    {
      comment != null ==> comment.transport == transport
    }

    /** Uses the given transport, or a new one when none is given. */
    constructor (transport: Transport?)
      ensures transport != null ==> this.transport == transport
      ensures transport == null ==> fresh(this.transport)
      ensures comment == null && Valid()
    {
      if transport == null {
        this.transport := new Transport();
      } else {
        this.transport := transport;
      }
      comment := null;
    }

    /** `comments()`: created on the first call, the same object afterwards. */
    method Comments() returns (c: GistComment)
      requires Valid()
      modifies this`comment
      ensures Valid() && comment == c && c.transport == transport
      ensures old(comment) != null ==> c == old(comment)
      ensures old(comment) == null ==> fresh(c)
    {
      if comment == null {
        comment := new GistComment(transport);
      }
      c := comment;
    }
  }
}
