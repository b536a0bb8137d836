/**
  The shared base of the public-key wrappers (lib/GitHub/API/Key/Key.php):
  each operation is one request on a URL the concrete wrapper supplies.
 */
module Keys {
  import opened Results
  import opened PhpArrays
  import opened GitHubApi

  /** `_all`. */
  function All(url: string): (c: Call)
    ensures Sends(c, Get, url) && c.payload == Query([]) && c.options == []
  {
    RequestGet(url)
  }

  /** `_get`. */
  function GetKey(url: string): (c: Call)
    ensures Sends(c, Get, url) && c.payload == Query([]) && c.options == []
  {
    RequestGet(url)
  }

  /** The body of `_create`: the title and the key, both always sent. */
  function CreateDetails(title: Value, key: Value): (p: PhpArray)
    ensures KeysOf(p) == [Name("title"), Name("key")]
    ensures Lookup(p, Name("title")) == Some(title) && Lookup(p, Name("key")) == Some(key)
  {
    [(Name("title"), title), (Name("key"), key)]
  }

  /** `_create`: a POST that always has a body. */
  function Create(url: string, title: Value, key: Value): (c: Call)
    ensures Sends(c, Post, url) && c.options == []
    ensures c.payload == Json(CreateDetails(title, key))
  {
    RequestPost(url, CreateDetails(title, key))
  }

  /** The body of `_update`: the title and the key, those that are not null. */
  function UpdateDetails(title: Value, key: Value): (p: PhpArray)
    ensures Lookup(p, Name("title")) == if title.Null? then None else Some(title)
    ensures Lookup(p, Name("key")) == if key.Null? then None else Some(key)
    ensures forall k :: k != Name("title") && k != Name("key") ==> Lookup(p, k).None?
    ensures |p| == 0 <==> title.Null? && key.Null?
    ensures IsSubsequence(p, [(Name("title"), title), (Name("key"), key)])
  {
    NonNullPair(Name("title"), title, Name("key"), key);
    NonNull([(Name("title"), title), (Name("key"), key)])
  }

  /** `_update`: a PATCH of the fields that are given. */
  function Update(url: string, title: Value := Null, key: Value := Null): (c: Call)
    ensures Sends(c, Patch, url) && c.options == []
    ensures c.payload == Body(UpdateDetails(title, key))
  {
    RequestPatch(url, UpdateDetails(title, key))
  }

  /** An update that gives neither field sends no body at all. */
  lemma UpdateNothing(url: string)
    ensures Update(url).payload == NoBody
  {}

  /** `_delete`. */
  function Delete(url: string): (c: Call)
    ensures Sends(c, Verb.Delete, url) && c.payload == NoBody && c.options == []
  {
    RequestDelete(url)
  }
}
