/**
  What every repository wrapper shares (lib/GitHub/API/Repo/Repo.php): the
  repository types, the routes of a single repository, creation and editing
  with the name injected, the watch and star routes, and the six memoised
  sub-resource accessors. The user and organisation wrappers differ only
  in which repository types they accept.
 */
module RepoBase {
  import opened Results
  import opened PhpArrays
  import opened GitHubApi
  import opened SubResources

  const TypeAll: string := "all"
  const TypePublic: string := "public"
  const TypePrivate: string := "private"
  const TypeMember: string := "member"

  /** `repos/<username>/<repo>`. */
  function RepoPath(username: string, repo: string): string {
    "repos/" + username + "/" + repo
  }

  /** Different owners or names give different repository routes. */
  lemma {:induction false} RepoPathInjective(u1: string, r1: string, u2: string, r2: string)
    requires '/' !in u1 && '/' !in u2
    requires RepoPath(u1, r1) == RepoPath(u2, r2)
    ensures u1 == u2 && r1 == r2
  {
    var p1, p2 := RepoPath(u1, r1), RepoPath(u2, r2);
    assert p1[6..] == u1 + "/" + r1 && p2[6..] == u2 + "/" + r2;
    SplitAtFirstSlash(u1, r1, u2, r2);
  }

  lemma {:induction false} SplitAtFirstSlash(u1: string, r1: string, u2: string, r2: string)
    requires '/' !in u1 && '/' !in u2
    requires u1 + "/" + r1 == u2 + "/" + r2
    ensures u1 == u2 && r1 == r2
    decreases |u1|
  {
    var s1, s2 := u1 + "/" + r1, u2 + "/" + r2;
    if |u1| == 0 && |u2| == 0 {
      assert s1[1..] == r1 && s2[1..] == r2;
    } else if |u1| > 0 && |u2| > 0 {
      assert s1[0] == u1[0] && s2[0] == u2[0];
      assert s1[1..] == u1[1..] + "/" + r1 && s2[1..] == u2[1..] + "/" + r2;
      assert '/' !in u1[1..] && '/' !in u2[1..] by {
        assert forall x :: x in u1[1..] ==> x in u1;
        assert forall x :: x in u2[1..] ==> x in u2;
      }
      SplitAtFirstSlash(u1[1..], r1, u2[1..], r2);
      assert u1 == [u1[0]] + u1[1..] && u2 == [u2[0]] + u2[1..];
    }
  }

  /** `get`: the repository itself. */
  function Get(username: string, repo: string): (c: Call)
    ensures Sends(c, Verb.Get, RepoPath(username, repo)) && c.payload == Query([]) && c.options == []
  {
    RequestGet(RepoPath(username, repo))
  }

  /**
    The details sent on creation and editing: the non-null details with `name`
    set to the repository name, in place when the caller gave a `name`,
    otherwise at the end.
   */
  function RepoDetails(repo: string, details: PhpArray): (p: PhpArray)
    ensures Lookup(p, Name("name")) == Some(Str(repo))
    ensures forall k :: k != Name("name") ==>
              Lookup(p, k) == if Lookup(details, k).Some? && !Lookup(details, k).value.Null?
                              then Lookup(details, k) else None
    ensures IsSubsequence(p, Set(details, Name("name"), Str(repo)))
    ensures |p| > 0
  {
    var named := Set(details, Name("name"), Str(repo));
    NonNullLookup(named, Name("name"));
    forall k | k != Name("name")
      ensures Lookup(NonNull(named), k) ==
              if Lookup(details, k).Some? && !Lookup(details, k).value.Null? then Lookup(details, k) else None
    {
      NonNullLookup(named, k);
    }
    NonNullSubsequence(named);
    NonNull(named)
  }

  /** `_create`: a POST of the repository details to `url`; the body is never null. */
  function Create(url: string, repo: string, details: PhpArray := []): (c: Call)
    ensures Sends(c, Post, url) && c.options == []
    ensures c.payload == Json(RepoDetails(repo, details))
  {
    RequestPost(url, RepoDetails(repo, details))
  }

  /** `edit`: a PATCH of the repository details to the repository route. */
  function Edit(username: string, repo: string, details: PhpArray := []): (c: Call)
    ensures Sends(c, Patch, RepoPath(username, repo)) && c.options == []
    ensures c.payload == Json(RepoDetails(repo, details))
  {
    RequestPatch(RepoPath(username, repo), RepoDetails(repo, details))
  }

  /** A caller-supplied `name` never reaches the API: the repository argument replaces it. */
  lemma NameOverridden(repo: string, details: PhpArray, other: string)
    requires Lookup(details, Name("name")) == Some(Str(other))
    ensures Lookup(Create("user/repos", repo, details).payload.params, Name("name")) == Some(Str(repo))
    ensures KeysOf(RepoDetails(repo, details)) == KeysOf(NonNull(details))
  {
    var named := Set(details, Name("name"), Str(repo));
    assert Name("name") in KeysOf(details);
    forall i | 0 <= i < |details|
      ensures named[i].0 == details[i].0
      ensures details[i].1.Null? <==> named[i].1.Null?
    {
      if details[i].0 == Name("name") {
        LookupAt(details, i);
      }
    }
    NonNullKeys(named, details);
  }

  /** Replacing a value by a non-null one keeps which keys survive filtering. */
  lemma {:induction false} NonNullKeys(a: PhpArray, b: PhpArray)
    requires |a| == |b|
    requires forall i :: 0 <= i < |a| ==> a[i].0 == b[i].0 && (a[i].1.Null? ==> b[i].1.Null?)
    requires forall i :: 0 <= i < |a| && b[i].1.Null? ==> a[i].1.Null?
    ensures KeysOf(NonNull(a)) == KeysOf(NonNull(b))
    decreases |a|
  {
    if |a| > 0 {
      NonNullKeys(a[1..], b[1..]);
    }
  }

  /** `contributors`: sends `anon`, true unless the caller says otherwise. */
  function Contributors(username: string, repo: string, includeAnonymous: bool := true): (c: Call)
    ensures c.options == [] && Sends(c, Verb.Get, RepoPath(username, repo) + "/contributors")
    ensures c.payload == Query([(Name("anon"), Bool(includeAnonymous))])
  {
    RequestGet(RepoPath(username, repo) + "/contributors", [(Name("anon"), Bool(includeAnonymous))])
  }

  function Languages(username: string, repo: string): (c: Call)
    ensures c.options == [] && Sends(c, Verb.Get, RepoPath(username, repo) + "/languages") && c.payload == Query([])
  {
    RequestGet(RepoPath(username, repo) + "/languages")
  }

  function Teams(username: string, repo: string): (c: Call)
    ensures c.options == [] && Sends(c, Verb.Get, RepoPath(username, repo) + "/teams") && c.payload == Query([])
  {
    RequestGet(RepoPath(username, repo) + "/teams")
  }

  function Tags(username: string, repo: string): (c: Call)
    ensures c.options == [] && Sends(c, Verb.Get, RepoPath(username, repo) + "/tags") && c.payload == Query([])
  {
    RequestGet(RepoPath(username, repo) + "/tags")
  }

  function Branches(username: string, repo: string): (c: Call)
    ensures c.options == [] && Sends(c, Verb.Get, RepoPath(username, repo) + "/branches") && c.payload == Query([])
  {
    RequestGet(RepoPath(username, repo) + "/branches")
  }

  /** `watchers`: one page of the watchers, 30 at a time unless asked otherwise. */
  function Watchers(username: string, repo: string, page: int := 1, pageSize: int := DefaultPageSize): (c: Call)
    ensures c.options == [] && Sends(c, Verb.Get, RepoPath(username, repo) + "/watchers")
    ensures c.payload == Query(BuildPageParams(page, pageSize))
  {
    RequestGet(RepoPath(username, repo) + "/watchers", BuildPageParams(page, pageSize))
  }

  /** The watched (or starred) list of the authenticated user, or of the named user. */
  function UserListPath(username: Option<string>, list: string): (p: string)
    ensures username.None? ==> p == "user/" + list
    ensures username.Some? ==> p == "users/" + username.value + "/" + list
  {
    match username
    case None => "user/" + list
    case Some(u) => "users/" + u + "/" + list
  }

  /** The list of the authenticated user is never the list of a named user. */
  lemma OwnListIsNotANamedList(u: string, list: string)
    ensures UserListPath(None, list) != UserListPath(Some(u), list)
  {
    assert UserListPath(None, list)[4] == '/';
    assert UserListPath(Some(u), list)[4] == 's';
  }

  /** `watched`. */
  function Watched(username: Option<string> := None): (c: Call)
    ensures c.options == [] && Sends(c, Verb.Get, UserListPath(username, "watched")) && c.payload == Query([])
  {
    RequestGet(UserListPath(username, "watched"))
  }

  /** `isWatched` does not use the repository: it asks for the whole watched list. */
  function IsWatched(username: Option<string>, repo: string): (c: Call)
    ensures c == Watched(username)
  {
    RequestGet(UserListPath(username, "watched"))
  }

  /** `watch`. */
  function Watch(username: string, repo: string): (c: Call)
    ensures c.options == [] && Sends(c, Put, "user/watched/" + username + "/" + repo) && c.payload == NoBody
  {
    RequestPut("user/watched/" + username + "/" + repo)
  }

  /** `unwatch`: the same route as `watch`, with DELETE. */
  function Unwatch(username: string, repo: string): (c: Call)
    ensures c.options == [] && Sends(c, Delete, "user/watched/" + username + "/" + repo) && c.payload == NoBody
    ensures c.url == Watch(username, repo).url
  {
    RequestDelete("user/watched/" + username + "/" + repo)
  }

  /** `stargazers`. */
  function Stargazers(username: string, repo: string, page: int := 1, pageSize: int := DefaultPageSize): (c: Call)
    ensures c.options == [] && Sends(c, Verb.Get, RepoPath(username, repo) + "/stargazers")
    ensures c.payload == Query(BuildPageParams(page, pageSize))
  {
    RequestGet(RepoPath(username, repo) + "/stargazers", BuildPageParams(page, pageSize))
  }

  /** `starred`. */
  function Starred(username: Option<string> := None): (c: Call)
    ensures c.options == [] && Sends(c, Verb.Get, UserListPath(username, "starred")) && c.payload == Query([])
  {
    RequestGet(UserListPath(username, "starred"))
  }

  /** `isStarred`, whose route starts with `users/starred/`, not with the `user/starred/` of `star`. */
  function IsStarred(username: string, repo: string): (c: Call)
    ensures c.options == [] && Sends(c, Verb.Get, "users/starred/" + username + "/" + repo) && c.payload == Query([])
  {
    RequestGet("users/starred/" + username + "/" + repo)
  }

  /** `star`. */
  function Star(username: string, repo: string): (c: Call)
    ensures c.options == [] && Sends(c, Put, "user/starred/" + username + "/" + repo) && c.payload == NoBody
  {
    RequestPut("user/starred/" + username + "/" + repo)
  }

  /** `unstar`: the same route as `star`, with DELETE. */
  function Unstar(username: string, repo: string): (c: Call)
    ensures c.options == [] && Sends(c, Delete, "user/starred/" + username + "/" + repo) && c.payload == NoBody
    ensures c.url == Star(username, repo).url
  {
    RequestDelete("user/starred/" + username + "/" + repo)
  }

  /** `isStarred` asks about a different route than the one `star` changes. */
  lemma IsStarredRouteDiffersFromStar(username: string, repo: string)
    ensures IsStarred(username, repo).url != Star(username, repo).url
  {
    var a, b := IsStarred(username, repo).url, Star(username, repo).url;
    assert a[|ApiUrl| + 4] == 's';
    assert b[|ApiUrl| + 4] == '/';
  }

  /** Which wrapper a repository object is: it decides the accepted repository types. */
  datatype RepoKind = UserRepos | OrgRepos

  /** `$allowedRepoTypes` of `GitHub\API\User\Repo` and of `GitHub\API\Org\Repo`. */
  function AllowedRepoTypes(kind: RepoKind): (types: seq<string>)
    ensures TypeAll in types && TypePublic in types && TypePrivate in types
    ensures TypeMember in types <==> kind == UserRepos
  {
    match kind
    case UserRepos => [TypeAll, TypePublic, TypePrivate, TypeMember]
    case OrgRepos => [TypeAll, TypePublic, TypePrivate]
  }

  /** `join(", ", types)`. */
  function JoinTypes(types: seq<string>): string
    decreases |types|
  {
    if |types| == 0 then ""
    else if |types| == 1 then types[0]
    else types[0] + ", " + JoinTypes(types[1..])
  }

  /** A repository wrapper with its lazily created sub-resources. */
  class Repo {
    const transport: Transport
    const kind: RepoKind
    var commit: Commit?
    var collaborator: Collaborator?
    var download: Download?
    var fork: Fork?
    var key: RepoKey?
    var event: RepoEvent?

    /** Every sub-resource created so far shares this wrapper's transport. */
    predicate Valid()
      reads this
    {
      (commit != null ==> commit.transport == transport) &&
      (collaborator != null ==> collaborator.transport == transport) &&
      (download != null ==> download.transport == transport) &&
      (fork != null ==> fork.transport == transport) &&
      (key != null ==> key.transport == transport) &&
      (event != null ==> event.transport == transport)
    }

    /** Uses the given transport, or a new one when none is given, as the inherited constructor does. */
    constructor (transport: Transport?, kind: RepoKind)
      ensures transport != null ==> this.transport == transport
      ensures transport == null ==> fresh(this.transport)
      ensures this.kind == kind
      ensures commit == null && collaborator == null && download == null
      ensures fork == null && key == null && event == null
      ensures Valid()
    {
      if transport == null {
        this.transport := new Transport();
      } else {
        this.transport := transport;
      }
      this.kind := kind;
      commit := null;
      collaborator := null;
      download := null;
      fork := null;
      key := null;
      event := null;
    }

    /** `commits()`: created on the first call, the same object afterwards. */
    method Commits() returns (c: Commit)
      requires Valid()
      modifies this`commit
      ensures Valid() && commit == c && c.transport == transport
      ensures old(commit) != null ==> c == old(commit)
      ensures old(commit) == null ==> fresh(c)
    {
      if commit == null {
        commit := new Commit(transport);
      }
      c := commit;
    }

    /** `collaborators()`. */
    method Collaborators() returns (c: Collaborator)
      requires Valid()
      modifies this`collaborator
      ensures Valid() && collaborator == c && c.transport == transport
      ensures old(collaborator) != null ==> c == old(collaborator)
      ensures old(collaborator) == null ==> fresh(c)
    {
      if collaborator == null {
        collaborator := new Collaborator(transport);
      }
      c := collaborator;
    }

    /** `downloads()`. */
    method Downloads() returns (d: Download)
      requires Valid()
      modifies this`download
      ensures Valid() && download == d && d.transport == transport
      ensures old(download) != null ==> d == old(download)
      ensures old(download) == null ==> fresh(d)
    {
      if download == null {
        download := new Download(transport);
      }
      d := download;
    }

    /** `forks()`. */
    method Forks() returns (f: Fork)
      requires Valid()
      modifies this`fork
      ensures Valid() && fork == f && f.transport == transport
      ensures old(fork) != null ==> f == old(fork)
      ensures old(fork) == null ==> fresh(f)
    {
      if fork == null {
        fork := new Fork(transport);
      }
      f := fork;
    }

    /** `keys()`. */
    method Keys() returns (k: RepoKey)
      requires Valid()
      modifies this`key
      ensures Valid() && key == k && k.transport == transport
      ensures old(key) != null ==> k == old(key)
      ensures old(key) == null ==> fresh(k)
    {
      if key == null {
        key := new RepoKey(transport);
      }
      k := key;
    }

    /** `events()`. */
    method Events() returns (e: RepoEvent)
      requires Valid()
      modifies this`event
      ensures Valid() && event == e && e.transport == transport
      ensures old(event) != null ==> e == old(event)
      ensures old(event) == null ==> fresh(e)
    {
      if event == null {
        event := new RepoEvent(transport);
      }
      e := event;
    }
  }
}
