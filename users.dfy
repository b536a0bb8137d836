/**
  Users (lib/GitHub/API/User/User.php): the authenticated user or a named
  one, their followers and the users they follow, and the five memoised
  sub-resources of a user.
 */
module Users {
  import opened Results
  import opened PhpArrays
  import opened GitHubApi
  import opened SubResources
  import RepoBase
  import Gists
  import UserEmails

  /** `user` for the authenticated user, `users/<username>` for a named one. */
  function UserPath(username: Option<string>): (p: string)
    ensures username.None? ==> p == "user"
    ensures username.Some? ==> p == "users/" + username.value
  {
    match username
    case None => "user"
    case Some(u) => "users/" + u
  }

  /** Different users have different routes, and none of them is the authenticated user's. */
  lemma UserPathInjective(a: Option<string>, b: Option<string>)
    requires UserPath(a) == UserPath(b)
    ensures a == b
  {
    if a.Some? && b.Some? {
      assert UserPath(a)[6..] == a.value && UserPath(b)[6..] == b.value;
    }
  }

  /** `get`. */
  function Get(username: Option<string> := None): (c: Call)
    ensures Sends(c, Verb.Get, UserPath(username)) && c.payload == Query([]) && c.options == []
  {
    RequestGet(UserPath(username))
  }

  /** `update`: the details are sent as given, without filtering. */
  function Update(details: PhpArray): (c: Call)
    ensures Sends(c, Patch, "user") && c.payload == Body(details) && c.options == []
  {
    RequestPatch("user", details)
  }

  /** `followers`: one page, 30 at a time unless asked otherwise. */
  function Followers(username: Option<string> := None, page: int := 1, pageSize: int := DefaultPageSize): (c: Call)
    ensures c.options == [] && Sends(c, Verb.Get, UserPath(username) + "/followers")
    ensures c.payload == Query(BuildPageParams(page, pageSize))
  {
    RequestGet(UserPath(username) + "/followers", BuildPageParams(page, pageSize))
  }

  /** `following`. */
  function Following(username: Option<string> := None, page: int := 1, pageSize: int := DefaultPageSize): (c: Call)
    ensures c.options == [] && Sends(c, Verb.Get, UserPath(username) + "/following")
    ensures c.payload == Query(BuildPageParams(page, pageSize))
  {
    RequestGet(UserPath(username) + "/following", BuildPageParams(page, pageSize))
  }

  function FollowingPath(username: string): string {
    "user/following/" + username
  }

  /** `isFollowing`. */
  function IsFollowing(username: string): (c: Call)
    ensures c.options == [] && Sends(c, Verb.Get, FollowingPath(username)) && c.payload == Query([])
  {
    RequestGet(FollowingPath(username))
  }

  /** `follow`. */
  function Follow(username: string): (c: Call)
    ensures c.options == [] && Sends(c, Put, FollowingPath(username)) && c.payload == NoBody
  {
    RequestPut(FollowingPath(username))
  }

  /** `unfollow`. */
  function Unfollow(username: string): (c: Call)
    ensures c.options == [] && Sends(c, Delete, FollowingPath(username)) && c.payload == NoBody
  {
    RequestDelete(FollowingPath(username))
  }

  /** Checking, following and unfollowing a user address one route, with GET, PUT and DELETE. */
  lemma FollowVerbs(username: string)
    ensures IsFollowing(username).url == Follow(username).url == Unfollow(username).url
    ensures IsFollowing(username).verb == Verb.Get && Follow(username).verb == Put && Unfollow(username).verb == Delete
  {}

  class User {
    const transport: Transport
    var email: UserEmails.Email?
    var key: UserKey?
    var repo: RepoBase.Repo?
    var gist: Gists.Gist?
    var issue: UserIssue?

    /** Every sub-resource created so far shares this wrapper's transport; the repositories are a user's. */
    predicate Valid()
      reads this
    {
      (email != null ==> email.transport == transport) &&
      (key != null ==> key.transport == transport) &&
      (repo != null ==> repo.transport == transport && repo.kind == RepoBase.UserRepos) &&
      (gist != null ==> gist.transport == transport) &&
      (issue != null ==> issue.transport == transport)
    }

    /** Uses the given transport, or a new one when none is given. */
    constructor (transport: Transport?)
      ensures transport != null ==> this.transport == transport
      ensures transport == null ==> fresh(this.transport)
      ensures email == null && key == null && repo == null && gist == null && issue == null
      ensures Valid()
    {
      if transport == null {
        this.transport := new Transport();
      } else {
        this.transport := transport;
      }
      email := null;
      key := null;
      repo := null;
      gist := null;
      issue := null;
    }

    /** `emails()`: created on the first call, the same object afterwards. */
    method Emails() returns (e: UserEmails.Email)
      requires Valid()
      modifies this`email
      ensures Valid() && email == e && e.transport == transport
      ensures old(email) != null ==> e == old(email)
      ensures old(email) == null ==> fresh(e)
    {
      if email == null {
        email := new UserEmails.Email(transport);
      }
      e := email;
    }

    /** `keys()`. */
    method Keys() returns (k: UserKey)
      requires Valid()
      modifies this`key
      ensures Valid() && key == k && k.transport == transport
      ensures old(key) != null ==> k == old(key)
      ensures old(key) == null ==> fresh(k)
    {
      if key == null {
        key := new UserKey(transport);
      }
      k := key;
    }

    /** `repos()`: a repository wrapper of the user kind. */
    method Repos() returns (r: RepoBase.Repo)
      requires Valid()
      modifies this`repo
      ensures Valid() && repo == r && r.transport == transport && r.kind == RepoBase.UserRepos
      ensures old(repo) != null ==> r == old(repo)
      ensures old(repo) == null ==> fresh(r) && r.Valid()
    {
      if repo == null {
        repo := new RepoBase.Repo(transport, RepoBase.UserRepos);
      }
      r := repo;
    }

    /** `gists()`. */
    method Gists() returns (g: Gists.Gist)
      requires Valid()
      modifies this`gist
      ensures Valid() && gist == g && g.transport == transport
      ensures old(gist) != null ==> g == old(gist)
      ensures old(gist) == null ==> fresh(g) && g.Valid()
    {
      if gist == null {
        gist := new Gists.Gist(transport);
      }
      g := gist;
    }

    /** `issues()`. */
    method Issues() returns (i: UserIssue)
      requires Valid()
      modifies this`issue
      ensures Valid() && issue == i && i.transport == transport
      ensures old(issue) != null ==> i == old(issue)
      ensures old(issue) == null ==> fresh(i)
    {
      if issue == null {
        issue := new UserIssue(transport);
      }
      i := issue;
    }
  }
}
