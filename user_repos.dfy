/**
  The repositories of a user (lib/GitHub/API/User/Repo.php): the listing
  checks the requested repository type against the whitelist, and lists the
  authenticated user's repositories, or another user's public ones.
 */
module UserRepos {
  import opened Results
  import opened PhpArrays
  import opened GitHubApi
  import RepoBase

  /** `join(", ", $this->allowedRepoTypes)`. */
  const AvailableTypes: string := RepoBase.JoinTypes(RepoBase.AllowedRepoTypes(RepoBase.UserRepos))

  /** The message lists the four allowed types, in the order of the whitelist. */
  lemma AvailableTypesListed()
    ensures AvailableTypes ==
            RepoBase.TypeAll + ", " + RepoBase.TypePublic + ", " + RepoBase.TypePrivate + ", " + RepoBase.TypeMember
  {
    JoinFour(RepoBase.TypeAll, RepoBase.TypePublic, RepoBase.TypePrivate, RepoBase.TypeMember);
  }

  lemma JoinFour(a: string, b: string, c: string, d: string)
    ensures RepoBase.JoinTypes([a, b, c, d]) == a + ", " + b + ", " + c + ", " + d
  {
    var ts := [a, b, c, d];
    assert ts[1..] == [b, c, d] && ts[1..][1..] == [c, d] && ts[1..][1..][1..] == [d];
    assert RepoBase.JoinTypes([c, d]) == c + ", " + d;
    assert RepoBase.JoinTypes([b, c, d]) == b + ", " + (c + ", " + d);
    assert RepoBase.JoinTypes(ts) == a + ", " + (b + ", " + (c + ", " + d));
  }

  function UnsupportedTypeMessage(repoType: string): string {
    "Unsupported " + repoType + " option. Available types are " + AvailableTypes
  }

  const OnlyPublicTail: string := " option. Unathenticated user requests can only list public repositories [ApiRepo::REPO_TYPE_PUBLIC]"

  function OnlyPublicMessage(repoType: string): string {
    "Unsupported " + repoType +
    OnlyPublicTail
  }

  /** `array_merge(array('type' => $repoType), buildPageParams($page, $pageSize))`. */
  function ListParams(repoType: string, page: int, pageSize: int): (p: PhpArray)
    ensures p == [(Name("type"), Str(repoType)), (Name("page"), Int(page)), (Name("per_page"), Int(pageSize))]
  {
    ArrayMergeDisjointNames([(Name("type"), Str(repoType))], BuildPageParams(page, pageSize));
    ArrayMerge([(Name("type"), Str(repoType))], BuildPageParams(page, pageSize))
  }

  /** The route of the listing: the authenticated user's, or the named user's. */
  function ListPath(username: Option<string>): string {
    match username
    case None => "user/repos"
    case Some(u) => "users/" + u + "/repos"
  }

  /** `all`. */
  function All(username: Option<string> := None, repoType: string := RepoBase.TypeAll,
               page: int := 1, pageSize: int := DefaultPageSize): (r: Result<Call, Error>)
    ensures repoType !in RepoBase.AllowedRepoTypes(RepoBase.UserRepos) ==>
              r == Failure(ApiException(UnsupportedTypeMessage(repoType)))
    ensures repoType in RepoBase.AllowedRepoTypes(RepoBase.UserRepos) && username.Some? && repoType != RepoBase.TypePublic ==>
              r == Failure(ApiException(OnlyPublicMessage(repoType)))
    ensures repoType in RepoBase.AllowedRepoTypes(RepoBase.UserRepos) &&
            (username.None? || repoType == RepoBase.TypePublic) ==>
              r.Success? &&
              Sends(r.value, Get, ListPath(username)) && r.value.options == [] &&
              r.value.payload == Query(ListParams(repoType, page, pageSize))
  {
    if repoType !in RepoBase.AllowedRepoTypes(RepoBase.UserRepos) then
      Failure(ApiException(UnsupportedTypeMessage(repoType)))
    else if username.Some? && RepoBase.TypePublic != repoType then
      Failure(ApiException(OnlyPublicMessage(repoType)))
    else
      Success(RequestGet(ListPath(username), ListParams(repoType, page, pageSize)))
  }

  /** With the default type `all`, listing the repositories of a named user always throws. */
  lemma NamedUserDefaultThrows(username: string)
    ensures All(Some(username)).Failure?
  {}

  /** A named user's listing goes to that user's route, which names the user. */
  lemma NamedRouteRecoversUser(username: string, page: int, pageSize: int)
    ensures All(Some(username), RepoBase.TypePublic, page, pageSize).Success?
    ensures var path := PathOf(All(Some(username), RepoBase.TypePublic, page, pageSize).value.url).value;
            |path| == |username| + 12 && path[6..|path| - 6] == username
  {
    var path := "users/" + username + "/repos";
    assert path[6..|path| - 6] == username;
  }

  /** `create`: the shared creation at `user/repos`. */
  function Create(repo: string, details: PhpArray := []): (c: Call)
    ensures Sends(c, Post, "user/repos") && c.options == []
    ensures c.payload == Json(RepoBase.RepoDetails(repo, details))
    ensures Lookup(c.payload.params, Name("name")) == Some(Str(repo))
  {
    RepoBase.Create("user/repos", repo, details)
  }
}
