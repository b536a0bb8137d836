/**
  The repositories of an organisation (lib/GitHub/API/Org/Repo.php): the
  whitelist has no `member`, and an unauthenticated caller may only list
  public repositories. The file raises `new Exception(...)` inside the
  namespace `GitHub\API\Org`, where no class `Exception` exists, so PHP stops
  with a class-not-found error instead of throwing.
 */
module OrgRepos {
  import opened Results
  import opened PhpArrays
  import opened GitHubApi
  import RepoBase

  /** The class the failing `new Exception(...)` names. */
  const MissingException: string := "GitHub\\API\\Org\\Exception"

  function OrgPath(organization: string): string {
    "orgs/" + organization + "/repos"
  }

  /**
    `all`. The PHP code passes an undefined `$params` as the GET parameters, so
    no parameters are sent and `page` and `pageSize` have no effect.
   */
  function All(organization: string, authenticated: bool, repoType: string := RepoBase.TypeAll,
               page: int := 1, pageSize: int := DefaultPageSize): (r: Result<Call, Error>)
    ensures r.Failure? ==> r.error == ClassNotFound(MissingException)
    ensures r.Success? <==> repoType in RepoBase.AllowedRepoTypes(RepoBase.OrgRepos) &&
                            (authenticated || repoType == RepoBase.TypePublic)
    ensures r.Success? ==> Sends(r.value, Get, OrgPath(organization)) &&
                           r.value.payload == Query([]) && r.value.options == []
  {
    if repoType !in RepoBase.AllowedRepoTypes(RepoBase.OrgRepos) then
      Failure(ClassNotFound(MissingException))
    else if !authenticated && RepoBase.TypePublic != repoType then
      Failure(ClassNotFound(MissingException))
    else
      Success(RequestGet(OrgPath(organization)))
  }

  /** `member` is not a type of organisation repository, whoever asks. */
  lemma MemberRejected(organization: string, authenticated: bool)
    ensures All(organization, authenticated, RepoBase.TypeMember).Failure?
  {
    assert RepoBase.AllowedRepoTypes(RepoBase.OrgRepos) == ["all", "public", "private"];
  }

  /** An unauthenticated default listing is always rejected. */
  lemma UnauthenticatedDefaultRejected(organization: string)
    ensures All(organization, false).Failure?
  {}

  /** The whitelist is checked first: for a type outside it, authentication makes no difference. */
  lemma WhitelistBeforeAuthentication(organization: string, repoType: string)
    requires repoType !in RepoBase.AllowedRepoTypes(RepoBase.OrgRepos)
    ensures All(organization, true, repoType) == All(organization, false, repoType)
  {}

  /** The page arguments do not reach the request. */
  lemma PagingIgnored(organization: string, authenticated: bool, repoType: string, p1: int, s1: int, p2: int, s2: int)
    ensures All(organization, authenticated, repoType, p1, s1) == All(organization, authenticated, repoType, p2, s2)
  {}

  /** `create`: the shared creation at the organisation's route. */
  function Create(organization: string, repo: string, details: PhpArray := []): (c: Call)
    ensures Sends(c, Post, OrgPath(organization)) && c.options == []
    ensures c.payload == Json(RepoBase.RepoDetails(repo, details))
    ensures Lookup(c.payload.params, Name("name")) == Some(Str(repo))
  {
    RepoBase.Create(OrgPath(organization), repo, details)
  }
}
