/**
  The commit comments of a repository (lib/GitHub/API/Repo/CommitComment.php):
  the listing is of the whole repository or of one commit, and every call but
  `delete` asks for the `commitcomment` media type in the requested format.
 */
module CommitComments {
  import opened Results
  import opened PhpArrays
  import opened GitHubApi
  import RepoBase

  const MimeTypeResource: string := "commitcomment"

  /** One Accept header for the commit comment media type. */
  function CommentOptions(format: string): (o: PhpArray)
    ensures o == [(Name("headers"), Arr([(Index(0), Str(AcceptHeader(format, MimeTypeResource)))]))]
  {
    FormatOptionsFresh(format, MimeTypeResource);
    FormatOptions(format, MimeTypeResource, [])
  }

  /** The comments of the repository, or of the commit `sha`. */
  function CommentsPath(username: string, repo: string, sha: Option<string>): (p: string)
    ensures sha.None? ==> p == RepoBase.RepoPath(username, repo) + "/comments"
    ensures sha.Some? ==> p == RepoBase.RepoPath(username, repo) + "/commits/" + sha.value + "/comments"
  {
    match sha
    case None => RepoBase.RepoPath(username, repo) + "/comments"
    case Some(s) => RepoBase.RepoPath(username, repo) + "/commits/" + s + "/comments"
  }

  /** The listing of one commit's comments is never the listing of the whole repository. */
  lemma CommitListingDiffers(username: string, repo: string, sha: string)
    ensures CommentsPath(username, repo, None) != CommentsPath(username, repo, Some(sha))
  {
    var prefix := RepoBase.RepoPath(username, repo) + "/";
    assert CommentsPath(username, repo, None) == prefix + "comments";
    assert CommentsPath(username, repo, Some(sha)) == prefix + "commits/" + sha + "/comments";
    assert (prefix + "comments")[|prefix| + 3] == 'm';
    assert (prefix + "commits/" + sha + "/comments")[|prefix| + 3] == 'm';
    assert (prefix + "comments")[|prefix| + 4] == 'e';
    assert (prefix + "commits/" + sha + "/comments")[|prefix| + 4] == 'i';
  }

  /** `all`. */
  function All(username: string, repo: string, sha: Option<string> := None, format: string := FormatRaw): (c: Call)
    ensures Sends(c, Get, CommentsPath(username, repo, sha))
    ensures c.payload == Query([]) && c.options == CommentOptions(format)
  {
    RequestGet(CommentsPath(username, repo, sha), [], CommentOptions(format))
  }

  /** `get`. */
  function GetComment(username: string, repo: string, id: string, format: string := FormatRaw): (c: Call)
    ensures Sends(c, Get, RepoBase.RepoPath(username, repo) + "/comments/" + id)
    ensures c.payload == Query([]) && c.options == CommentOptions(format)
  {
    RequestGet(RepoBase.RepoPath(username, repo) + "/comments/" + id, [], CommentOptions(format))
  }

  /** The body of `create`: every field, unfiltered, with the commit as `commit_id`. */
  function CreateDetails(sha: string, body: Value, line: Value, path: Value, position: Value): (p: PhpArray)
    ensures KeysOf(p) == [Name("body"), Name("commit_id"), Name("line"), Name("path"), Name("position")]
    ensures Lookup(p, Name("commit_id")) == Some(Str(sha))
    ensures p[0].1 == body && p[2].1 == line && p[3].1 == path && p[4].1 == position
  {
    [(Name("body"), body), (Name("commit_id"), Str(sha)), (Name("line"), line), (Name("path"), path),
     (Name("position"), position)]
  }

  /** `create`: a POST to the commit's comments. */
  function Create(username: string, repo: string, sha: string, body: Value, line: Value, path: Value,
                  position: Value, format: string := FormatRaw): (c: Call)
    ensures Sends(c, Post, CommentsPath(username, repo, Some(sha))) && c.options == CommentOptions(format)
    ensures c.payload == Json(CreateDetails(sha, body, line, path, position))
  {
    RequestPost(CommentsPath(username, repo, Some(sha)), CreateDetails(sha, body, line, path, position),
                CommentOptions(format))
  }

  /** A comment is created on the commit it names: the route is that of the commit's listing, and `commit_id` is its sha. */
  lemma CreateNamesOneCommit(username: string, repo: string, sha: string, body: Value, line: Value,
                             path: Value, position: Value)
    ensures Create(username, repo, sha, body, line, path, position).url == All(username, repo, Some(sha)).url
    ensures Lookup(Create(username, repo, sha, body, line, path, position).payload.params, Name("commit_id")) ==
            Some(Str(sha))
  {}

  /** `update`: a PATCH whose body is exactly the new comment text. */
  function Update(username: string, repo: string, id: string, body: Value, format: string := FormatRaw): (c: Call)
    ensures Sends(c, Patch, RepoBase.RepoPath(username, repo) + "/comments/" + id)
    ensures c.payload.Json? && c.payload.params == [(Name("body"), body)]
    ensures c.options == CommentOptions(format)
  {
    RequestPatch(RepoBase.RepoPath(username, repo) + "/comments/" + id, [(Name("body"), body)],
                 CommentOptions(format))
  }

  /** `delete`: no body and no media type. */
  function Delete(username: string, repo: string, id: string): (c: Call)
    ensures Sends(c, Verb.Delete, RepoBase.RepoPath(username, repo) + "/comments/" + id)
    ensures c.payload == NoBody && c.options == []
  {
    RequestDelete(RepoBase.RepoPath(username, repo) + "/comments/" + id)
  }
}
