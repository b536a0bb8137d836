/**
  The issues of a repository (lib/GitHub/API/Repo/Issue.php): listing merges
  the filters, the sort options and the page parameters; creation and update
  send the title and the optional fields that are not null, and ask for the
  `issue` media type in the requested format.
 */
module RepoIssues {
  import opened Results
  import opened PhpArrays
  import opened GitHubApi
  import RepoBase

  /** `MIME_TYPE_RESOURCE` of lib/GitHub/API/Issue/Issue.php. */
  const MimeTypeResource: string := "issue"

  /** `STATE_OPEN` of lib/GitHub/API/Issue/Issue.php. */
  const StateOpen: string := "open"

  function IssuesPath(username: string, repo: string): string {
    RepoBase.RepoPath(username, repo) + "/issues"
  }

  /** `array_merge($filters, $sort, buildPageParams($page, $pageSize))`. */
  function ListParams(filters: PhpArray, sort: PhpArray, page: int, pageSize: int): (p: PhpArray)
    ensures Lookup(p, Name("page")) == Some(Int(page))
    ensures Lookup(p, Name("per_page")) == Some(Int(pageSize))
    ensures forall n :: n != "page" && n != "per_page" ==>
              Lookup(p, Name(n)) == if Name(n) in KeysOf(sort) then Lookup(sort, Name(n)) else Lookup(filters, Name(n))
  {
    ListLookup(filters, sort, page, pageSize, "page");
    ListLookup(filters, sort, page, pageSize, "per_page");
    forall n | n != "page" && n != "per_page"
      ensures Lookup(ArrayMerge3(filters, sort, BuildPageParams(page, pageSize)), Name(n)) ==
              if Name(n) in KeysOf(sort) then Lookup(sort, Name(n)) else Lookup(filters, Name(n))
    {
      ListLookup(filters, sort, page, pageSize, n);
    }
    ArrayMerge3(filters, sort, BuildPageParams(page, pageSize))
  }

  /** The value a string key has after the three arrays are merged. */
  lemma ListLookup(filters: PhpArray, sort: PhpArray, page: int, pageSize: int, n: string)
    ensures Lookup(ArrayMerge3(filters, sort, BuildPageParams(page, pageSize)), Name(n)) ==
            if n == "page" then Some(Int(page))
            else if n == "per_page" then Some(Int(pageSize))
            else if Name(n) in KeysOf(sort) then Lookup(sort, Name(n))
            else Lookup(filters, Name(n))
  {
    var pp := BuildPageParams(page, pageSize);
    FoldLookupName(Fold(Fold([], filters), sort), pp, n);
    FoldLookupName(Fold([], filters), sort, n);
    FoldLookupName([], filters, n);
  }

  /**
    `all`: the page parameters win over filters and sort options of the same
    name, and sort options over filters. No media type is asked for, whatever
    `format` says.
   */
  function All(username: string, repo: string, filters: PhpArray := [], sort: PhpArray := [],
               page: int := 1, pageSize: int := DefaultPageSize, format: string := FormatRaw): (c: Call)
    ensures Sends(c, Verb.Get, IssuesPath(username, repo)) && c.options == []
    ensures c.payload == Query(ListParams(filters, sort, page, pageSize))
  {
    RequestGet(IssuesPath(username, repo), ListParams(filters, sort, page, pageSize))
  }

  /** A caller cannot override the page through the filters or the sort options. */
  lemma PageParamsWin(username: string, repo: string, filters: PhpArray, sort: PhpArray, page: int, pageSize: int)
    ensures Lookup(All(username, repo, filters, sort, page, pageSize).payload.params, Name("page")) == Some(Int(page))
    ensures Lookup(All(username, repo, filters, sort, page, pageSize).payload.params, Name("per_page")) == Some(Int(pageSize))
  {}

  /** The options of `get`, `create` and `update`: one Accept header for the issue media type. */
  function IssueOptions(format: string): (o: PhpArray)
    ensures o == [(Name("headers"), Arr([(Index(0), Str(AcceptHeader(format, MimeTypeResource)))]))]
  {
    FormatOptionsFresh(format, MimeTypeResource);
    FormatOptions(format, MimeTypeResource, [])
  }

  /** `get` as the PHP code writes it: the route is that of a milestone with this id. */
  function GetAsWritten(username: string, repo: string, id: string, format: string := FormatRaw): (c: Call)
    ensures Sends(c, Verb.Get, RepoBase.RepoPath(username, repo) + "/milestones/" + id)
    ensures c.payload == Query([]) && c.options == IssueOptions(format)
  {
    RequestGet(RepoBase.RepoPath(username, repo) + "/milestones/" + id, [], IssueOptions(format))
  }

  /** `get` as documented, which fetches the issue that `update` edits. */
  function Get(username: string, repo: string, id: string, format: string := FormatRaw): (c: Call)
    ensures Sends(c, Verb.Get, IssuesPath(username, repo) + "/" + id)
    ensures c.payload == Query([]) && c.options == IssueOptions(format)
  {
    RequestGet(IssuesPath(username, repo) + "/" + id, [], IssueOptions(format))
  }

  /** Fields that may follow the title: string keys other than `title`. */
  predicate OptionalFields(fields: PhpArray) {
    forall i :: 0 <= i < |fields| ==> fields[i].0.Name? && fields[i].0 != Name("title")
  }

  /** The title, then the optional fields that are not null, in their order. */
  function Details(title: Value, optional: PhpArray): (p: PhpArray)
    requires OptionalFields(optional)
    ensures p == [(Name("title"), title)] + NonNull(optional)
  {
    var rest := NonNull(optional);
    assert forall i :: 0 <= i < |rest| ==> rest[i] in optional;
    ArrayMergeDisjointNames([(Name("title"), title)], rest);
    ArrayMerge([(Name("title"), title)], rest)
  }

  /** The optional fields of `create`. */
  function CreateFields(body: Value, assignee: Value, milestone: Value, labels: Value): (f: PhpArray)
    ensures OptionalFields(f)
  {
    [(Name("body"), body), (Name("assignee"), assignee), (Name("milestone"), milestone), (Name("labels"), labels)]
  }

  /** The optional fields of `update`: those of `create` and the state. */
  function UpdateFields(body: Value, assignee: Value, milestone: Value, labels: Value, state: Value): (f: PhpArray)
    ensures OptionalFields(f)
  {
    [(Name("body"), body), (Name("assignee"), assignee), (Name("milestone"), milestone), (Name("labels"), labels),
     (Name("state"), state)]
  }

  /** `create`: the title is always sent first, even when null. */
  function Create(username: string, repo: string, title: Value, body: Value := Null, assignee: Value := Null,
                  milestone: Value := Null, labels: Value := Arr([]), format: string := FormatRaw): (c: Call)
    ensures Sends(c, Post, IssuesPath(username, repo)) && c.options == IssueOptions(format)
    ensures c.payload == Json(Details(title, CreateFields(body, assignee, milestone, labels)))
  {
    RequestPost(IssuesPath(username, repo), Details(title, CreateFields(body, assignee, milestone, labels)),
                IssueOptions(format))
  }

  /** `update`: like `create`, with the state, which is `open` unless the caller says otherwise. */
  function Update(username: string, repo: string, id: string, title: Value, body: Value := Null,
                  assignee: Value := Null, milestone: Value := Null, labels: Value := Arr([]),
                  state: Value := Str(StateOpen), format: string := FormatRaw): (c: Call)
    ensures Sends(c, Patch, IssuesPath(username, repo) + "/" + id) && c.options == IssueOptions(format)
    ensures c.payload == Json(Details(title, UpdateFields(body, assignee, milestone, labels, state)))
  {
    RequestPatch(IssuesPath(username, repo) + "/" + id,
                 Details(title, UpdateFields(body, assignee, milestone, labels, state)), IssueOptions(format))
  }

  /** With only a title, `create` sends the title and the empty label list. */
  lemma CreateDefaults(title: Value)
    ensures Details(title, CreateFields(Null, Null, Null, Arr([]))) == [(Name("title"), title), (Name("labels"), Arr([]))]
  {
    CreateFieldsDefaults(Arr([]));
    DetailsOfOne(title, CreateFields(Null, Null, Null, Arr([])), (Name("labels"), Arr([])));
  }

  /** The details when a single optional field is sent. */
  lemma DetailsOfOne(title: Value, optional: PhpArray, e: Entry)
    requires OptionalFields(optional) && NonNull(optional) == [e]
    ensures Details(title, optional) == [(Name("title"), title), e]
  {
    assert [(Name("title"), title)] + [e] == [(Name("title"), title), e];
  }

  /** When only the labels are given, they are the only optional field sent. */
  lemma CreateFieldsDefaults(labels: Value)
    requires !labels.Null?
    ensures NonNull(CreateFields(Null, Null, Null, labels)) == [(Name("labels"), labels)]
  {
    var f := CreateFields(Null, Null, Null, labels);
    NonNullFrom(f, 0);
    NonNullFrom(f, 1);
    NonNullFrom(f, 2);
    NonNullFrom(f, 3);
    assert f[0..] == f && f[4..] == [];
  }

  /** With only a title, `update` sends the title, the empty label list and the open state. */
  lemma UpdateDefaults(title: Value)
    ensures Details(title, UpdateFields(Null, Null, Null, Arr([]), Str(StateOpen))) ==
            [(Name("title"), title), (Name("labels"), Arr([])), (Name("state"), Str(StateOpen))]
  {
    UpdateFieldsDefaults(Arr([]), Str(StateOpen));
  }

  /** When only the labels and the state are given, they are the only optional fields sent. */
  lemma UpdateFieldsDefaults(labels: Value, state: Value)
    requires !labels.Null? && !state.Null?
    ensures NonNull(UpdateFields(Null, Null, Null, labels, state)) == [(Name("labels"), labels), (Name("state"), state)]
  {
    var f := UpdateFields(Null, Null, Null, labels, state);
    NonNullFrom(f, 0);
    NonNullFrom(f, 1);
    NonNullFrom(f, 2);
    NonNullFrom(f, 3);
    NonNullFrom(f, 4);
    assert f[0..] == f && f[5..] == [];
  }

  /** An optional field reaches the body exactly when it is not null, with its value. */
  lemma CreateSendsNonNull(username: string, repo: string, title: Value, body: Value, assignee: Value,
                           milestone: Value, labels: Value, e: Entry)
    requires e.0 != Name("title")
    ensures e in Create(username, repo, title, body, assignee, milestone, labels).payload.params <==>
            e in CreateFields(body, assignee, milestone, labels) && !e.1.Null?
  {
    NonNullMembers(CreateFields(body, assignee, milestone, labels), e);
  }

  /** As written, `get` never addresses the issue that `update` edits under the same id. */
  lemma GetAsWrittenMissesIssue(username: string, repo: string, id: string)
    ensures PathOf(GetAsWritten(username, repo, id).url) != PathOf(Update(username, repo, id, Null).url)
  {
    var prefix := RepoBase.RepoPath(username, repo) + "/";
    var a := prefix + "milestones/" + id;
    var b := prefix + "issues/" + id;
    assert a[|prefix|] == 'm' && b[|prefix|] == 'i';
  }

  /** Corrected, `get` and `update` address the same issue. */
  lemma GetAddressesUpdatedIssue(username: string, repo: string, id: string, title: Value)
    ensures Get(username, repo, id).url == Update(username, repo, id, title).url
  {}
}
