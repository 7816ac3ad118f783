/** The slice of the GitHub REST schema the core reads, and the shape of a
    single API call's outcome. Absent optional fields are their zero
    values, as the go-github nil-safe getters return them: a nil user has
    login "", a missing timestamp is 0. */
module GitHub {
  import opened Base

  datatype PullRequest = PullRequest(
    number: int,
    htmlURL: string,
    user: string,            // author login
    state: string,
    title: string,
    body: string,
    updatedAt: Time,
    closedAt: Time,
    mergedAt: Time,
    merged: bool,
    mergeCommitSHA: string,
    baseRef: string,
    changedFiles: int)

  /** What every getter of a nil `*github.PullRequest` returns. */
  const ZeroPull := PullRequest(0, "", "", "", "", "", 0, 0, 0, false, "", "", 0)

  function PullOrZero(o: Option<PullRequest>): PullRequest
  {
    match o
    case Some(p) => p
    case None => ZeroPull
  }

  datatype Issue = Issue(
    number: int,
    htmlURL: string,
    user: string,                 // creator login
    closedBy: Option<string>,     // None for a nil `ClosedBy`; else its login
    state: string,
    title: string,
    createdAt: Time,
    updatedAt: Time,
    closedAt: Time,
    isPullRequest: bool)

  /** What every getter of a nil `*github.Issue` returns. */
  const ZeroIssue := Issue(0, "", "", None, "", "", 0, 0, 0, false)

  function IssueOrZero(o: Option<Issue>): Issue
  {
    match o
    case Some(i) => i
    case None => ZeroIssue
  }

  datatype CommitFile = CommitFile(filename: string, additions: int, deletions: int)

  datatype Repository = Repository(name: string)

  datatype PullComment = PullComment(id: int, user: string, body: string)

  datatype IssueComment = IssueComment(id: int, user: string, body: string)

  datatype Review = Review(id: int, user: string, state: string)

  /** The data half of a call's result as the caller sees it through
      `interface{}`: a value of the expected type (a typed nil slice is
      `Data([])`, a typed nil pointer is `Data(None)`), an untyped nil, or
      a value of some other type. */
  datatype Payload<+V> = Data(v: V) | NilData | Mistyped

  /** The `*github.Response` half: nil, or the next page number and the
      next cursor the server advertised. */
  datatype Meta = NilMeta | Meta(nextPage: int, after: string)

  /** One API call: it failed with an error, or it returned data and a
      response. */
  datatype Reply<+V> = CallFailed(cause: string) | Reply(payload: Payload<V>, meta: Meta)
}
