# pullsheet ingestion core, modelled in Dafny

pullsheet builds contribution reports (merged pull requests, closed issues,
review and comment leaderboards) from the GitHub API. Its core sits between
the GitHub client and the report renderers:

- **page aggregators** drain a paged listing into one ordered sequence. The
  pull request, repository and cached detail listings page by number. The
  issue listing pages by an opaque `after` cursor.
- **cache-or-fetch helpers** (`ghcache`) answer a detail request from the
  persistent cache, or fetch it through a retrying call and store it.
- **filter pipelines** (`MergedPulls`, `issues`) walk the listed candidates
  newest-first. `MergedPulls` stops early at the first pull request updated
  before `since`; `issues` passes over pull requests first and stops at the
  first non-PR issue updated before `since`. Both keep the candidates whose
  listing entry and fetched detail pass every test.
- the **pull request summariser** (`PullSummary`) removes duplicate URLs,
  dates each pull request and counts its lines. Additions to changelog-like
  files are capped. It also cuts the description.
- the **leaderboard tallies** count closers, openers, comment words and
  comments per user.

Every part is a pure function of the server replies. A paged listing is
modelled as a function over a finite sequence of replies: the i-th call
receives the i-th reply. `Paging.Drain` is the one loop, and `Paging.Judge`
spells out, per loop style, what one reply does to it. An outcome is one of:

- `Complete`
- `Failed` (Go's error return)
- `Panicked` (a nil `*github.Response` dereferenced by a loop that does not
  check for it)
- `Unfinished` (the modelled replies ran out)

Timestamps are integers, with 0 for Go's zero time. `Before` and `After`
are strict.

Modules and files:

| file | module | models |
|---|---|---|
| base.dfy | `Base` | options, results, time tests, lower-casing, allow-lists, `%d` |
| github.dfy | `GitHub` | the REST records read, and one call's outcome (`Reply`) |
| retry.dfy | `Retry` | `RetryGithubCall` |
| paging.dfy | `Paging` | the shared paging loop and the per-style reply judgement |
| sift.dfy | `Sift` | the shared filter walk with `break`/`continue` |
| pulls.dfy | `Pulls` | `fetchAllPullRequestPages`, `MergedPulls` |
| issues.dfy | `Issues` | `fetchAllIssuePages`, `issues`, `issueDate`, `ClosedIssues` |
| ghcache.dfy | `GhCache` | keys, the cache-or-fetch helpers, `FetchPullRequestsListPagesWithRetries` |
| repos.dfy | `Repos` | `fetchAllRepoPages`, `ListRepoNames` |
| summaries.dfy | `Summaries` | `PullSummary` |
| leaderboard.dfy | `Leaderboard` | the four issue and comment tallies |

The filter pipelines take the detail lookup as a function `fetch(number,
asOf)` returning a `Result`. `Pulls.CacheFetch` instantiates it with
`GhCache.PullRequestsGet`, which turns a failed cache write into an error.

The source comment on the issue page size says the default is 50. The code
sets 100, and the model follows the code (`Issues.DefaultPerPage`).

## Model

| member | source | states |
|---|---|---|
| Base.InWindowBounds | pkg/repo/pr.go:224-231 | the window test "not after `until` and not before `since`" keeps exactly the times with `since <= t <= until`, both ends included |
| Base.AllowList | pkg/repo/pr.go:110-118 | the `matchUser`/`matchBranch` key set holds exactly the lower-cased entries of the list |
| Base.AllowListEmpty | pkg/repo/pr.go:168 | the key set is empty exactly when the list is, so `len(matchUser) > 0` is "the list is non-empty" |
| Base.AllowListIsLowerCase | pkg/repo/pr.go:115-118 | no allow-list key contains an upper-case letter |
| Retry.RetryGithubCall | pkg/ghcache/ghcache.go:32-59 | success passes data and response through unchanged; failure stays failure, and its message starts with the call description plus " after retries" and ends with the cause |
| Retry.UnwrapCause | pkg/ghcache/ghcache.go:55-57 | dropping the "desc after retries: " prefix from a retried failure gives back the original cause, so the wrap loses nothing |
| Paging.Judge | pkg/repo/pr.go:71-91 | in every loop, a failed call is rejected with the retried message, a wrong-typed payload is rejected as a type mismatch, the loop only advances on a typed page naming a further position of its own mode (page or cursor), and only the pull request and detail loops can crash, on a nil response; the per-loop conditions are stated by `Pulls.PullStep`, `Repos.RepoStep`, `GhCache.DetailStep` and `Issues.CursorStep` |
| Paging.Drain | pkg/repo/pr.go:58-92 | each call after the first goes to the position the previous reply named; the listing completes, fails or panics exactly when the last step says so; a complete listing is the in-order concatenation of the pages received |
| Sift.HaltFrom | pkg/repo/pr.go:140-147 | the walk stops at the first candidate that says stop, and at no earlier one |
| Sift.PicksFrom | pkg/repo/pr.go:140-235 | the kept indices increase strictly, all lie before the stop, and include every kept candidate before it |
| Sift.ScanFrom | pkg/repo/pr.go:140-235 | the result lists, in order, the values of exactly the kept candidates |
| Sift.ScanStopsAtHalt | pkg/repo/pr.go:143-147 | nothing at or after a stopping candidate is kept |
| Pulls.FetchAllPullRequestPages | pkg/repo/pr.go:41-95 | page 0 is requested as page 1; later requests use the previous `NextPage`; it stops at an empty page or `NextPage == 0`; an error or wrong type fails; a nil response after a non-empty page panics; the result concatenates the pages |
| Pulls.PullStep | pkg/repo/pr.go:71-91 | one listing reply advances exactly when it is a non-empty typed page with a non-zero `NextPage`, which it follows; it ends normally on a typed empty page or `NextPage == 0`; it fails exactly on an error or wrong type |
| Pulls.CacheTime | pkg/repo/pr.go:188-195 | the cache time is the merge time, else the close time, else the update time |
| Pulls.PullVerdict | pkg/repo/pr.go:140-234 | one pass of the filter loop over a listed pull request; its meaning is stated by `Pulls.PullVerdictSpec` |
| Pulls.PullVerdictSpec | pkg/repo/pr.go:140-234 | the loop stops exactly at a PR updated before `since`; it keeps exactly those whose listing entry is closed in the window, in state "closed", by an allowed non-bot author, whose detail lookup succeeded, and whose detail has an allowed base ref, is merged with a SHA, and was merged inside the window |
| Pulls.MergedPulls | pkg/repo/pr.go:98-138 | it completes, fails or panics exactly as the listing does; a failure names the repository; it never returns more PRs than were listed |
| Pulls.MergedPullsSound | pkg/repo/pr.go:140-235 | every returned PR is the fetched detail of a listed PR that passed all tests; they come in listing order, with no PR updated before `since` at or ahead of it |
| Pulls.MergedPullsComplete | pkg/repo/pr.go:140-235 | a listed PR that passes every test, with no PR updated before `since` ahead of it, is returned |
| Pulls.MergedPullsEarlyExit | pkg/repo/pr.go:143-147 | nothing at or after a PR updated before `since` is returned |
| Pulls.DetailFailureSkips | pkg/repo/pr.go:197-203 | a failed detail lookup drops that PR and the walk goes on |
| Pulls.UpperCaseBranchNeverKept | pkg/repo/pr.go:205-210 | with a branch filter, a base ref containing an upper-case letter never matches, because it is compared un-lowered against lowered keys |
| Pulls.CacheFetch | pkg/repo/pr.go:197 | the pipeline's detail lookup through the cache succeeds exactly on a cached pull request, or on a typed reply whose cache write succeeded, and returns that pull request |
| Pulls.WriteFailureSkips | pkg/ghcache/ghcache.go:85-89 | a PR fetched on a cache miss whose cache write failed is not returned by the pipeline |
| Issues.ResolveOptions | pkg/repo/issue.go:76-92 | the cursor page size is its own value, else `ListOptions.PerPage`, else 100; page numbers and the other page size are cleared |
| Issues.ResolveIdempotent | pkg/repo/issue.go:76-92 | rewriting already rewritten options changes nothing: the cursor page size stays the one chosen and the cleared fields stay cleared |
| Issues.CursorStep | pkg/repo/issue.go:138-165 | a reply advances exactly when it is a typed page with a response and a non-empty cursor; it ends normally exactly when nil or typed data comes with a nil response or an empty cursor; it never panics |
| Issues.CursorDrain | pkg/repo/issue.go:96-166 | every call except the last got a page and a non-empty cursor, which the next call follows; an empty page does not end the listing |
| Issues.FetchAllIssuePages | pkg/repo/issue.go:66-170 | the first request asks for `First = PerPage` with no cursor, and every later request sends only the previous cursor, so `First` and `After` are never both set; it completes, or fails on an error, a wrong type, or nil data with a cursor; the result concatenates the pages |
| Issues.IssueQueryWindow | pkg/repo/issue.go:175-182 | the `issues` query's first window asks for 50 issues |
| Issues.IssueDate | pkg/repo/issue.go:290-300 | the date is the close time, else the update time, else the creation time |
| Issues.IssueVerdict | pkg/repo/issue.go:207-284 | one pass of the filter loop over a listed issue; its meaning is stated by `Issues.IssueVerdictSpec` |
| Issues.IssueVerdictSpec | pkg/repo/issue.go:207-284 | pull requests are passed over before the early exit; the walk stops exactly at a non-PR issue updated before `since`; it keeps exactly those with the asked state, closed in the window when closed issues are asked for, a successful detail lookup, and a creator or non-empty closer on the user list (any user when the list is empty) |
| Issues.ListIssues | pkg/repo/issue.go:173-201 | it completes or fails exactly as the listing does, never panics, names the repository on failure, and returns no more issues than were listed |
| Issues.ListIssuesSound | pkg/repo/issue.go:207-284 | every returned issue is the fetched detail of a listed issue that passed every test, in listing order, with no non-PR issue updated before `since` ahead of it |
| Issues.ListIssuesComplete | pkg/repo/issue.go:207-284 | a listed issue that passes every test, with no non-PR issue updated before `since` ahead of it, is returned |
| Issues.ListIssuesEarlyExit | pkg/repo/issue.go:213-219 | nothing at or after a non-PR issue updated before `since` is returned |
| Issues.ClosedIssues | pkg/repo/issue.go:42-61 | one summary per filtered closed issue, in the same order, carrying its URL, close time, creator, closer (empty when no closer is recorded), title and the given project, with the type left empty; errors pass through |
| Issues.ClosedIssuesListedClosed | pkg/repo/issue.go:224-238 | every closed-issue summary comes from an issue listed in state "closed" with a non-zero close time inside the window |
| GhCache.ToResult | pkg/ghcache/ghcache.go:89 | the caller sees success exactly on a hit, or on a fetch whose write succeeded; a failed write becomes the caller's error |
| GhCache.Commit | pkg/ghcache/ghcache.go:89 | a successful write stores the blob under its key and changes no other key |
| GhCache.Key | pkg/ghcache/ghcache.go:63 | a key is exactly `kind-org-project-num`: it starts with the kind and organization, ends with the project and number, and has no other characters |
| GhCache.KeyCollision | pkg/ghcache/ghcache.go:94 | keys are not injective: a PR key of organization "listfiles-o" equals the file-list key of organization "o" |
| GhCache.CacheOrGet | pkg/ghcache/ghcache.go:62-90 | a hit returns the stored field with no call; a miss makes one call and stores exactly the fetched value, returning the store's error; a failed or mistyped call stores nothing |
| GhCache.PullRequestsGet | pkg/ghcache/ghcache.go:62-90 | for the "pr" key and the pull request field: a hit returns the stored value with no call; a miss makes exactly one call, stores exactly a typed reply and returns the store's error; a failed or mistyped call is an error, and a failed call's message starts with "PullRequests.Get org/project#num after retries" and ends with the cause |
| GhCache.IssuesGet | pkg/ghcache/ghcache.go:178-203 | the same for the "issue" key and the issue field, with a failed call's message starting "Issues.Get org/project#num after retries" |
| GhCache.ListPages | pkg/ghcache/ghcache.go:106-129 | starts at page 0 and follows `NextPage`; stops only when `NextPage == 0`; an error or wrong type fails; a nil response panics; the result concatenates the pages |
| GhCache.DetailStep | pkg/ghcache/ghcache.go:113-128 | one detail-page reply advances exactly when it is a typed page, empty or not, with a non-zero `NextPage`; it ends only on `NextPage == 0`; it panics exactly on a typed page with a nil response |
| GhCache.EmptyPageContinues | pkg/ghcache/ghcache.go:123-128 | an empty page that advertises a next page does not end the listing |
| GhCache.CacheOrList | pkg/ghcache/ghcache.go:93-132 | a hit returns the stored field with no call; on a miss the answer mirrors the paged loop: fetched with exactly the concatenated pages when it completed, its error when a page failed or had the wrong type, a crash on a nil response, one call counted per page; a failed page stores nothing |
| GhCache.PullRequestsListFiles | pkg/ghcache/ghcache.go:93-132 | for the "pr-listfiles" key and the file field: a hit returns the stored list; a miss mirrors the paged loop (fetched, error, crash, call count) and writes a blob holding only the list |
| GhCache.PullRequestsListComments | pkg/ghcache/ghcache.go:135-175 | the same for the "pr-comments" key and the review-comment field |
| GhCache.IssuesListComments | pkg/ghcache/ghcache.go:206-244 | the same for the "issue-comments" key and the issue-comment field |
| GhCache.Reviews | pkg/ghcache/ghcache.go:246-281 | the same for the "review" key and the review field |
| GhCache.FetchPullRequestsListPagesWithRetries | pkg/ghcache/ghcache.go:286-326 | starts at page 0 and an empty page does not stop it; it completes, fails or panics (nil response) exactly as that paged loop does; a failure is the loop's own error, returned unchanged; the result concatenates the pages |
| GhCache.PullRequestsGetRoundTrip | pkg/ghcache/ghcache.go:80-89 | after a miss and a successful write, the next lookup is a hit with the same pull request and no call |
| GhCache.IssuesGetRoundTrip | pkg/ghcache/ghcache.go:193-202 | the same round trip for issues |
| GhCache.ListFilesRoundTrip | pkg/ghcache/ghcache.go:97-131 | the same round trip for a paged helper: the stored list is the list fetched |
| GhCache.PullCommentsRoundTrip | pkg/ghcache/ghcache.go:136-174 | a stored review-comment list is answered back, as a hit, on the next lookup |
| GhCache.IssueCommentsRoundTrip | pkg/ghcache/ghcache.go:207-243 | on a miss whose listing completes, the issue-comment list is fetched, and once stored it is answered back, as a hit, on the next lookup |
| GhCache.ReviewsRoundTrip | pkg/ghcache/ghcache.go:247-280 | a stored review list is answered back, as a hit, on the next lookup |
| GhCache.CollidingHitIsNil | pkg/ghcache/ghcache.go:62-69 | after a file list is stored, a PR lookup under the colliding key hits a blob with a nil pull request |
| Repos.FetchAllRepoPages | pkg/repo/repos.go:30-93 | page 0 is requested as page 1; it stops at an empty page, a nil response or `NextPage == 0`; nil data ends normally only when no next page is advertised; other nil or mistyped data fails; it never panics; the result concatenates the pages |
| Repos.RepoStep | pkg/repo/repos.go:62-89 | one listing reply advances exactly when it is a non-empty typed page with a non-zero `NextPage`; it ends normally on nil or typed data with no next page, or on an empty typed page; it never panics |
| Repos.QualifiedName | pkg/repo/repos.go:115 | a name is the organization, a slash, and the repository name |
| Repos.QualifiedNameInverse | pkg/repo/repos.go:115 | the repository name can be read back from the reported name, so different repositories of one organization get different names |
| Repos.RepoNames | pkg/repo/repos.go:113-116 | one name per repository, in order, each `org + "/" + name` |
| Repos.ListRepoNames | pkg/repo/repos.go:96-120 | a listing error becomes an error naming the organization, with no names; otherwise one qualified name per listed repository, in order, and zero repositories give an empty success |
| Summaries.FileAdded | pkg/repo/pr.go:297-303 | a file contributes its additions, or ten when it is changelog-like with more than ten; never more than its additions |
| Summaries.AddedLines | pkg/repo/pr.go:295-306 | the loop's running `added` total; stated by `Summaries.AddedLinesAppend`, `AddedLinesBound` and `AddedLinesCapped` |
| Summaries.AddedLinesAppend | pkg/repo/pr.go:295-306 | added lines are counted file by file: the count of a concatenation is the sum of the counts |
| Summaries.AddedLinesBound | pkg/repo/pr.go:295-306 | the count never exceeds the plain sum of additions, and equals it when no changelog-like file has more than ten additions |
| Summaries.AddedLinesCapped | pkg/repo/pr.go:297-303 | every file contributes at least its capped additions to the total, and a changelog-like file contributes at most ten |
| Summaries.FileMetrics | pkg/repo/pr.go:291-306 | the per-file loop computes the capped additions, the uncapped deletions and the file names in order |
| Summaries.Truncate | pkg/repo/pr.go:272-274 | a description is at most 243 characters; a body of 240 or fewer is kept whole; a longer body is cut to its first 240 characters followed by "..." |
| Summaries.SummaryDate | pkg/repo/pr.go:275-279 | the date is the merge time, else the close time |
| Summaries.Summarize | pkg/repo/pr.go:295-322 | a report row carries the PR's URL, title, author and report date, the project parsed from the URL and the type of its files; `Added` is the capped count of additions (never more than the plain additions) and `Deleted` the deletions, with `Delta = Added + Deleted`; the description is the comment-stripped body cut by `Truncate`, so at most 243 characters; `Files` joins every path in order with newlines; `FilesTotal` is the PR's changed-file count |
| Summaries.SummariesFromInput | pkg/repo/pr.go:279-322 | every summary comes from an input entry, is dated inside the window, and has `Delta = Added + Deleted` |
| Summaries.SummariesDistinct | pkg/repo/pr.go:261-266 | no two summaries share a URL |
| Summaries.FirstOutsideWindowHides | pkg/repo/pr.go:261-289 | a URL whose first entry is dated outside the window gets no summary, even when a repeat of it falls inside the window |
| Summaries.PullSummary | pkg/repo/pr.go:257-326 | the loop with its `seen` set yields the reference summaries: distinct URLs, all dated in the window, at most one per entry |
| Leaderboard.TabulateSpec | pkg/leaderboard/issues.go:53-62 | a user has a tally entry exactly when some counted entry has that key, and the entry is the sum of those entries' weights |
| Leaderboard.TabulateTotal | pkg/leaderboard/issues.go:29-36 | the tally's entries sum to the weight of all counted entries |
| Leaderboard.IssueCloserTally | pkg/leaderboard/issues.go:23-37 | the closer chart's per-user counts; stated by `Leaderboard.CloserTallySpec` and `CloserTallyEmptyList` |
| Leaderboard.IssueOpenerTally | pkg/leaderboard/issues.go:47-62 | the opener chart's per-user counts; stated by `Leaderboard.OpenerTallySpec` |
| Leaderboard.CommentWordsTally | pkg/leaderboard/issues.go:72-78 | the words chart's per-user sums; stated by `Leaderboard.CommentWordsSkipsAuthors` and `TabulateSpec` |
| Leaderboard.CommentsTally | pkg/leaderboard/issues.go:88-92 | the comments chart's per-user sums; stated by `Leaderboard.CommentsTallyTotal` and `TabulateSpec` |
| Leaderboard.OpenerTallySpec | pkg/leaderboard/issues.go:47-62 | an author is tallied exactly when they opened a summary, are admitted by the list (all are when it is empty), and do not end in "bot"; the figure is the number of summaries they opened |
| Leaderboard.CloserTallySpec | pkg/leaderboard/issues.go:23-37 | a closer is tallied exactly when they closed a summary, their lower-cased login is on the list, and they do not end in "bot"; the figure is the number they closed |
| Leaderboard.CloserTallyEmptyList | pkg/leaderboard/issues.go:24-33 | with an empty user list, the closer tally is empty |
| Leaderboard.NoBotsCharted | pkg/leaderboard/issues.go:30-36 | a login ending in "bot" (case-sensitive) gets no entry in either issue tally |
| Leaderboard.IssueTalliesBounded | pkg/leaderboard/issues.go:54-62 | the opener and closer tallies each total at most the number of summaries |
| Leaderboard.CommentsTallyTotal | pkg/leaderboard/issues.go:88-92 | the comment tally totals the comments of all summaries |
| Leaderboard.CommentWordsSkipsAuthors | pkg/leaderboard/issues.go:72-78 | a commenter who only commented on their own issues gets no word tally |

## Left out

- I/O is replaced by the sequence of replies a run receives: the go-github client, the `persist.Cacher` backend, contexts and HTTP.
- The cache's staleness policy and the `t` argument of `Get` are not modelled. The cache is the map of what `Get` returns at that time.
- Retry timing is left out: attempt counting, backoff, jitter and cancellation inside the retry library. Only the final outcome of a retried call is modelled.
- `klog` logging and `time.Format` date rendering are left out. Summary dates are kept as timestamps.
- In the paged listings, error messages keep the call's endpoint name and its page or cursor. The organization, project, number and query details those loops add to their call descriptions are dropped, and so is the `%T` type name in type-mismatch errors. The single-item lookups (`GhCache.PullRequestsGet`, `GhCache.IssuesGet`) keep their full `org/project#num` description.
- The regular expressions `truncRe` and `commentRe` are parameters (`SummaryConfig`), and so are the helpers that are not part of this model: `isBot`, `prType` and `ParseURL`. `ignorePathRe` is never used by the modelled code.
- `topItems`, `mapToItems` and the chart records are not part of this model. The leaderboard stops at the per-user tally.
- Go map iteration order in `PullSummary`: the entries are a sequence in whatever order the map yields them. Which entry "wins" a duplicate URL therefore depends on that order, and only URL uniqueness is proved.
- Lower-casing covers ASCII letters only. Go's `strings.ToLower` is Unicode-aware.
- Strings are character sequences, so the 240-byte cut of a description is a 240-character cut.
- A nil detail pointer (a nil `*github.PullRequest` or `*github.Issue` stored in the cache) is modelled as the all-zero record. The source's nil-safe getters make the two indistinguishable to every filter condition.
- GhCache.Commit: a `Set` that returns an error is assumed to have stored nothing. The source only returns that error, and the state of the `persist.Cacher` backend after a failed `Set` is not specified there.
- The `(value, error)` pair a cache helper returns after a failed write is modelled as an error (`GhCache.ToResult`). Its callers only check the error.
- cmd/server.go is HTTP routing and flag handling and is not part of this model.
- Pulls.CacheFetch: the API call made on a miss is a function of the pull request number alone, so two lookups of the same number in one run see the same reply.
