/** The cache-or-fetch helpers (pkg/ghcache/ghcache.go). The persistence
    backend is a map from key to the blob `Get` returns at the requested
    time (absent = nil); a helper's write is returned as a value and
    applied by `Commit`. The API call a miss makes is given as its reply
    (a sequence of replies for the paged helpers), and the error `Set`
    reports is a parameter. */
module GhCache {
  import opened Base
  import opened GitHub
  import opened Retry
  import opened Paging

  /** The persisted record. Every helper writes a blob with only its own
      field set. */
  datatype Blob = Blob(
    pull: Option<PullRequest>,
    files: seq<CommitFile>,
    pullComments: seq<PullComment>,
    issue: Option<Issue>,
    issueComments: seq<IssueComment>,
    reviews: seq<Review>)

  const EmptyBlob := Blob(None, [], [], None, [], [])

  type Cache = map<string, Blob>

  /** What a helper did: answered from the cache; fetched a value, asked for
      `written` to be stored and returned the store's error alongside;
      failed without storing anything; dereferenced a nil response; or ran
      past the modelled replies. `calls` counts API calls. */
  datatype Lookup<+V> =
    | Hit(value: V)
    | Fetched(value: V, written: Blob, writeErr: Option<string>, calls: nat)
    | Error(msg: string, calls: nat)
    | Crashed
    | OutOfReplies

  /** The `(value, error)` pair a caller sees: a failed write surfaces as
      an error even though the value was fetched. */
  function ToResult<V>(l: Lookup<V>): (r: Result<V>)
    requires l.Hit? || l.Fetched? || l.Error?
    ensures r.Ok? <==> l.Hit? || (l.Fetched? && l.writeErr.None?)
    ensures r.Ok? ==> r.value == l.value
    ensures l.Error? ==> r == Err(l.msg)
    ensures l.Fetched? && l.writeErr.Some? ==> r == Err(l.writeErr.value)
  {
    match l
    case Hit(v) => Ok(v)
    case Fetched(v, _, e, _) => if e.Some? then Err(e.value) else Ok(v)
    case Error(m, _) => Err(m)
  }

  /** The cache after a helper ran: its blob is stored when the write
      succeeded. */
  function Commit<V>(cache: Cache, key: string, l: Lookup<V>): (c: Cache)
    ensures forall k :: k in cache && k != key ==> k in c && c[k] == cache[k]
    ensures forall k :: k in c && k != key ==> k in cache
    ensures l.Fetched? && l.writeErr.None? ==> key in c && c[key] == l.written
    ensures !(l.Fetched? && l.writeErr.None?) ==> c == cache
  {
    if l.Fetched? && l.writeErr.None? then cache[key := l.written] else cache
  }

  // ---------------------------------------------------------------- keys

  const PullKind := "pr"
  const FilesKind := "pr-listfiles"
  const PullCommentsKind := "pr-comments"
  const IssueKind := "issue"
  const IssueCommentsKind := "issue-comments"
  const ReviewsKind := "review"

  /** `<kind>-<org>-<project>-<num>`: the prefix, the suffix and the length
      together leave nothing else between them. */
  function Key(kind: string, org: string, project: string, num: int): (key: string)
    ensures IsPrefix(kind + "-" + org + "-", key)
    ensures HasSuffix(key, "-" + project + "-" + IntToString(num))
    ensures |key| == |kind| + |org| + |project| + |IntToString(num)| + 3
  {
    kind + "-" + org + "-" + project + "-" + IntToString(num)
  }

  /** Keys are not injective: the separator may occur in an organization
      name, so a pull request key can coincide with a file-list key. */
  lemma KeyCollision()
    ensures Key(PullKind, "listfiles-o", "p", 1) == Key(FilesKind, "o", "p", 1)
  {
    var n := IntToString(1);
    calc {
      Key(PullKind, "listfiles-o", "p", 1);
      "pr" + "-" + "listfiles-o" + "-" + "p" + "-" + n;
      { assert "pr" + "-" + "listfiles-o" == "pr-listfiles" + "-" + "o"; }
      "pr-listfiles" + "-" + "o" + "-" + "p" + "-" + n;
      Key(FilesKind, "o", "p", 1);
    }
  }

  function Target(org: string, project: string, num: int): string
  {
    org + "/" + project + "#" + IntToString(num)
  }

  // --------------------------------------------------- single-object helpers

  /** A helper that fetches one object: a hit answers from the blob with no
      call; a miss makes one call, and either stores exactly the fetched
      value or fails without storing. */
  function CacheOrGet<V>(cache: Cache, key: string, field: Blob -> V, wrap: V -> Blob,
                         desc: string, reply: Reply<V>, setErr: Option<string>): (l: Lookup<V>)
    ensures l.Hit? <==> key in cache
    ensures l.Hit? ==> l.value == field(cache[key])
    ensures l.Fetched? <==> key !in cache && reply.Reply? && reply.payload.Data?
    ensures l.Fetched? ==>
              l.value == reply.payload.v && l.written == wrap(l.value) &&
              l.writeErr == setErr && l.calls == 1
    ensures l.Error? <==> key !in cache && (reply.CallFailed? || !reply.payload.Data?)
    ensures l.Error? ==> l.calls == 1
    ensures l.Error? && reply.CallFailed? ==>
              IsPrefix(desc + AfterRetries, l.msg) && HasSuffix(l.msg, reply.cause)
  {
    if key in cache then Hit(field(cache[key]))
    else
      var r := RetryGithubCall(desc, reply);
      if r.CallFailed? then Error(r.cause, 1)
      else if !r.payload.Data? then Error(MistypedMsg(desc), 1)
      else Fetched(r.payload.v, wrap(r.payload.v), setErr, 1)
  }

  /** `PullRequestsGet`. */
  function PullRequestsGet(cache: Cache, org: string, project: string, num: int,
                           reply: Reply<Option<PullRequest>>, setErr: Option<string>): (l: Lookup<Option<PullRequest>>)
    ensures l.Hit? || l.Fetched? || l.Error?
    ensures var key := Key(PullKind, org, project, num);
            && (l.Hit? <==> key in cache)
            && (l.Hit? ==> l.value == cache[key].pull)
            && (l.Fetched? <==> key !in cache && reply.Reply? && reply.payload.Data?)
            && (l.Fetched? ==> reply.payload.v == l.value && l.written == EmptyBlob.(pull := l.value) && l.writeErr == setErr)
            && (l.Error? <==> key !in cache && (reply.CallFailed? || !reply.payload.Data?))
    ensures l.Fetched? || l.Error? ==> l.calls == 1
    ensures l.Error? && reply.CallFailed? ==>
              IsPrefix("PullRequests.Get " + Target(org, project, num) + AfterRetries, l.msg) &&
              HasSuffix(l.msg, reply.cause)
  {
    CacheOrGet(cache, Key(PullKind, org, project, num), (b: Blob) => b.pull,
               (v: Option<PullRequest>) => EmptyBlob.(pull := v),
               "PullRequests.Get " + Target(org, project, num), reply, setErr)
  }

  /** `IssuesGet`. */
  function IssuesGet(cache: Cache, org: string, project: string, num: int,
                     reply: Reply<Option<Issue>>, setErr: Option<string>): (l: Lookup<Option<Issue>>)
    ensures l.Hit? || l.Fetched? || l.Error?
    ensures var key := Key(IssueKind, org, project, num);
            && (l.Hit? <==> key in cache)
            && (l.Hit? ==> l.value == cache[key].issue)
            && (l.Fetched? <==> key !in cache && reply.Reply? && reply.payload.Data?)
            && (l.Fetched? ==> reply.payload.v == l.value && l.written == EmptyBlob.(issue := l.value) && l.writeErr == setErr)
            && (l.Error? <==> key !in cache && (reply.CallFailed? || !reply.payload.Data?))
    ensures l.Fetched? || l.Error? ==> l.calls == 1
    ensures l.Error? && reply.CallFailed? ==>
              IsPrefix("Issues.Get " + Target(org, project, num) + AfterRetries, l.msg) &&
              HasSuffix(l.msg, reply.cause)
  {
    CacheOrGet(cache, Key(IssueKind, org, project, num), (b: Blob) => b.issue,
               (v: Option<Issue>) => EmptyBlob.(issue := v),
               "Issues.Get " + Target(org, project, num), reply, setErr)
  }

  // ------------------------------------------------------- paged helpers

  /** How one reply of a paged detail listing is judged. */
  lemma DetailStep<T>(desc: string, reply: Reply<seq<T>>)
    ensures var s := Judge(DetailList, desc, reply);
            && (s.Advance? <==> reply.Reply? && reply.payload.Data? && reply.meta.Meta? && reply.meta.nextPage != 0)
            && (s.Advance? ==> s.next == Page(reply.meta.nextPage))
            && (s.Finish? <==> reply.Reply? && reply.payload.Data? && reply.meta.Meta? && reply.meta.nextPage == 0)
            && (s.Crash? <==> reply.Reply? && reply.payload.Data? && reply.meta.NilMeta?)
  {
  }

  lemma DetailSteps<T>(endpoint: string, calls: seq<Position>, replies: seq<Reply<seq<T>>>)
    ensures forall k :: 0 <= k < |calls| && k < |replies| ==>
              var s := StepAt(Stepper(DetailList, endpoint), calls, replies, k);
              var reply := replies[k];
              && (s.Advance? <==> reply.Reply? && reply.payload.Data? && reply.meta.Meta? && reply.meta.nextPage != 0)
              && (s.Advance? ==> s.next == Page(reply.meta.nextPage))
              && (s.Finish? <==> reply.Reply? && reply.payload.Data? && reply.meta.Meta? && reply.meta.nextPage == 0)
              && (s.Crash? <==> reply.Reply? && reply.payload.Data? && reply.meta.NilMeta?)
  {
    StepperAt(DetailList, endpoint, calls, replies);
    forall k | 0 <= k < |calls| && k < |replies| {
      DetailStep(Describe(endpoint, calls[k]), replies[k]);
    }
  }

  /** The paged detail loop shared by the list helpers and
      `FetchPullRequestsListPagesWithRetries`: it starts at page 0, appends
      every page (an empty one too) and stops only when no next page is
      advertised. */
  function ListPages<T>(endpoint: string, replies: seq<Reply<seq<T>>>): (run: Run<T>)
    ensures |run.calls| <= |replies|
    ensures |replies| > 0 ==> |run.calls| >= 1 && run.calls[0] == Page(0)
    ensures forall k :: 0 <= k < |run.calls| - 1 ==>
              && replies[k].Reply? && replies[k].payload.Data?
              && replies[k].meta.Meta? && replies[k].meta.nextPage != 0
              && run.calls[k + 1] == Page(replies[k].meta.nextPage)
    ensures run.outcome.Complete? ==> run.outcome.items == Flatten(replies[..|run.calls|])
    ensures run.outcome.Complete? <==>
              |run.calls| >= 1 &&
              var last := replies[|run.calls| - 1];
              last.Reply? && last.payload.Data? && last.meta.Meta? && last.meta.nextPage == 0
    ensures run.outcome.Failed? <==>
              |run.calls| >= 1 &&
              var last := replies[|run.calls| - 1];
              last.CallFailed? || !last.payload.Data?
    ensures run.outcome.Panicked? <==>
              |run.calls| >= 1 &&
              var last := replies[|run.calls| - 1];
              last.Reply? && last.payload.Data? && last.meta.NilMeta?
  {
    var run := Drain(Stepper(DetailList, endpoint), Page(0), replies);
    DetailSteps(endpoint, run.calls, replies);
    run
  }

  /** An empty page with a next page advertised does not end the loop. */
  lemma EmptyPageContinues<T>(endpoint: string, replies: seq<Reply<seq<T>>>)
    requires |replies| >= 2
    requires replies[0].Reply? && replies[0].payload == Data([])
    requires replies[0].meta.Meta? && replies[0].meta.nextPage != 0
    ensures |ListPages(endpoint, replies).calls| >= 2
    ensures ListPages(endpoint, replies).calls[1] == Page(replies[0].meta.nextPage)
  {
    var run := ListPages(endpoint, replies);
    var step := Stepper(DetailList, endpoint);
    assert Judge(DetailList, Describe(endpoint, Page(0)), replies[0]).Advance?;
    assert run == Drain(step, Page(0), replies);
  }

  /** On a miss, the helper's answer mirrors the paged loop: fetched with
      the concatenated pages exactly when the listing completed, the loop's
      error when a page failed or had the wrong type, a crash when a nil
      response reached the loop, and one call counted per page. */
  ghost predicate Mirrors<T>(l: Lookup<seq<T>>, run: Run<T>)
  {
    && (l.Fetched? <==> run.outcome.Complete?)
    && (l.Fetched? ==> l.value == run.outcome.items && l.calls == |run.calls|)
    && (l.Error? <==> run.outcome.Failed?)
    && (l.Error? ==> l.msg == run.outcome.msg && l.calls == |run.calls|)
    && (l.Crashed? <==> run.outcome.Panicked?)
    && (l.OutOfReplies? <==> run.outcome.Unfinished?)
  }

  /** A paged helper: a hit answers from the blob with no call; a miss
      drains the listing and mirrors its outcome, storing exactly the
      concatenated pages, or nothing when a page failed. */
  function CacheOrList<T>(cache: Cache, key: string, field: Blob -> seq<T>, wrap: seq<T> -> Blob,
                          endpoint: string, replies: seq<Reply<seq<T>>>, setErr: Option<string>): (l: Lookup<seq<T>>)
    ensures l.Hit? <==> key in cache
    ensures l.Hit? ==> l.value == field(cache[key])
    ensures l.Fetched? ==> l.written == wrap(l.value) && l.writeErr == setErr
    ensures key !in cache ==> Mirrors(l, ListPages(endpoint, replies))
  {
    if key in cache then Hit(field(cache[key]))
    else
      var run := ListPages(endpoint, replies);
      match run.outcome
      case Complete(items) => Fetched(items, wrap(items), setErr, |run.calls|)
      case Failed(m) => Error(m, |run.calls|)
      case Panicked => Crashed
      case Unfinished => OutOfReplies
  }

  /** `PullRequestsListFiles`. */
  function PullRequestsListFiles(cache: Cache, org: string, project: string, num: int,
                                 replies: seq<Reply<seq<CommitFile>>>, setErr: Option<string>): (l: Lookup<seq<CommitFile>>)
    ensures var key := Key(FilesKind, org, project, num);
            && (l.Hit? <==> key in cache)
            && (l.Hit? ==> l.value == cache[key].files)
            && (l.Fetched? ==> l.written == EmptyBlob.(files := l.value) && l.writeErr == setErr)
            && (key !in cache ==> Mirrors(l, ListPages("PullRequests.ListFiles", replies)))
  {
    CacheOrList(cache, Key(FilesKind, org, project, num), (b: Blob) => b.files,
                (v: seq<CommitFile>) => EmptyBlob.(files := v), "PullRequests.ListFiles", replies, setErr)
  }

  /** `PullRequestsListComments`. */
  function PullRequestsListComments(cache: Cache, org: string, project: string, num: int,
                                    replies: seq<Reply<seq<PullComment>>>, setErr: Option<string>): (l: Lookup<seq<PullComment>>)
    ensures var key := Key(PullCommentsKind, org, project, num);
            && (l.Hit? <==> key in cache)
            && (l.Hit? ==> l.value == cache[key].pullComments)
            && (l.Fetched? ==> l.written == EmptyBlob.(pullComments := l.value) && l.writeErr == setErr)
            && (key !in cache ==> Mirrors(l, ListPages("PullRequests.ListComments", replies)))
  {
    CacheOrList(cache, Key(PullCommentsKind, org, project, num), (b: Blob) => b.pullComments,
                (v: seq<PullComment>) => EmptyBlob.(pullComments := v), "PullRequests.ListComments", replies, setErr)
  }

  /** `IssuesListComments`. */
  function IssuesListComments(cache: Cache, org: string, project: string, num: int,
                              replies: seq<Reply<seq<IssueComment>>>, setErr: Option<string>): (l: Lookup<seq<IssueComment>>)
    ensures var key := Key(IssueCommentsKind, org, project, num);
            && (l.Hit? <==> key in cache)
            && (l.Hit? ==> l.value == cache[key].issueComments)
            && (l.Fetched? ==> l.written == EmptyBlob.(issueComments := l.value) && l.writeErr == setErr)
            && (key !in cache ==> Mirrors(l, ListPages("Issues.ListComments", replies)))
  {
    CacheOrList(cache, Key(IssueCommentsKind, org, project, num), (b: Blob) => b.issueComments,
                (v: seq<IssueComment>) => EmptyBlob.(issueComments := v), "Issues.ListComments", replies, setErr)
  }

  /** `Reviews`. */
  function Reviews(cache: Cache, org: string, project: string, num: int,
                   replies: seq<Reply<seq<Review>>>, setErr: Option<string>): (l: Lookup<seq<Review>>)
    ensures var key := Key(ReviewsKind, org, project, num);
            && (l.Hit? <==> key in cache)
            && (l.Hit? ==> l.value == cache[key].reviews)
            && (l.Fetched? ==> l.written == EmptyBlob.(reviews := l.value) && l.writeErr == setErr)
            && (key !in cache ==> Mirrors(l, ListPages("PullRequests.ListReviews", replies)))
  {
    CacheOrList(cache, Key(ReviewsKind, org, project, num), (b: Blob) => b.reviews,
                (v: seq<Review>) => EmptyBlob.(reviews := v), "PullRequests.ListReviews", replies, setErr)
  }

  /** `FetchPullRequestsListPagesWithRetries`: no cache; page 0 first, every
      page appended, no stop on an empty page. */
  function FetchPullRequestsListPagesWithRetries(replies: seq<Reply<seq<PullRequest>>>): (out: Listing<PullRequest>)
    ensures out.Complete? <==> ListPages("PullRequests.List", replies).outcome.Complete?
    ensures out.Complete? ==>
              var run := ListPages("PullRequests.List", replies);
              out.items == Flatten(replies[..|run.calls|])
    ensures out.Failed? <==> ListPages("PullRequests.List", replies).outcome.Failed?
    ensures out.Failed? ==> out == ListPages("PullRequests.List", replies).outcome
    ensures out.Panicked? <==> ListPages("PullRequests.List", replies).outcome.Panicked?
  {
    ListPages("PullRequests.List", replies).outcome
  }

  // ----------------------------------------------------------- round trips

  /** A successful miss followed by its write makes the next lookup of the
      same pull request a hit returning the same value, with no call. */
  lemma PullRequestsGetRoundTrip(cache: Cache, org: string, project: string, num: int,
                                 reply: Reply<Option<PullRequest>>, later: Reply<Option<PullRequest>>,
                                 setErr: Option<string>)
    requires PullRequestsGet(cache, org, project, num, reply, None).Fetched?
    ensures var l := PullRequestsGet(cache, org, project, num, reply, None);
            var c := Commit(cache, Key(PullKind, org, project, num), l);
            PullRequestsGet(c, org, project, num, later, setErr) == Hit(l.value)
  {
  }

  /** The same for issues. */
  lemma IssuesGetRoundTrip(cache: Cache, org: string, project: string, num: int,
                           reply: Reply<Option<Issue>>, later: Reply<Option<Issue>>,
                           setErr: Option<string>)
    requires IssuesGet(cache, org, project, num, reply, None).Fetched?
    ensures var l := IssuesGet(cache, org, project, num, reply, None);
            var c := Commit(cache, Key(IssueKind, org, project, num), l);
            IssuesGet(c, org, project, num, later, setErr) == Hit(l.value)
  {
  }

  /** The same for a paged helper: the stored file list is the one fetched. */
  lemma ListFilesRoundTrip(cache: Cache, org: string, project: string, num: int,
                           replies: seq<Reply<seq<CommitFile>>>, later: seq<Reply<seq<CommitFile>>>,
                           setErr: Option<string>)
    requires PullRequestsListFiles(cache, org, project, num, replies, None).Fetched?
    ensures var l := PullRequestsListFiles(cache, org, project, num, replies, None);
            var c := Commit(cache, Key(FilesKind, org, project, num), l);
            PullRequestsListFiles(c, org, project, num, later, setErr) == Hit(l.value)
  {
  }

  /** A stored review-comment list is answered back on the next lookup. */
  lemma PullCommentsRoundTrip(cache: Cache, org: string, project: string, num: int,
                              replies: seq<Reply<seq<PullComment>>>, later: seq<Reply<seq<PullComment>>>,
                              setErr: Option<string>)
    requires PullRequestsListComments(cache, org, project, num, replies, None).Fetched?
    ensures var l := PullRequestsListComments(cache, org, project, num, replies, None);
            var c := Commit(cache, Key(PullCommentsKind, org, project, num), l);
            PullRequestsListComments(c, org, project, num, later, setErr) == Hit(l.value)
  {
  }

  /** On a miss whose listing completes, the issue-comment list is fetched,
      and once stored it is answered back on the next lookup. */
  lemma IssueCommentsRoundTrip(cache: Cache, org: string, project: string, num: int,
                               replies: seq<Reply<seq<IssueComment>>>, later: seq<Reply<seq<IssueComment>>>,
                               setErr: Option<string>)
    requires Key(IssueCommentsKind, org, project, num) !in cache
    requires ListPages("Issues.ListComments", replies).outcome.Complete?
    ensures var l := IssuesListComments(cache, org, project, num, replies, None);
            l.Fetched? &&
            var c := Commit(cache, Key(IssueCommentsKind, org, project, num), l);
            IssuesListComments(c, org, project, num, later, setErr) == Hit(l.value)
  {
  }

  /** A stored review list is answered back on the next lookup. */
  lemma ReviewsRoundTrip(cache: Cache, org: string, project: string, num: int,
                         replies: seq<Reply<seq<Review>>>, later: seq<Reply<seq<Review>>>,
                         setErr: Option<string>)
    requires Reviews(cache, org, project, num, replies, None).Fetched?
    ensures var l := Reviews(cache, org, project, num, replies, None);
            var c := Commit(cache, Key(ReviewsKind, org, project, num), l);
            Reviews(c, org, project, num, later, setErr) == Hit(l.value)
  {
  }

  /** Because keys collide, a pull request lookup can be answered by a
      blob a file-list helper wrote, whose pull request field is nil. */
  lemma CollidingHitIsNil(cache: Cache, files: seq<Reply<seq<CommitFile>>>, reply: Reply<Option<PullRequest>>,
                          setErr: Option<string>)
    requires PullRequestsListFiles(cache, "o", "p", 1, files, None).Fetched?
    ensures var l := PullRequestsListFiles(cache, "o", "p", 1, files, None);
            var c := Commit(cache, Key(FilesKind, "o", "p", 1), l);
            PullRequestsGet(c, "listfiles-o", "p", 1, reply, setErr) == Hit(None)
  {
    KeyCollision();
  }
}
