/** Listing and filtering merged pull requests (pkg/repo/pr.go). */
module Pulls {
  import opened Base
  import opened GitHub
  import opened Paging
  import opened Sift
  import GhCache

  const PullsEndpoint := "PullRequests.List"

  /** How one reply of the pull request listing is judged. */
  lemma PullStep(desc: string, reply: Reply<seq<PullRequest>>)
    ensures var s := Judge(PullList, desc, reply);
            && (s.Advance? <==>
                  reply.Reply? && reply.payload.Data? && |reply.payload.v| > 0 &&
                  reply.meta.Meta? && reply.meta.nextPage != 0)
            && (s.Advance? ==> s.next == Page(reply.meta.nextPage))
            && (s.Finish? <==>
                  reply.Reply? && reply.payload.Data? &&
                  (|reply.payload.v| == 0 || (reply.meta.Meta? && reply.meta.nextPage == 0)))
            && (s.Reject? <==> reply.CallFailed? || !reply.payload.Data?)
  {
  }

  lemma PullSteps(calls: seq<Position>, replies: seq<Reply<seq<PullRequest>>>)
    ensures forall k :: 0 <= k < |calls| && k < |replies| ==>
              StepAt(Stepper(PullList, PullsEndpoint), calls, replies, k) ==
              Judge(PullList, Describe(PullsEndpoint, calls[k]), replies[k])
    ensures forall k :: 0 <= k < |calls| && k < |replies| ==>
              var s := StepAt(Stepper(PullList, PullsEndpoint), calls, replies, k);
              var reply := replies[k];
              && (s.Advance? <==>
                    reply.Reply? && reply.payload.Data? && |reply.payload.v| > 0 &&
                    reply.meta.Meta? && reply.meta.nextPage != 0)
              && (s.Advance? ==> s.next == Page(reply.meta.nextPage))
              && (s.Finish? <==>
                    reply.Reply? && reply.payload.Data? &&
                    (|reply.payload.v| == 0 || (reply.meta.Meta? && reply.meta.nextPage == 0)))
              && (s.Reject? <==> reply.CallFailed? || !reply.payload.Data?)
  {
    StepperAt(PullList, PullsEndpoint, calls, replies);
    forall k | 0 <= k < |calls| && k < |replies| {
      PullStep(Describe(PullsEndpoint, calls[k]), replies[k]);
    }
  }

  /** `fetchAllPullRequestPages`: offset paging that stops at the first empty
      page or when no next page is advertised. */
  function FetchAllPullRequestPages(page: int, replies: seq<Reply<seq<PullRequest>>>): (run: Run<PullRequest>)
    ensures |run.calls| <= |replies|
    ensures |replies| > 0 ==> |run.calls| >= 1 && run.calls[0] == Page(FirstPage(page))
    ensures forall k :: 0 <= k < |run.calls| - 1 ==>
              && replies[k].Reply? && replies[k].payload.Data? && |replies[k].payload.v| > 0
              && replies[k].meta.Meta? && replies[k].meta.nextPage != 0
              && run.calls[k + 1] == Page(replies[k].meta.nextPage)
    ensures run.outcome.Complete? ==> run.outcome.items == Flatten(replies[..|run.calls|])
    ensures run.outcome.Complete? <==>
              |run.calls| >= 1 &&
              var last := replies[|run.calls| - 1];
              last.Reply? && last.payload.Data? &&
              (|last.payload.v| == 0 || (last.meta.Meta? && last.meta.nextPage == 0))
    ensures run.outcome.Failed? <==>
              |run.calls| >= 1 &&
              var last := replies[|run.calls| - 1];
              last.CallFailed? || !last.payload.Data?
    ensures run.outcome.Panicked? <==>
              |run.calls| >= 1 &&
              var last := replies[|run.calls| - 1];
              last.Reply? && last.payload.Data? && |last.payload.v| > 0 && last.meta.NilMeta?
  {
    var run := Drain(Stepper(PullList, PullsEndpoint), Page(FirstPage(page)), replies);
    PullSteps(run.calls, replies);
    run
  }

  /** The caller-supplied filter inputs of `MergedPulls`. `isBot` is the
      source's bot test on the author, `fetch(number, asOf)` is the outcome
      of the cached detail lookup (`Ok` exactly when its error is nil). */
  datatype PullFilter = PullFilter(
    since: Time,
    until: Time,
    users: seq<string>,
    branches: seq<string>,
    isBot: string -> bool,
    fetch: (int, Time) -> Result<Option<PullRequest>>)

  /** The as-of time handed to the cache: merged time, else closed time,
      else updated time. */
  function CacheTime(c: PullRequest): (t: Time)
    ensures t == c.mergedAt || t == c.closedAt || t == c.updatedAt
    ensures !IsZero(c.mergedAt) ==> t == c.mergedAt
    ensures IsZero(c.mergedAt) && !IsZero(c.closedAt) ==> t == c.closedAt
    ensures IsZero(c.mergedAt) && IsZero(c.closedAt) ==> t == c.updatedAt
  {
    if !IsZero(c.mergedAt) then c.mergedAt
    else if !IsZero(c.closedAt) then c.closedAt
    else c.updatedAt
  }

  /** One pass of the `MergedPulls` loop over a listed pull request, in the
      source's order of tests. */
  function PullVerdict(f: PullFilter, c: PullRequest): Verdict<PullRequest>
  {
    if Before(c.updatedAt, f.since) then Halt
    else if IsZero(c.closedAt) then Skip
    else if After(c.closedAt, f.until) then Skip
    else if Before(c.closedAt, f.since) then Skip
    else if AllowList(f.users) != {} && Lower(c.user) !in AllowList(f.users) then Skip
    else if f.isBot(c.user) then Skip
    else if c.state != "closed" then Skip
    else match f.fetch(c.number, CacheTime(c))
      case Err(_) => Skip
      case Ok(o) =>
        var full := PullOrZero(o);
        if AllowList(f.branches) != {} && full.baseRef !in AllowList(f.branches) then Skip
        else if !full.merged || full.mergeCommitSHA == "" then Skip
        else if IsZero(full.mergedAt) then Skip
        else if After(full.mergedAt, f.until) then Skip
        else if Before(full.mergedAt, f.since) then Skip
        else Keep(full)
  }

  function PullJudge(f: PullFilter): PullRequest -> Verdict<PullRequest>
  {
    c => PullVerdict(f, c)
  }

  /** What the list entry must satisfy: closed inside the window, state
      "closed", author allowed (by login, lower-cased) and not a bot. */
  predicate ListedOk(f: PullFilter, c: PullRequest)
  {
    && !IsZero(c.closedAt) && f.since <= c.closedAt <= f.until
    && c.state == "closed"
    && (|f.users| == 0 || Lower(c.user) in AllowList(f.users))
    && !f.isBot(c.user)
  }

  /** What the fetched detail must satisfy: base branch allowed (compared
      as it is, against lower-cased keys), merged with a merge commit, and
      merged inside the window. */
  predicate DetailOk(f: PullFilter, full: PullRequest)
  {
    && (|f.branches| == 0 || full.baseRef in AllowList(f.branches))
    && full.merged && full.mergeCommitSHA != ""
    && !IsZero(full.mergedAt) && f.since <= full.mergedAt <= f.until
  }

  /** The loop's if-chain agrees with the declarative conditions: it stops
      exactly at a pull request updated before `since`, and keeps exactly
      the ones whose list entry, detail lookup and detail all pass. */
  lemma PullVerdictSpec(f: PullFilter, c: PullRequest)
    ensures PullVerdict(f, c).Halt? <==> c.updatedAt < f.since
    ensures PullVerdict(f, c).Keep? <==>
              && f.since <= c.updatedAt
              && ListedOk(f, c)
              && f.fetch(c.number, CacheTime(c)).Ok?
              && DetailOk(f, PullOrZero(f.fetch(c.number, CacheTime(c)).value))
    ensures PullVerdict(f, c).Keep? ==>
              PullVerdict(f, c).value == PullOrZero(f.fetch(c.number, CacheTime(c)).value)
  {
    AllowListEmpty(f.users);
    AllowListEmpty(f.branches);
  }

  function ListFailure(org: string, project: string, msg: string): string
  {
    "failed to fetch pull request list for " + org + "/" + project + ": " + msg
  }

  /** `MergedPulls`: list closed pull requests (sorted by update time,
      newest first) from page 1, then filter them in order. A listing
      failure is the caller's failure and yields no pull requests. */
  function MergedPulls(org: string, project: string, f: PullFilter, replies: seq<Reply<seq<PullRequest>>>): (out: Listing<PullRequest>)
    ensures var listed := FetchAllPullRequestPages(0, replies).outcome;
            && (out.Complete? <==> listed.Complete?)
            && (out.Failed? <==> listed.Failed?)
            && (out.Panicked? <==> listed.Panicked?)
            && (out.Failed? ==> IsPrefix("failed to fetch pull request list for " + org + "/" + project, out.msg))
            && (out.Complete? ==> |out.items| <= |listed.items|)
  {
    var run := FetchAllPullRequestPages(0, replies);
    match run.outcome
    case Complete(cands) => Complete(Scan(PullJudge(f), cands))
    case Failed(m) => Failed(ListFailure(org, project, m))
    case Panicked => Panicked
    case Unfinished => Unfinished
  }

  /** Every returned pull request is the detail of a listed one that passed
      every test, the listed ones taken in server order (an order-preserving
      subsequence), none at or after the first one updated before `since`. */
  lemma MergedPullsSound(org: string, project: string, f: PullFilter, replies: seq<Reply<seq<PullRequest>>>)
    ensures var listed := FetchAllPullRequestPages(0, replies).outcome;
            var out := MergedPulls(org, project, f, replies);
            out.Complete? ==>
              var idx := Picks(PullJudge(f), listed.items);
              && |out.items| == |idx|
              && (forall j, k :: 0 <= j < k < |idx| ==> idx[j] < idx[k])
              && forall j :: 0 <= j < |idx| ==>
                   && idx[j] < |listed.items|
                   && (forall i :: 0 <= i <= idx[j] ==> f.since <= listed.items[i].updatedAt)
                   && ListedOk(f, listed.items[idx[j]])
                   && f.fetch(listed.items[idx[j]].number, CacheTime(listed.items[idx[j]])).Ok?
                   && out.items[j] == PullOrZero(f.fetch(listed.items[idx[j]].number, CacheTime(listed.items[idx[j]])).value)
                   && DetailOk(f, out.items[j])
  {
    var listed := FetchAllPullRequestPages(0, replies).outcome;
    if listed.Complete? {
      var cands := listed.items;
      var judge := PullJudge(f);
      var idx := Picks(judge, cands);
      var out := Scan(judge, cands);
      forall j | 0 <= j < |idx|
        ensures && (forall i :: 0 <= i <= idx[j] ==> f.since <= cands[i].updatedAt)
                && ListedOk(f, cands[idx[j]])
                && f.fetch(cands[idx[j]].number, CacheTime(cands[idx[j]])).Ok?
                && out[j] == PullOrZero(f.fetch(cands[idx[j]].number, CacheTime(cands[idx[j]])).value)
                && DetailOk(f, out[j])
      {
        forall i | 0 <= i <= idx[j]
          ensures f.since <= cands[i].updatedAt
        {
          PullVerdictSpec(f, cands[i]);
        }
        PullVerdictSpec(f, cands[idx[j]]);
      }
    }
  }

  /** Conversely, a listed pull request that passes every test, with no pull
      request updated before `since` ahead of it, is returned. */
  lemma MergedPullsComplete(org: string, project: string, f: PullFilter, replies: seq<Reply<seq<PullRequest>>>, i: nat)
    requires FetchAllPullRequestPages(0, replies).outcome.Complete?
    requires i < |FetchAllPullRequestPages(0, replies).outcome.items|
    requires var cands := FetchAllPullRequestPages(0, replies).outcome.items;
             && (forall k :: 0 <= k <= i ==> f.since <= cands[k].updatedAt)
             && ListedOk(f, cands[i])
             && f.fetch(cands[i].number, CacheTime(cands[i])).Ok?
             && DetailOk(f, PullOrZero(f.fetch(cands[i].number, CacheTime(cands[i])).value))
    ensures var cands := FetchAllPullRequestPages(0, replies).outcome.items;
            var out := MergedPulls(org, project, f, replies);
            && out.Complete?
            && i in Picks(PullJudge(f), cands)
            && PullOrZero(f.fetch(cands[i].number, CacheTime(cands[i])).value) in out.items
  {
    var cands := FetchAllPullRequestPages(0, replies).outcome.items;
    var judge := PullJudge(f);
    forall k | 0 <= k <= i
      ensures !judge(cands[k]).Halt?
    {
      PullVerdictSpec(f, cands[k]);
    }
    assert i < HaltAt(judge, cands);
    PullVerdictSpec(f, cands[i]);
    var idx := Picks(judge, cands);
    var j :| 0 <= j < |idx| && idx[j] == i;
    assert Scan(judge, cands)[j] == PullOrZero(f.fetch(cands[i].number, CacheTime(cands[i])).value);
  }

  /** The early exit: nothing at or after a pull request updated before
      `since` is returned. */
  lemma MergedPullsEarlyExit(org: string, project: string, f: PullFilter, replies: seq<Reply<seq<PullRequest>>>, h: nat)
    requires FetchAllPullRequestPages(0, replies).outcome.Complete?
    requires h < |FetchAllPullRequestPages(0, replies).outcome.items|
    requires FetchAllPullRequestPages(0, replies).outcome.items[h].updatedAt < f.since
    ensures var idx := Picks(PullJudge(f), FetchAllPullRequestPages(0, replies).outcome.items);
            forall j :: 0 <= j < |idx| ==> idx[j] < h
  {
    var cands := FetchAllPullRequestPages(0, replies).outcome.items;
    PullVerdictSpec(f, cands[h]);
    ScanStopsAtHalt(PullJudge(f), cands, h);
  }

  /** A failed detail lookup (including a failed cache write) drops the
      pull request instead of failing the whole listing. */
  lemma DetailFailureSkips(f: PullFilter, c: PullRequest)
    requires f.fetch(c.number, CacheTime(c)).Err?
    ensures !PullVerdict(f, c).Keep? && !PullVerdict(f, c).Halt? <==> f.since <= c.updatedAt
  {
    PullVerdictSpec(f, c);
  }

  /** The base ref is compared without lower-casing against lower-cased
      keys, so under a branch filter a branch name with an upper-case
      letter never matches. */
  lemma UpperCaseBranchNeverKept(f: PullFilter, c: PullRequest)
    requires |f.branches| > 0
    requires f.fetch(c.number, CacheTime(c)).Ok?
    requires HasUpper(PullOrZero(f.fetch(c.number, CacheTime(c)).value).baseRef)
    ensures !PullVerdict(f, c).Keep?
  {
    var full := PullOrZero(f.fetch(c.number, CacheTime(c)).value);
    if full.baseRef in AllowList(f.branches) {
      AllowListIsLowerCase(f.branches, full.baseRef);
    }
    PullVerdictSpec(f, c);
  }

  /** The detail lookup `MergedPulls` makes: `PullRequestsGet` against the
      cache, the reply for a pull request number standing for the API call,
      seen as a `(value, error)` pair. It succeeds exactly on a cached pull
      request, or on a typed reply whose cache write succeeded, and then
      returns that pull request. */
  function CacheFetch(cache: GhCache.Cache, org: string, project: string,
                      replyFor: int -> Reply<Option<PullRequest>>, setErr: Option<string>)
    : (fetch: (int, Time) -> Result<Option<PullRequest>>)
    ensures forall num: int, t: Time ::
              var key := GhCache.Key(GhCache.PullKind, org, project, num);
              && (fetch(num, t).Ok? <==>
                    key in cache || (replyFor(num).Reply? && replyFor(num).payload.Data? && setErr.None?))
              && (fetch(num, t).Ok? && key in cache ==> fetch(num, t).value == cache[key].pull)
              && (fetch(num, t).Ok? && key !in cache ==> fetch(num, t).value == replyFor(num).payload.v)
  {
    var fetch := (num: int, t: Time) => GhCache.ToResult(GhCache.PullRequestsGet(cache, org, project, num, replyFor(num), setErr));
    assert forall num: int, t: Time ::
             fetch(num, t) == GhCache.ToResult(GhCache.PullRequestsGet(cache, org, project, num, replyFor(num), setErr));
    fetch
  }

  /** A pull request that would pass every test is still dropped when its
      detail was fetched but the cache write failed. */
  lemma WriteFailureSkips(since: Time, until: Time, users: seq<string>, branches: seq<string>, isBot: string -> bool,
                          cache: GhCache.Cache, org: string, project: string,
                          replyFor: int -> Reply<Option<PullRequest>>, writeErr: string, c: PullRequest)
    requires GhCache.Key(GhCache.PullKind, org, project, c.number) !in cache
    requires replyFor(c.number).Reply? && replyFor(c.number).payload.Data?
    ensures var f := PullFilter(since, until, users, branches, isBot, CacheFetch(cache, org, project, replyFor, Some(writeErr)));
            !PullVerdict(f, c).Keep?
  {
    var f := PullFilter(since, until, users, branches, isBot, CacheFetch(cache, org, project, replyFor, Some(writeErr)));
    var l := GhCache.PullRequestsGet(cache, org, project, c.number, replyFor(c.number), Some(writeErr));
    assert l.Fetched?;
    assert f.fetch(c.number, CacheTime(c)).Err?;
    PullVerdictSpec(f, c);
  }
}
