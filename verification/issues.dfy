/** Listing and filtering closed issues (pkg/repo/issue.go). */
module Issues {
  import opened Base
  import opened GitHub
  import opened Paging
  import opened Sift

  const IssuesEndpoint := "Issues.ListByRepo"
  const DefaultPerPage := 100

  /** `IssueListByRepoOptions`: the query, the embedded page-number
      options and the embedded cursor options. */
  datatype IssueListOptions = IssueListOptions(
    state: string,
    sort: string,
    direction: string,
    page: int,             // ListOptions.Page
    perPage: int,          // ListOptions.PerPage
    cursorPage: string,    // ListCursorOptions.Page
    cursorPerPage: int,    // ListCursorOptions.PerPage
    first: int,            // ListCursorOptions.First
    after: string)         // ListCursorOptions.After

  /** The option rewrite before the first call: page-number paging is
      switched off and the cursor page size becomes the one authority. */
  function ResolveOptions(o: IssueListOptions): (r: IssueListOptions)
    ensures r.page == 0 && r.perPage == 0 && r.cursorPage == "" && r.first == 0
    ensures o.cursorPerPage != 0 ==> r.cursorPerPage == o.cursorPerPage
    ensures o.cursorPerPage == 0 && o.perPage != 0 ==> r.cursorPerPage == o.perPage
    ensures o.cursorPerPage == 0 && o.perPage == 0 ==> r.cursorPerPage == DefaultPerPage
    ensures r.cursorPerPage != 0
    ensures r.state == o.state && r.sort == o.sort && r.direction == o.direction && r.after == o.after
  {
    var per :=
      if o.cursorPerPage != 0 then o.cursorPerPage
      else if o.perPage != 0 then o.perPage
      else DefaultPerPage;
    o.(page := 0, cursorPage := "", cursorPerPage := per, perPage := 0, first := 0)
  }

  /** Resolving twice changes nothing more. */
  lemma ResolveIdempotent(o: IssueListOptions)
    ensures ResolveOptions(ResolveOptions(o)) == ResolveOptions(o)
  {
  }

  /** The cursor half of a request as sent: the window size and the cursor. */
  datatype CursorRequest = CursorRequest(first: int, after: string)

  /** The first request asks for a window of `perPage`; every later one
      names only the cursor. */
  function RequestAt(perPage: int, pos: Position): CursorRequest
  {
    match pos
    case Cursor(t) => if t == "" then CursorRequest(perPage, "") else CursorRequest(0, t)
    case Page(_) => CursorRequest(perPage, "")
  }

  datatype IssuePaging = IssuePaging(outcome: Listing<Issue>, requests: seq<CursorRequest>)

  /** How one cursor-mode reply is judged. */
  lemma CursorStep(desc: string, reply: Reply<seq<Issue>>)
    ensures Judge(IssueCursor, desc, reply).Advance? <==>
              reply.Reply? && reply.payload.Data? && reply.meta.Meta? && reply.meta.after != ""
    ensures Judge(IssueCursor, desc, reply).Advance? ==>
              Judge(IssueCursor, desc, reply).next == Cursor(reply.meta.after)
    ensures Judge(IssueCursor, desc, reply).Finish? <==>
              reply.Reply? && !reply.payload.Mistyped? && (reply.meta.NilMeta? || reply.meta.after == "")
    ensures !Judge(IssueCursor, desc, reply).Crash?
  {
  }

  /** The cursor drain in the source's terms: every call but the last got
      a page and a non-empty cursor, which the next call follows. */
  lemma CursorDrain(replies: seq<Reply<seq<Issue>>>)
    ensures var run := Drain(Stepper(IssueCursor, IssuesEndpoint), Cursor(""), replies);
            && (|replies| > 0 ==> run.calls[0] == Cursor(""))
            && (forall k :: 0 <= k < |run.calls| - 1 ==>
                  && replies[k].Reply? && replies[k].payload.Data?
                  && replies[k].meta.Meta? && replies[k].meta.after != ""
                  && run.calls[k + 1] == Cursor(replies[k].meta.after))
            && (run.outcome.Complete? <==>
                  |run.calls| >= 1 &&
                  var last := replies[|run.calls| - 1];
                  last.Reply? && !last.payload.Mistyped? && (last.meta.NilMeta? || last.meta.after == ""))
            && (run.outcome.Failed? <==>
                  |run.calls| >= 1 &&
                  var last := replies[|run.calls| - 1];
                  || last.CallFailed?
                  || last.payload.Mistyped?
                  || (last.payload.NilData? && last.meta.Meta? && last.meta.after != ""))
            && !run.outcome.Panicked?
  {
    var step := Stepper(IssueCursor, IssuesEndpoint);
    var run := Drain(step, Cursor(""), replies);
    StepperAt(IssueCursor, IssuesEndpoint, run.calls, replies);
    forall k | 0 <= k < |run.calls| {
      CursorStep(Describe(IssuesEndpoint, run.calls[k]), replies[k]);
    }
  }

  /** `fetchAllIssuePages`: cursor paging. An empty page does not end it;
      only a nil response or an empty `after` cursor does. Every request
      sets exactly one of the window size and the cursor. */
  function FetchAllIssuePages(opts: IssueListOptions, replies: seq<Reply<seq<Issue>>>): (p: IssuePaging)
    ensures |p.requests| <= |replies|
    ensures |replies| > 0 ==>
              |p.requests| >= 1 && p.requests[0] == CursorRequest(ResolveOptions(opts).cursorPerPage, "")
    ensures forall k :: 0 <= k < |p.requests| ==> (p.requests[k].first != 0) != (p.requests[k].after != "")
    ensures forall k :: 0 <= k < |p.requests| - 1 ==>
              && replies[k].Reply? && replies[k].payload.Data?
              && replies[k].meta.Meta? && replies[k].meta.after != ""
              && p.requests[k + 1] == CursorRequest(0, replies[k].meta.after)
    ensures p.outcome.Complete? ==> p.outcome.items == Flatten(replies[..|p.requests|])
    ensures p.outcome.Complete? <==>
              |p.requests| >= 1 &&
              var last := replies[|p.requests| - 1];
              last.Reply? && !last.payload.Mistyped? && (last.meta.NilMeta? || last.meta.after == "")
    ensures p.outcome.Failed? <==>
              |p.requests| >= 1 &&
              var last := replies[|p.requests| - 1];
              || last.CallFailed?
              || last.payload.Mistyped?
              || (last.payload.NilData? && last.meta.Meta? && last.meta.after != "")
    ensures !p.outcome.Panicked?
  {
    var per := ResolveOptions(opts).cursorPerPage;
    var run := Drain(Stepper(IssueCursor, IssuesEndpoint), Cursor(""), replies);
    CursorDrain(replies);
    assert |replies| > 0 ==> run.calls[0] == Cursor("");
    IssuePaging(run.outcome, seq(|run.calls|, k requires 0 <= k < |run.calls| => RequestAt(per, run.calls[k])))
  }

  /** The caller-supplied filter inputs of `issues`; `fetch(number, asOf)`
      is the outcome of the cached detail lookup. */
  datatype IssueFilter = IssueFilter(
    since: Time,
    until: Time,
    users: seq<string>,
    state: string,
    fetch: (int, Time) -> Result<Option<Issue>>)

  /** `issueDate`: closed time, else updated time, else created time. */
  function IssueDate(i: Issue): (t: Time)
    ensures t == i.closedAt || t == i.updatedAt || t == i.createdAt
    ensures !IsZero(i.closedAt) ==> t == i.closedAt
    ensures IsZero(i.closedAt) && !IsZero(i.updatedAt) ==> t == i.updatedAt
    ensures IsZero(t) <==> IsZero(i.closedAt) && IsZero(i.updatedAt) && IsZero(i.createdAt)
  {
    var t := i.closedAt;
    var t := if IsZero(t) then i.updatedAt else t;
    if IsZero(t) then i.createdAt else t
  }

  /** One pass of the `issues` loop over a listed issue, in the source's
      order of tests: pull requests are passed over before the early exit. */
  function IssueVerdict(f: IssueFilter, c: Issue): Verdict<Issue>
  {
    var allow := AllowList(f.users);
    if c.isPullRequest then Skip
    else if Before(c.updatedAt, f.since) then Halt
    else if f.state == "closed" && IsZero(c.closedAt) then Skip
    else if f.state == "closed" && After(c.closedAt, f.until) then Skip
    else if f.state == "closed" && Before(c.closedAt, f.since) then Skip
    else if f.state != "" && c.state != f.state then Skip
    else match f.fetch(c.number, IssueDate(c))
      case Err(_) => Skip
      case Ok(o) =>
        var full := IssueOrZero(o);
        var matches :=
          if allow == {} then true
          else
            var byCreator := Lower(full.user) in allow;
            var byCloser := full.closedBy.Some? && full.closedBy.value != "" && Lower(full.closedBy.value) in allow;
            byCreator || byCloser;
        if !matches then Skip else Keep(full)
  }

  function IssueJudge(f: IssueFilter): Issue -> Verdict<Issue>
  {
    c => IssueVerdict(f, c)
  }

  /** What the list entry must satisfy: not a pull request, closed inside
      the window when closed issues are asked for, and in the asked state. */
  predicate IssueListedOk(f: IssueFilter, c: Issue)
  {
    && !c.isPullRequest
    && (f.state == "closed" ==> !IsZero(c.closedAt) && f.since <= c.closedAt <= f.until)
    && (f.state != "" ==> c.state == f.state)
  }

  /** The user test on the fetched issue: no list, or the creator, or a
      non-empty closer login, lower-cased, is on it. */
  predicate UserAllowed(f: IssueFilter, full: Issue)
  {
    || |f.users| == 0
    || Lower(full.user) in AllowList(f.users)
    || (full.closedBy.Some? && full.closedBy.value != "" && Lower(full.closedBy.value) in AllowList(f.users))
  }

  /** The loop's if-chain agrees with the declarative conditions. */
  lemma IssueVerdictSpec(f: IssueFilter, c: Issue)
    ensures IssueVerdict(f, c).Halt? <==> !c.isPullRequest && c.updatedAt < f.since
    ensures IssueVerdict(f, c).Keep? <==>
              && f.since <= c.updatedAt
              && IssueListedOk(f, c)
              && f.fetch(c.number, IssueDate(c)).Ok?
              && UserAllowed(f, IssueOrZero(f.fetch(c.number, IssueDate(c)).value))
    ensures IssueVerdict(f, c).Keep? ==>
              IssueVerdict(f, c).value == IssueOrZero(f.fetch(c.number, IssueDate(c)).value)
  {
    AllowListEmpty(f.users);
  }

  /** The options `issues` asks with: the given state, most recently
      updated first, 50 per page. */
  function IssueQuery(state: string): IssueListOptions
  {
    IssueListOptions(state, "updated", "desc", 0, 50, "", 0, 0, "")
  }

  /** `issues`: list the repository's issues in the given state, then filter
      them in order. A listing failure yields no issues. */
  function ListIssues(org: string, project: string, f: IssueFilter, replies: seq<Reply<seq<Issue>>>): (out: Listing<Issue>)
    ensures var listed := FetchAllIssuePages(IssueQuery(f.state), replies).outcome;
            && (out.Complete? <==> listed.Complete?)
            && (out.Failed? <==> listed.Failed?)
            && !out.Panicked?
            && (out.Failed? ==> IsPrefix("failed to fetch issue list for " + org + "/" + project, out.msg))
            && (out.Complete? ==> |out.items| <= |listed.items|)
  {
    match FetchAllIssuePages(IssueQuery(f.state), replies).outcome
    case Complete(cands) => Complete(Scan(IssueJudge(f), cands))
    case Failed(m) => Failed("failed to fetch issue list for " + org + "/" + project + ": " + m)
    case Panicked => Panicked
    case Unfinished => Unfinished
  }

  /** The query asks for 50 issues in its first window. */
  lemma IssueQueryWindow(state: string, replies: seq<Reply<seq<Issue>>>)
    requires |replies| > 0
    ensures FetchAllIssuePages(IssueQuery(state), replies).requests[0] == CursorRequest(50, "")
  {
  }

  /** Every returned issue is the detail of a listed issue that passed every
      test, taken in server order; no issue ahead of it that is not a pull
      request was updated before `since`. */
  lemma ListIssuesSound(org: string, project: string, f: IssueFilter, replies: seq<Reply<seq<Issue>>>)
    ensures var listed := FetchAllIssuePages(IssueQuery(f.state), replies).outcome;
            var out := ListIssues(org, project, f, replies);
            out.Complete? ==>
              var idx := Picks(IssueJudge(f), listed.items);
              && |out.items| == |idx|
              && (forall j, k :: 0 <= j < k < |idx| ==> idx[j] < idx[k])
              && forall j :: 0 <= j < |idx| ==>
                   && idx[j] < |listed.items|
                   && (forall i :: 0 <= i <= idx[j] && !listed.items[i].isPullRequest ==>
                         f.since <= listed.items[i].updatedAt)
                   && IssueListedOk(f, listed.items[idx[j]])
                   && f.fetch(listed.items[idx[j]].number, IssueDate(listed.items[idx[j]])).Ok?
                   && out.items[j] == IssueOrZero(f.fetch(listed.items[idx[j]].number, IssueDate(listed.items[idx[j]])).value)
                   && UserAllowed(f, out.items[j])
  {
    var listed := FetchAllIssuePages(IssueQuery(f.state), replies).outcome;
    if listed.Complete? {
      var cands := listed.items;
      var judge := IssueJudge(f);
      var idx := Picks(judge, cands);
      var out := Scan(judge, cands);
      forall j | 0 <= j < |idx|
        ensures && (forall i :: 0 <= i <= idx[j] && !cands[i].isPullRequest ==> f.since <= cands[i].updatedAt)
                && IssueListedOk(f, cands[idx[j]])
                && f.fetch(cands[idx[j]].number, IssueDate(cands[idx[j]])).Ok?
                && out[j] == IssueOrZero(f.fetch(cands[idx[j]].number, IssueDate(cands[idx[j]])).value)
                && UserAllowed(f, out[j])
      {
        forall i | 0 <= i <= idx[j] && !cands[i].isPullRequest
          ensures f.since <= cands[i].updatedAt
        {
          IssueVerdictSpec(f, cands[i]);
        }
        IssueVerdictSpec(f, cands[idx[j]]);
      }
    }
  }

  /** Conversely, a listed issue that passes every test, with no non-pull
      request updated before `since` ahead of it, is returned. */
  lemma ListIssuesComplete(org: string, project: string, f: IssueFilter, replies: seq<Reply<seq<Issue>>>, i: nat)
    requires FetchAllIssuePages(IssueQuery(f.state), replies).outcome.Complete?
    requires i < |FetchAllIssuePages(IssueQuery(f.state), replies).outcome.items|
    requires var cands := FetchAllIssuePages(IssueQuery(f.state), replies).outcome.items;
             && (forall k :: 0 <= k <= i && !cands[k].isPullRequest ==> f.since <= cands[k].updatedAt)
             && IssueListedOk(f, cands[i])
             && f.fetch(cands[i].number, IssueDate(cands[i])).Ok?
             && UserAllowed(f, IssueOrZero(f.fetch(cands[i].number, IssueDate(cands[i])).value))
    ensures var cands := FetchAllIssuePages(IssueQuery(f.state), replies).outcome.items;
            var out := ListIssues(org, project, f, replies);
            && out.Complete?
            && i in Picks(IssueJudge(f), cands)
            && IssueOrZero(f.fetch(cands[i].number, IssueDate(cands[i])).value) in out.items
  {
    var cands := FetchAllIssuePages(IssueQuery(f.state), replies).outcome.items;
    var judge := IssueJudge(f);
    forall k | 0 <= k <= i
      ensures !judge(cands[k]).Halt?
    {
      IssueVerdictSpec(f, cands[k]);
    }
    assert i < HaltAt(judge, cands);
    IssueVerdictSpec(f, cands[i]);
    var idx := Picks(judge, cands);
    var j :| 0 <= j < |idx| && idx[j] == i;
    assert Scan(judge, cands)[j] == IssueOrZero(f.fetch(cands[i].number, IssueDate(cands[i])).value);
  }

  /** The early exit: nothing at or after an issue (not a pull request)
      updated before `since` is returned. A pull request updated before
      `since` does not stop the walk. */
  lemma ListIssuesEarlyExit(org: string, project: string, f: IssueFilter, replies: seq<Reply<seq<Issue>>>, h: nat)
    requires FetchAllIssuePages(IssueQuery(f.state), replies).outcome.Complete?
    requires h < |FetchAllIssuePages(IssueQuery(f.state), replies).outcome.items|
    requires var c := FetchAllIssuePages(IssueQuery(f.state), replies).outcome.items[h];
             !c.isPullRequest && c.updatedAt < f.since
    ensures var idx := Picks(IssueJudge(f), FetchAllIssuePages(IssueQuery(f.state), replies).outcome.items);
            forall j :: 0 <= j < |idx| ==> idx[j] < h
  {
    var cands := FetchAllIssuePages(IssueQuery(f.state), replies).outcome.items;
    IssueVerdictSpec(f, cands[h]);
    ScanStopsAtHalt(IssueJudge(f), cands, h);
  }

  /** `IssueSummary`; `Type` is never set by `ClosedIssues`. */
  datatype IssueSummary = IssueSummary(
    url: string,
    date: Time,
    author: string,
    closer: string,
    project: string,
    kind: string,
    title: string)

  function CloserLogin(i: Issue): string
  {
    match i.closedBy
    case Some(login) => login
    case None => ""
  }

  function SummarizeIssue(i: Issue, project: string): IssueSummary
  {
    IssueSummary(i.htmlURL, i.closedAt, i.user, CloserLogin(i), project, "", i.title)
  }

  /** `ClosedIssues`: one summary per filtered closed issue, in the same
      order, each naming the issue's URL, closing time, creator and closer
      (empty when no closer is recorded) and the given project, with the
      kind left empty. */
  function ClosedIssues(org: string, project: string, since: Time, until: Time, users: seq<string>,
                        fetch: (int, Time) -> Result<Option<Issue>>, replies: seq<Reply<seq<Issue>>>): (out: Listing<IssueSummary>)
    ensures var issues := ListIssues(org, project, IssueFilter(since, until, users, "closed", fetch), replies);
            && (out.Complete? <==> issues.Complete?)
            && (out.Failed? <==> issues.Failed?)
            && (out.Failed? ==> out.msg == issues.msg)
            && (out.Complete? ==>
                 && |out.items| == |issues.items|
                 && forall k :: 0 <= k < |out.items| ==>
                      && out.items[k].url == issues.items[k].htmlURL
                      && out.items[k].date == issues.items[k].closedAt
                      && out.items[k].author == issues.items[k].user
                      && (issues.items[k].closedBy.Some? ==> out.items[k].closer == issues.items[k].closedBy.value)
                      && (issues.items[k].closedBy.None? ==> out.items[k].closer == "")
                      && out.items[k].project == project
                      && out.items[k].kind == ""
                      && out.items[k].title == issues.items[k].title)
  {
    match ListIssues(org, project, IssueFilter(since, until, users, "closed", fetch), replies)
    case Complete(found) => Complete(seq(|found|, k requires 0 <= k < |found| => SummarizeIssue(found[k], project)))
    case Failed(m) => Failed(m)
    case Panicked => Panicked
    case Unfinished => Unfinished
  }

  /** Every closed-issue summary comes from an issue listed as closed inside
      the window; an issue with no closing time never yields one. */
  lemma ClosedIssuesListedClosed(org: string, project: string, since: Time, until: Time, users: seq<string>,
                                 fetch: (int, Time) -> Result<Option<Issue>>, replies: seq<Reply<seq<Issue>>>)
    ensures var f := IssueFilter(since, until, users, "closed", fetch);
            var listed := FetchAllIssuePages(IssueQuery("closed"), replies).outcome;
            var out := ClosedIssues(org, project, since, until, users, fetch, replies);
            out.Complete? ==>
              var idx := Picks(IssueJudge(f), listed.items);
              && |out.items| == |idx|
              && forall j :: 0 <= j < |idx| ==>
                   && idx[j] < |listed.items|
                   && !IsZero(listed.items[idx[j]].closedAt)
                   && since <= listed.items[idx[j]].closedAt <= until
                   && listed.items[idx[j]].state == "closed"
  {
    ListIssuesSound(org, project, IssueFilter(since, until, users, "closed", fetch), replies);
  }
}
