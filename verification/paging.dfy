/** The page aggregator: one loop that drains a paged listing, driven by a
    finite sequence of server replies (the i-th call receives the i-th
    reply). The four loops of the source differ only in how one reply is
    judged, which `Judge` spells out per `Style`. */
module Paging {
  import opened Base
  import opened GitHub
  import Retry

  /** Where a request points: a page number (offset mode) or an `after`
      cursor (cursor mode, "" for the first window). */
  datatype Position = Page(page: int) | Cursor(token: string)

  datatype Style =
    | PullList     // fetchAllPullRequestPages
    | RepoList     // fetchAllRepoPages
    | DetailList   // the paged cache helpers and FetchPullRequestsListPagesWithRetries
    | IssueCursor  // fetchAllIssuePages

  /** What the loop does after one reply. `Crash` is the nil-pointer
      dereference of a nil response in the loops that do not check for it. */
  datatype Step = Advance(next: Position) | Finish | Reject(msg: string) | Crash

  /** How a whole listing ends. `Unfinished` means the modelled replies ran
      out while the loop still wanted another page. */
  datatype Listing<+T> = Complete(items: seq<T>) | Failed(msg: string) | Panicked | Unfinished

  /** A listing outcome together with the position of every call made. */
  datatype Run<+T> = Run(outcome: Listing<T>, calls: seq<Position>)

  function Describe(endpoint: string, pos: Position): string
  {
    match pos
    case Page(n) => endpoint + " page " + IntToString(n)
    case Cursor(t) => if t == "" then endpoint + " using first" else endpoint + " using after " + t
  }

  /** The first page requested: page 1 when the options leave it at 0. */
  function FirstPage(page: int): int
  {
    if page == 0 then 1 else page
  }

  function MistypedMsg(desc: string): string
  {
    "unexpected type from GitHub API for " + desc
  }

  /** The items a reply carries, nothing for an error or a nil. */
  function ItemsOf<T>(reply: Reply<seq<T>>): seq<T>
  {
    if reply.Reply? && reply.payload.Data? then reply.payload.v else []
  }

  /** The in-order concatenation of the pages of `replies`. */
  function Flatten<T>(replies: seq<Reply<seq<T>>>): seq<T>
  {
    if |replies| == 0 then [] else ItemsOf(replies[0]) + Flatten(replies[1..])
  }

  lemma {:induction false} FlattenAppend<T>(a: seq<Reply<seq<T>>>, b: seq<Reply<seq<T>>>)
    ensures Flatten(a + b) == Flatten(a) + Flatten(b)
    decreases |a|
  {
    if |a| == 0 {
      assert a + b == b;
    } else {
      assert (a + b)[1..] == a[1..] + b;
      FlattenAppend(a[1..], b);
    }
  }

  /** One iteration of each source loop after the call returned (the call
      itself goes through the retrying executor). Whatever the loop, a
      failed call is rejected with the retried message, a payload of the
      wrong type is rejected as such, the loop only advances on a typed page
      that names a further position of its own mode, and only the two loops
      that do not check the response can crash, on a nil response. */
  function Judge<T>(style: Style, desc: string, reply: Reply<seq<T>>): (s: Step)
    ensures reply.CallFailed? ==>
              s.Reject? && IsPrefix(desc + Retry.AfterRetries, s.msg) && HasSuffix(s.msg, reply.cause)
    ensures reply.Reply? && reply.payload.Mistyped? ==> s == Reject(MistypedMsg(desc))
    ensures s.Advance? ==>
              && reply.Reply? && reply.payload.Data? && reply.meta.Meta?
              && (style == IssueCursor <==> s.next.Cursor?)
              && (s.next.Page? ==> s.next.page == reply.meta.nextPage && reply.meta.nextPage != 0)
              && (s.next.Cursor? ==> s.next.token == reply.meta.after && reply.meta.after != "")
    ensures s.Crash? ==> (style == PullList || style == DetailList) && reply.Reply? && reply.meta.NilMeta?
  {
    var r := Retry.RetryGithubCall(desc, reply);
    if r.CallFailed? then Reject(r.cause)
    else match style
      case PullList =>
        if !r.payload.Data? then Reject(MistypedMsg(desc))
        else if |r.payload.v| == 0 then Finish
        else if r.meta.NilMeta? then Crash
        else if r.meta.nextPage == 0 then Finish
        else Advance(Page(r.meta.nextPage))
      case RepoList =>
        if r.payload.NilData? then
          if r.meta.NilMeta? || r.meta.nextPage == 0 then Finish else Reject(MistypedMsg(desc))
        else if r.payload.Mistyped? then Reject(MistypedMsg(desc))
        else if |r.payload.v| == 0 then Finish
        else if r.meta.NilMeta? || r.meta.nextPage == 0 then Finish
        else Advance(Page(r.meta.nextPage))
      case DetailList =>
        if !r.payload.Data? then Reject(MistypedMsg(desc))
        else if r.meta.NilMeta? then Crash
        else if r.meta.nextPage == 0 then Finish
        else Advance(Page(r.meta.nextPage))
      case IssueCursor =>
        if r.payload.NilData? then
          if r.meta.NilMeta? || r.meta.after == "" then Finish else Reject(MistypedMsg(desc))
        else if r.payload.Mistyped? then Reject(MistypedMsg(desc))
        else if r.meta.NilMeta? || r.meta.after == "" then Finish
        else Advance(Cursor(r.meta.after))
  }

  /** The per-call step of one source loop, as a function of the position
      requested and the reply received. */
  function Stepper<T>(style: Style, endpoint: string): (Position, Reply<seq<T>>) -> Step
  {
    (pos: Position, reply: Reply<seq<T>>) => Judge(style, Describe(endpoint, pos), reply)
  }

  function StepAt<T>(step: (Position, Reply<seq<T>>) -> Step, calls: seq<Position>, replies: seq<Reply<seq<T>>>, k: nat): Step
    requires k < |calls| && k < |replies|
  {
    step(calls[k], replies[k])
  }

  /** The step a `Stepper` takes at each call is the judgement of that
      call's reply under that call's description. */
  lemma StepperAt<T>(style: Style, endpoint: string, calls: seq<Position>, replies: seq<Reply<seq<T>>>)
    ensures forall k :: 0 <= k < |calls| && k < |replies| ==>
              StepAt(Stepper(style, endpoint), calls, replies, k) == Judge(style, Describe(endpoint, calls[k]), replies[k])
  {
  }

  /** The loop: call, judge the reply, append its page, follow the cursor.
      Every call but the last advanced, each to the position the previous
      reply named; a complete listing is exactly the concatenation of the
      pages received; an error keeps nothing. */
  function Drain<T>(step: (Position, Reply<seq<T>>) -> Step, pos: Position, replies: seq<Reply<seq<T>>>): (run: Run<T>)
    ensures |run.calls| <= |replies|
    ensures |replies| > 0 ==> |run.calls| >= 1 && run.calls[0] == pos
    ensures forall k :: 0 <= k < |run.calls| - 1 ==>
              StepAt(step, run.calls, replies, k).Advance? &&
              run.calls[k + 1] == StepAt(step, run.calls, replies, k).next
    ensures run.outcome.Unfinished? <==>
              |run.calls| == |replies| &&
              (|replies| == 0 || StepAt(step, run.calls, replies, |run.calls| - 1).Advance?)
    ensures run.outcome.Complete? <==>
              |run.calls| >= 1 && StepAt(step, run.calls, replies, |run.calls| - 1).Finish?
    ensures run.outcome.Failed? <==>
              |run.calls| >= 1 && StepAt(step, run.calls, replies, |run.calls| - 1).Reject?
    ensures run.outcome.Panicked? <==>
              |run.calls| >= 1 && StepAt(step, run.calls, replies, |run.calls| - 1).Crash?
    ensures run.outcome.Failed? ==>
              run.outcome.msg == StepAt(step, run.calls, replies, |run.calls| - 1).msg
    ensures run.outcome.Complete? ==> run.outcome.items == Flatten(replies[..|run.calls|])
    decreases |replies|
  {
    if |replies| == 0 then Run(Unfinished, [])
    else
      match step(pos, replies[0])
      case Finish =>
        assert replies[..1] == [replies[0]];
        Run(Complete(ItemsOf(replies[0])), [pos])
      case Reject(m) => Run(Failed(m), [pos])
      case Crash => Run(Panicked, [pos])
      case Advance(next) =>
        var rest := Drain(step, next, replies[1..]);
        var calls := [pos] + rest.calls;
        assert forall k :: 1 <= k < |calls| ==>
          StepAt(step, calls, replies, k) == StepAt(step, rest.calls, replies[1..], k - 1) &&
          calls[k] == rest.calls[k - 1];
        assert rest.outcome.Complete? ==> replies[..|calls|][1..] == replies[1..][..|rest.calls|];
        Run(match rest.outcome
            case Complete(items) => Complete(ItemsOf(replies[0]) + items)
            case Failed(m) => Failed(m)
            case Panicked => Panicked
            case Unfinished => Unfinished,
            calls)
  }
}
