/** Listing the repositories of an organization (pkg/repo/repos.go). */
module Repos {
  import opened Base
  import opened GitHub
  import opened Paging

  const ReposEndpoint := "Repositories.ListByOrg"

  /** How one reply of the repository listing is judged. */
  lemma RepoStep(desc: string, reply: Reply<seq<Repository>>)
    ensures var s := Judge(RepoList, desc, reply);
            && (s.Advance? <==>
                  reply.Reply? && reply.payload.Data? && |reply.payload.v| > 0 &&
                  reply.meta.Meta? && reply.meta.nextPage != 0)
            && (s.Advance? ==> s.next == Page(reply.meta.nextPage))
            && (s.Finish? <==>
                  reply.Reply? &&
                  var endOfPages := reply.meta.NilMeta? || reply.meta.nextPage == 0;
                  || (reply.payload.NilData? && endOfPages)
                  || (reply.payload.Data? && (|reply.payload.v| == 0 || endOfPages)))
            && !s.Crash?
  {
  }

  lemma RepoSteps(calls: seq<Position>, replies: seq<Reply<seq<Repository>>>)
    ensures forall k :: 0 <= k < |calls| && k < |replies| ==>
              var s := StepAt(Stepper(RepoList, ReposEndpoint), calls, replies, k);
              var reply := replies[k];
              && (s.Advance? <==>
                    reply.Reply? && reply.payload.Data? && |reply.payload.v| > 0 &&
                    reply.meta.Meta? && reply.meta.nextPage != 0)
              && (s.Advance? ==> s.next == Page(reply.meta.nextPage))
              && (s.Finish? <==>
                    reply.Reply? &&
                    var endOfPages := reply.meta.NilMeta? || reply.meta.nextPage == 0;
                    || (reply.payload.NilData? && endOfPages)
                    || (reply.payload.Data? && (|reply.payload.v| == 0 || endOfPages)))
              && !s.Crash?
  {
    StepperAt(RepoList, ReposEndpoint, calls, replies);
    forall k | 0 <= k < |calls| && k < |replies| {
      RepoStep(Describe(ReposEndpoint, calls[k]), replies[k]);
    }
  }

  /** `fetchAllRepoPages`: offset paging that also accepts an untyped nil
      page as the end of the listing when no next page is advertised, and
      stops at an empty page, a nil response or a zero next page. */
  function FetchAllRepoPages(page: int, replies: seq<Reply<seq<Repository>>>): (run: Run<Repository>)
    ensures |run.calls| <= |replies|
    ensures |replies| > 0 ==> |run.calls| >= 1 && run.calls[0] == Page(FirstPage(page))
    ensures forall k :: 0 <= k < |run.calls| - 1 ==>
              && replies[k].Reply? && replies[k].payload.Data? && |replies[k].payload.v| > 0
              && replies[k].meta.Meta? && replies[k].meta.nextPage != 0
              && run.calls[k + 1] == Page(replies[k].meta.nextPage)
    ensures run.outcome.Complete? ==> run.outcome.items == Flatten(replies[..|run.calls|])
    ensures run.outcome.Complete? <==>
              |run.calls| >= 1 &&
              var last := replies[|run.calls| - 1];
              last.Reply? &&
              var endOfPages := last.meta.NilMeta? || last.meta.nextPage == 0;
              || (last.payload.NilData? && endOfPages)
              || (last.payload.Data? && (|last.payload.v| == 0 || endOfPages))
    ensures run.outcome.Failed? <==>
              |run.calls| >= 1 &&
              var last := replies[|run.calls| - 1];
              || last.CallFailed?
              || last.payload.Mistyped?
              || (last.payload.NilData? && last.meta.Meta? && last.meta.nextPage != 0)
    ensures !run.outcome.Panicked?
  {
    var run := Drain(Stepper(RepoList, ReposEndpoint), Page(FirstPage(page)), replies);
    RepoSteps(run.calls, replies);
    run
  }

  /** The name reported for a repository of `org`. */
  function QualifiedName(org: string, name: string): (q: string)
    ensures |q| == |org| + 1 + |name|
    ensures IsPrefix(org + "/", q) && HasSuffix(q, name)
  {
    org + "/" + name
  }

  /** The repository name can be read back from the qualified name, so
      distinct repositories of one organization get distinct names. */
  lemma QualifiedNameInverse(org: string, name: string, other: string)
    ensures QualifiedName(org, name)[|org| + 1..] == name
    ensures QualifiedName(org, name) == QualifiedName(org, other) ==> name == other
  {
    assert QualifiedName(org, name)[|org| + 1..] == name;
    assert QualifiedName(org, other)[|org| + 1..] == other;
  }

  /** The naming loop of `ListRepoNames`. */
  method RepoNames(org: string, repos: seq<Repository>) returns (names: seq<string>)
    ensures |names| == |repos|
    ensures forall i :: 0 <= i < |repos| ==> names[i] == QualifiedName(org, repos[i].name)
  {
    names := [];
    var i := 0;
    while i < |repos|
      invariant 0 <= i <= |repos|
      invariant |names| == i
      invariant forall j :: 0 <= j < i ==> names[j] == QualifiedName(org, repos[j].name)
    {
      names := names + [QualifiedName(org, repos[i].name)];
      i := i + 1;
    }
  }

  function ListFailure(org: string, msg: string): string
  {
    "failed to fetch repository list for organization " + org + ": " + msg
  }

  /** `ListRepoNames`: one qualified name per listed repository, in order;
      a listing error becomes an error naming the organization, with no
      names. The listing starts at page 1. */
  method ListRepoNames(org: string, replies: seq<Reply<seq<Repository>>>) returns (out: Listing<string>)
    ensures var run := FetchAllRepoPages(0, replies);
            && (out.Complete? <==> run.outcome.Complete?)
            && (out.Complete? ==>
                  |out.items| == |run.outcome.items| &&
                  forall i :: 0 <= i < |out.items| ==> out.items[i] == QualifiedName(org, run.outcome.items[i].name))
            && (out.Failed? <==> run.outcome.Failed?)
            && (out.Failed? ==> out.msg == ListFailure(org, run.outcome.msg))
            && (out.Unfinished? <==> run.outcome.Unfinished?)
            && !out.Panicked?
  {
    var run := FetchAllRepoPages(0, replies);
    match run.outcome {
      case Failed(m) =>
        out := Failed(ListFailure(org, m));
      case Complete(repos) =>
        if |repos| == 0 {
          out := Complete([]);
        } else {
          var names := RepoNames(org, repos);
          out := Complete(names);
        }
      case Unfinished =>
        out := Unfinished;
      case Panicked =>
        out := Panicked;
    }
  }
}
