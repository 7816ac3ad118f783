/** `PullSummary` (pkg/repo/pr.go): one report row per merged pull request.
    The source iterates a map from pull request to its files, whose order
    Go leaves unspecified; the model takes the entries as a sequence in
    whatever order the map yields them. The regular expressions and the
    unshown helpers are parameters. */
module Summaries {
  import opened Base
  import opened GitHub

  /** Additions to a changelog-like file beyond this count are ignored. */
  const ChangelogCap := 10
  /** Longest description kept before it is cut and marked. */
  const DescriptionLimit := 240
  const Ellipsis := "..."

  /** The helpers the summariser relies on but which are not part of this
      model: the `truncRe` match on a file name, the `commentRe` stripping
      of a body, the project part of `ParseURL`, and `prType`. */
  datatype SummaryConfig = SummaryConfig(
    isChangelog: string -> bool,
    stripComments: string -> string,
    projectOf: string -> string,
    classify: seq<CommitFile> -> string)

  datatype PRSummary = PRSummary(
    url: string,
    date: Time,
    user: string,
    project: string,
    kind: string,
    title: string,
    delta: int,
    added: int,
    deleted: int,
    filesTotal: int,
    files: string,
    description: string)

  // ------------------------------------------------------------ line counts

  /** What one file contributes to `Added`. */
  function FileAdded(isChangelog: string -> bool, f: CommitFile): (n: int)
    ensures n <= f.additions
    ensures isChangelog(f.filename) ==> n <= ChangelogCap
    ensures n == f.additions || (isChangelog(f.filename) && n == ChangelogCap)
  {
    if isChangelog(f.filename) && f.additions > ChangelogCap then ChangelogCap else f.additions
  }

  function AddedLines(isChangelog: string -> bool, files: seq<CommitFile>): int
  {
    if |files| == 0 then 0
    else AddedLines(isChangelog, files[..|files| - 1]) + FileAdded(isChangelog, files[|files| - 1])
  }

  function DeletedLines(files: seq<CommitFile>): int
  {
    if |files| == 0 then 0 else DeletedLines(files[..|files| - 1]) + files[|files| - 1].deletions
  }

  /** The plain sum of additions, the figure `Added` caps. */
  function Additions(files: seq<CommitFile>): int
  {
    if |files| == 0 then 0 else Additions(files[..|files| - 1]) + files[|files| - 1].additions
  }

  function Paths(files: seq<CommitFile>): (paths: seq<string>)
    ensures |paths| == |files|
    ensures forall i :: 0 <= i < |files| ==> paths[i] == files[i].filename
  {
    seq(|files|, i requires 0 <= i < |files| => files[i].filename)
  }

  /** Added lines are counted file by file: the count of a concatenation is
      the sum of the counts. */
  lemma {:induction false} AddedLinesAppend(isChangelog: string -> bool, a: seq<CommitFile>, b: seq<CommitFile>)
    ensures AddedLines(isChangelog, a + b) == AddedLines(isChangelog, a) + AddedLines(isChangelog, b)
    decreases |b|
  {
    if |b| == 0 {
      assert a + b == a;
    } else {
      var n := |b| - 1;
      assert (a + b)[..|a + b| - 1] == a + b[..n];
      AddedLinesAppend(isChangelog, a, b[..n]);
    }
  }

  /** The cap only ever lowers the count, and lowers it exactly for the
      changelog-like files with more than ten additions. */
  lemma {:induction false} AddedLinesBound(isChangelog: string -> bool, files: seq<CommitFile>)
    ensures AddedLines(isChangelog, files) <= Additions(files)
    ensures (forall i :: 0 <= i < |files| ==> !(isChangelog(files[i].filename) && files[i].additions > ChangelogCap))
            ==> AddedLines(isChangelog, files) == Additions(files)
  {
    if |files| > 0 {
      var n := |files| - 1;
      AddedLinesBound(isChangelog, files[..n]);
      assert forall i :: 0 <= i < n ==> files[..n][i] == files[i];
    }
  }

  /** Every file contributes at least its capped additions, so a pull
      request touching a changelog-like file with many additions still
      counts ten lines for it. */
  lemma {:induction false} AddedLinesCapped(isChangelog: string -> bool, files: seq<CommitFile>, i: nat)
    requires i < |files|
    requires forall j :: 0 <= j < |files| ==> files[j].additions >= 0
    ensures AddedLines(isChangelog, files) >= FileAdded(isChangelog, files[i])
    ensures FileAdded(isChangelog, files[i]) <= ChangelogCap || !isChangelog(files[i].filename)
  {
    var n := |files| - 1;
    NonNegativeAdded(isChangelog, files[..n]);
    if i < n {
      AddedLinesCapped(isChangelog, files[..n], i);
    }
  }

  lemma {:induction false} NonNegativeAdded(isChangelog: string -> bool, files: seq<CommitFile>)
    requires forall j :: 0 <= j < |files| ==> files[j].additions >= 0
    ensures AddedLines(isChangelog, files) >= 0
  {
    if |files| > 0 {
      NonNegativeAdded(isChangelog, files[..|files| - 1]);
    }
  }

  /** The per-file loop of `PullSummary`. */
  method FileMetrics(isChangelog: string -> bool, files: seq<CommitFile>) returns (added: int, deleted: int, paths: seq<string>)
    ensures added == AddedLines(isChangelog, files)
    ensures deleted == DeletedLines(files)
    ensures paths == Paths(files)
  {
    added, deleted, paths := 0, 0, [];
    var i := 0;
    while i < |files|
      invariant 0 <= i <= |files|
      invariant added == AddedLines(isChangelog, files[..i])
      invariant deleted == DeletedLines(files[..i])
      invariant paths == Paths(files[..i])
    {
      var f := files[i];
      if isChangelog(f.filename) && f.additions > ChangelogCap {
        added := added + ChangelogCap;
      } else {
        added := added + f.additions;
      }
      deleted := deleted + f.deletions;
      paths := paths + [f.filename];
      assert files[..i + 1][..i] == files[..i];
      i := i + 1;
    }
    assert files[..i] == files;
  }

  // ------------------------------------------------------------ description

  /** The description: the comment-stripped body, cut at 240 characters and
      marked with an ellipsis when longer. */
  function Truncate(body: string): (d: string)
    ensures |d| <= DescriptionLimit + |Ellipsis|
    ensures |body| <= DescriptionLimit ==> d == body
    ensures |body| > DescriptionLimit ==>
              |d| == DescriptionLimit + |Ellipsis| && IsPrefix(d[..DescriptionLimit], body) && HasSuffix(d, Ellipsis)
  {
    if |body| > DescriptionLimit then body[..DescriptionLimit] + Ellipsis else body
  }

  function Join(parts: seq<string>, sep: string): string
  {
    if |parts| == 0 then ""
    else if |parts| == 1 then parts[0]
    else parts[0] + sep + Join(parts[1..], sep)
  }

  // ------------------------------------------------------------ summaries

  /** The report date: merged time, or the closed time when the merge time
      is empty. */
  function SummaryDate(pr: PullRequest): (t: Time)
    ensures !IsZero(pr.mergedAt) ==> t == pr.mergedAt
    ensures IsZero(pr.mergedAt) ==> t == pr.closedAt
  {
    if !IsZero(pr.mergedAt) then pr.mergedAt else pr.closedAt
  }

  /** One report row: the change size is the capped additions plus the
      deletions, the description is the stripped body cut to the limit,
      and the file list holds every path in order. */
  function Summarize(cfg: SummaryConfig, pr: PullRequest, files: seq<CommitFile>): (s: PRSummary)
    ensures s.url == pr.htmlURL && s.date == SummaryDate(pr) && s.user == pr.user && s.title == pr.title
    ensures s.project == cfg.projectOf(pr.htmlURL) && s.kind == cfg.classify(files)
    ensures s.delta == s.added + s.deleted
    ensures s.added == AddedLines(cfg.isChangelog, files) && s.added <= Additions(files)
    ensures s.deleted == DeletedLines(files)
    ensures s.description == Truncate(cfg.stripComments(pr.body))
    ensures |s.description| <= DescriptionLimit + |Ellipsis|
    ensures s.files == Join(Paths(files), "\n")
    ensures s.filesTotal == pr.changedFiles
  {
    AddedLinesBound(cfg.isChangelog, files);
    var added := AddedLines(cfg.isChangelog, files);
    var deleted := DeletedLines(files);
    PRSummary(pr.htmlURL, SummaryDate(pr), pr.user, cfg.projectOf(pr.htmlURL), cfg.classify(files),
              pr.title, added + deleted, added, deleted, pr.changedFiles, Join(Paths(files), "\n"),
              Truncate(cfg.stripComments(pr.body)))
  }

  /** The entry at `i` is the first with its URL. The URL is marked seen
      before the date test, so a later entry with the same URL is dropped
      even when the first one fell outside the window. */
  predicate FirstOccurrence(prs: seq<(PullRequest, seq<CommitFile>)>, i: nat)
    requires i < |prs|
  {
    forall j :: 0 <= j < i ==> prs[j].0.htmlURL != prs[i].0.htmlURL
  }

  predicate Counted(prs: seq<(PullRequest, seq<CommitFile>)>, i: nat, since: Time, until: Time)
    requires i < |prs|
  {
    FirstOccurrence(prs, i) && InWindow(SummaryDate(prs[i].0), since, until)
  }

  function URLs(prs: seq<(PullRequest, seq<CommitFile>)>): set<string>
  {
    set i | 0 <= i < |prs| :: prs[i].0.htmlURL
  }

  /** The reference definition: one summary per counted entry, in order. */
  function Summaries(cfg: SummaryConfig, prs: seq<(PullRequest, seq<CommitFile>)>, since: Time, until: Time): seq<PRSummary>
  {
    if |prs| == 0 then []
    else
      var n := |prs| - 1;
      Summaries(cfg, prs[..n], since, until) +
      (if Counted(prs, n, since, until) then [Summarize(cfg, prs[n].0, prs[n].1)] else [])
  }

  /** Every summary comes from an input entry and is dated in the window. */
  lemma {:induction false} SummariesFromInput(cfg: SummaryConfig, prs: seq<(PullRequest, seq<CommitFile>)>, since: Time, until: Time)
    ensures var s := Summaries(cfg, prs, since, until);
            && |s| <= |prs|
            && (forall j :: 0 <= j < |s| ==> s[j].url in URLs(prs))
            && (forall j :: 0 <= j < |s| ==> InWindow(s[j].date, since, until))
            && (forall j :: 0 <= j < |s| ==> s[j].delta == s[j].added + s[j].deleted)
  {
    if |prs| > 0 {
      var n := |prs| - 1;
      SummariesFromInput(cfg, prs[..n], since, until);
      assert URLs(prs[..n]) <= URLs(prs) by {
        forall u | u in URLs(prs[..n]) ensures u in URLs(prs) {
          var i :| 0 <= i < n && prs[..n][i].0.htmlURL == u;
          assert prs[i].0.htmlURL == u;
        }
      }
      assert prs[n].0.htmlURL in URLs(prs);
    }
  }

  /** No two summaries share a URL. */
  lemma {:induction false} SummariesDistinct(cfg: SummaryConfig, prs: seq<(PullRequest, seq<CommitFile>)>, since: Time, until: Time)
    ensures var s := Summaries(cfg, prs, since, until);
            forall a, b :: 0 <= a < b < |s| ==> s[a].url != s[b].url
  {
    if |prs| > 0 {
      var n := |prs| - 1;
      var s := Summaries(cfg, prs, since, until);
      var front := Summaries(cfg, prs[..n], since, until);
      SummariesDistinct(cfg, prs[..n], since, until);
      SummariesFromInput(cfg, prs[..n], since, until);
      if Counted(prs, n, since, until) {
        assert prs[n].0.htmlURL !in URLs(prs[..n]);
        assert s == front + [Summarize(cfg, prs[n].0, prs[n].1)];
      }
    }
  }

  /** An entry whose URL first appears outside the window never gets a
      summary, whatever the dates of its repeats. */
  lemma {:induction false} FirstOutsideWindowHides(cfg: SummaryConfig, prs: seq<(PullRequest, seq<CommitFile>)>, since: Time, until: Time, i: nat)
    requires i < |prs| && FirstOccurrence(prs, i)
    requires !InWindow(SummaryDate(prs[i].0), since, until)
    ensures forall j :: 0 <= j < |Summaries(cfg, prs, since, until)| ==>
              Summaries(cfg, prs, since, until)[j].url != prs[i].0.htmlURL
  {
    var n := |prs| - 1;
    if i < n {
      FirstOutsideWindowHides(cfg, prs[..n], since, until, i);
      assert !Counted(prs, n, since, until) || prs[n].0.htmlURL != prs[i].0.htmlURL;
    } else {
      SummariesFromInput(cfg, prs[..n], since, until);
      assert prs[i].0.htmlURL !in URLs(prs[..n]);
    }
  }

  /** `PullSummary`: the loop with its `seen` set. */
  method PullSummary(cfg: SummaryConfig, prs: seq<(PullRequest, seq<CommitFile>)>, since: Time, until: Time)
    returns (sum: seq<PRSummary>)
    ensures sum == Summaries(cfg, prs, since, until)
    ensures |sum| <= |prs|
    ensures forall a, b :: 0 <= a < b < |sum| ==> sum[a].url != sum[b].url
    ensures forall j :: 0 <= j < |sum| ==> InWindow(sum[j].date, since, until)
  {
    sum := [];
    var seen: set<string> := {};
    var i := 0;
    while i < |prs|
      invariant 0 <= i <= |prs|
      invariant seen == URLs(prs[..i])
      invariant sum == Summaries(cfg, prs[..i], since, until)
    {
      var pr := prs[i].0;
      var files := prs[i].1;
      var prefix := prs[..i + 1];
      assert prefix[..i] == prs[..i];
      assert URLs(prefix) == seen + {pr.htmlURL} by {
        forall u | u in URLs(prefix) ensures u in seen + {pr.htmlURL} {
          var k :| 0 <= k < i + 1 && prefix[k].0.htmlURL == u;
          if k < i { assert prs[..i][k] == prefix[k]; }
        }
      }
      assert pr.htmlURL in seen <==> !FirstOccurrence(prefix, i) by {
        if pr.htmlURL in seen {
          var k :| 0 <= k < i && prs[..i][k].0.htmlURL == pr.htmlURL;
          assert prefix[k].0.htmlURL == pr.htmlURL;
        }
        if !FirstOccurrence(prefix, i) {
          var k :| 0 <= k < i && prefix[k].0.htmlURL == prefix[i].0.htmlURL;
          assert prs[..i][k] == prefix[k];
        }
      }
      if pr.htmlURL !in seen {
        seen := seen + {pr.htmlURL};
        var t := pr.mergedAt;
        if IsZero(t) {
          t := pr.closedAt;
        }
        if !After(t, until) && !Before(t, since) {
          var added, deleted, paths := FileMetrics(cfg.isChangelog, files);
          sum := sum + [PRSummary(pr.htmlURL, t, pr.user, cfg.projectOf(pr.htmlURL), cfg.classify(files),
                                  pr.title, added + deleted, added, deleted, pr.changedFiles,
                                  Join(paths, "\n"), Truncate(cfg.stripComments(pr.body)))];
        }
      }
      i := i + 1;
    }
    assert prs[..i] == prs;
    SummariesFromInput(cfg, prs, since, until);
    SummariesDistinct(cfg, prs, since, until);
  }
}
