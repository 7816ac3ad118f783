/** The per-user tallies behind four leaderboard charts
    (pkg/leaderboard/issues.go), up to the `uMap` each chart builds; ranking
    and rendering of the tally are not part of this model. */
module Leaderboard {
  import opened Base
  import opened Issues

  /** The fields of a comment summary the charts read. */
  datatype CommentSummary = CommentSummary(commenter: string, issueAuthor: string, words: int, comments: int)

  type Tally = map<string, int>

  // ------------------------------------------------------- generic tally

  /** The loop shared by the charts: for every entry that counts, add its
      weight to the entry of its key (a missing entry reads as 0). */
  function Tabulate<T>(xs: seq<T>, counts: T -> bool, key: T -> string, weight: T -> int): Tally
  {
    if |xs| == 0 then map[]
    else
      var m := Tabulate(xs[..|xs| - 1], counts, key, weight);
      var x := xs[|xs| - 1];
      if counts(x) then m[key(x) := (if key(x) in m then m[key(x)] else 0) + weight(x)] else m
  }

  /** Reference definition of one user's figure: the weights of the
      counting entries with that key. */
  function KeyWeight<T>(xs: seq<T>, counts: T -> bool, key: T -> string, weight: T -> int, k: string): int
  {
    if |xs| == 0 then 0
    else
      var x := xs[|xs| - 1];
      KeyWeight(xs[..|xs| - 1], counts, key, weight, k) + (if counts(x) && key(x) == k then weight(x) else 0)
  }

  /** The weights of all counting entries. */
  function CountedWeight<T>(xs: seq<T>, counts: T -> bool, weight: T -> int): int
  {
    if |xs| == 0 then 0
    else
      var x := xs[|xs| - 1];
      CountedWeight(xs[..|xs| - 1], counts, weight) + (if counts(x) then weight(x) else 0)
  }

  /** A user has an entry exactly when some counting entry has that key,
      and the entry is the sum of their weights. */
  lemma {:induction false} TabulateSpec<T>(xs: seq<T>, counts: T -> bool, key: T -> string, weight: T -> int)
    ensures forall k :: k in Tabulate(xs, counts, key, weight) <==>
              exists i :: 0 <= i < |xs| && counts(xs[i]) && key(xs[i]) == k
    ensures forall k :: k in Tabulate(xs, counts, key, weight) ==>
              Tabulate(xs, counts, key, weight)[k] == KeyWeight(xs, counts, key, weight, k)
  {
    if |xs| > 0 {
      var n := |xs| - 1;
      var front := xs[..n];
      TabulateSpec(front, counts, key, weight);
      var m := Tabulate(front, counts, key, weight);
      forall k | k !in m
        ensures KeyWeight(front, counts, key, weight, k) == 0
      {
        KeyWeightAbsent(front, counts, key, weight, k);
      }
      forall k
        ensures k in Tabulate(xs, counts, key, weight) <==>
                exists i :: 0 <= i < |xs| && counts(xs[i]) && key(xs[i]) == k
      {
        if exists i :: 0 <= i < |xs| && counts(xs[i]) && key(xs[i]) == k {
          var i :| 0 <= i < |xs| && counts(xs[i]) && key(xs[i]) == k;
          if i < n { assert front[i] == xs[i]; }
        }
        if exists i :: 0 <= i < n && counts(front[i]) && key(front[i]) == k {
          var i :| 0 <= i < n && counts(front[i]) && key(front[i]) == k;
          assert xs[i] == front[i];
        }
      }
    }
  }

  /** A key no counting entry carries has weight 0. */
  lemma {:induction false} KeyWeightAbsent<T>(xs: seq<T>, counts: T -> bool, key: T -> string, weight: T -> int, k: string)
    requires forall i :: 0 <= i < |xs| ==> !(counts(xs[i]) && key(xs[i]) == k)
    ensures KeyWeight(xs, counts, key, weight, k) == 0
  {
    if |xs| > 0 {
      var n := |xs| - 1;
      assert forall i :: 0 <= i < n ==> xs[..n][i] == xs[i];
      KeyWeightAbsent(xs[..n], counts, key, weight, k);
    }
  }

  /** Every key of a tally is the key of a counting entry. */
  lemma TabulateKeys<T>(xs: seq<T>, counts: T -> bool, key: T -> string, weight: T -> int, k: string)
    requires k in Tabulate(xs, counts, key, weight)
    ensures exists i :: 0 <= i < |xs| && counts(xs[i]) && key(xs[i]) == k
  {
    TabulateSpec(xs, counts, key, weight);
  }

  // ------------------------------------------------------- tally totals

  ghost function Pick(m: Tally): string
    requires |m| > 0
  {
    var k :| k in m; k
  }

  /** The sum of all entries of a tally. */
  ghost function Total(m: Tally): int
    decreases |m|
  {
    if |m| == 0 then 0
    else
      var k := Pick(m);
      assert (m - {k}).Keys == m.Keys - {k};
      m[k] + Total(m - {k})
  }

  /** The total does not depend on which entry is taken out first. */
  lemma {:induction false} TotalRemove(m: Tally, k: string)
    requires k in m
    ensures Total(m) == m[k] + Total(m - {k})
    decreases |m|
  {
    var j := Pick(m);
    assert (m - {j}).Keys == m.Keys - {j};
    if j != k {
      assert (m - {k}).Keys == m.Keys - {k};
      TotalRemove(m - {j}, k);
      TotalRemove(m - {k}, j);
      assert m - {j} - {k} == m - {k} - {j};
    }
  }

  /** Adding a weight to one entry adds it to the total. */
  lemma TotalBump(m: Tally, k: string, w: int)
    ensures Total(m[k := (if k in m then m[k] else 0) + w]) == Total(m) + w
  {
    var m' := m[k := (if k in m then m[k] else 0) + w];
    TotalRemove(m', k);
    if k in m {
      TotalRemove(m, k);
      assert m' - {k} == m - {k};
    } else {
      assert m' - {k} == m;
    }
  }

  /** The total of a tally is the weight of all counting entries. */
  lemma {:induction false} TabulateTotal<T>(xs: seq<T>, counts: T -> bool, key: T -> string, weight: T -> int)
    ensures Total(Tabulate(xs, counts, key, weight)) == CountedWeight(xs, counts, weight)
  {
    if |xs| > 0 {
      var n := |xs| - 1;
      TabulateTotal(xs[..n], counts, key, weight);
      if counts(xs[n]) {
        TotalBump(Tabulate(xs[..n], counts, key, weight), key(xs[n]), weight(xs[n]));
      }
    }
  }

  /** With unit weights, the total is at most the number of entries. */
  lemma {:induction false} CountedWeightAtMostLength<T>(xs: seq<T>, counts: T -> bool)
    ensures CountedWeight(xs, counts, (x: T) => 1) <= |xs|
  {
    if |xs| > 0 {
      CountedWeightAtMostLength(xs[..|xs| - 1], counts);
    }
  }

  // ------------------------------------------------------------ charts

  predicate IsBotLogin(login: string)
  {
    HasSuffix(login, "bot")
  }

  /** `issueCloserChart` counts a closer whose lower-cased login is on the
      list (so an empty list counts nobody) and whose login does not end
      in "bot". */
  predicate CloserCounts(users: seq<string>, s: IssueSummary)
  {
    Lower(s.closer) in AllowList(users) && !IsBotLogin(s.closer)
  }

  /** `issueOpenerChart` counts an author on the list, or anyone when the
      list is empty, whose login does not end in "bot". */
  predicate OpenerCounts(users: seq<string>, s: IssueSummary)
  {
    (|users| == 0 || Lower(s.author) in AllowList(users)) && !IsBotLogin(s.author)
  }

  function IssueCloserTally(ss: seq<IssueSummary>, users: seq<string>): Tally
  {
    Tabulate(ss, (s: IssueSummary) => CloserCounts(users, s), (s: IssueSummary) => s.closer, (s: IssueSummary) => 1)
  }

  function IssueOpenerTally(ss: seq<IssueSummary>, users: seq<string>): Tally
  {
    Tabulate(ss, (s: IssueSummary) => OpenerCounts(users, s), (s: IssueSummary) => s.author, (s: IssueSummary) => 1)
  }

  /** `commentWordsChart`: words per commenter, leaving out comments on the
      commenter's own issues. */
  function CommentWordsTally(cs: seq<CommentSummary>): Tally
  {
    Tabulate(cs, (c: CommentSummary) => c.issueAuthor != c.commenter, (c: CommentSummary) => c.commenter,
             (c: CommentSummary) => c.words)
  }

  /** `commentsChart`: comments per commenter, no filtering. */
  function CommentsTally(cs: seq<CommentSummary>): Tally
  {
    Tabulate(cs, (c: CommentSummary) => true, (c: CommentSummary) => c.commenter, (c: CommentSummary) => c.comments)
  }

  /** How many summaries a user opened. */
  function Opened(ss: seq<IssueSummary>, login: string): nat
  {
    if |ss| == 0 then 0
    else Opened(ss[..|ss| - 1], login) + (if ss[|ss| - 1].author == login then 1 else 0)
  }

  /** How many summaries a user closed. */
  function Closed(ss: seq<IssueSummary>, login: string): nat
  {
    if |ss| == 0 then 0
    else Closed(ss[..|ss| - 1], login) + (if ss[|ss| - 1].closer == login then 1 else 0)
  }

  function SumComments(cs: seq<CommentSummary>): int
  {
    if |cs| == 0 then 0 else SumComments(cs[..|cs| - 1]) + cs[|cs| - 1].comments
  }

  /** The opener tally lists exactly the admitted, non-bot authors, each
      with the number of summaries they opened. */
  lemma {:induction false} OpenerTallySpec(ss: seq<IssueSummary>, users: seq<string>, login: string)
    ensures login in IssueOpenerTally(ss, users) <==>
              Opened(ss, login) > 0 && (|users| == 0 || Lower(login) in AllowList(users)) && !IsBotLogin(login)
    ensures login in IssueOpenerTally(ss, users) ==> IssueOpenerTally(ss, users)[login] == Opened(ss, login)
  {
    var counts := (s: IssueSummary) => OpenerCounts(users, s);
    var key := (s: IssueSummary) => s.author;
    TabulateSpec(ss, counts, key, (s: IssueSummary) => 1);
    OpenedWeight(ss, users, login);
    OpenedPositive(ss, login);
  }

  lemma {:induction false} OpenedWeight(ss: seq<IssueSummary>, users: seq<string>, login: string)
    ensures KeyWeight(ss, (s: IssueSummary) => OpenerCounts(users, s), (s: IssueSummary) => s.author, (s: IssueSummary) => 1, login)
            == if (|users| == 0 || Lower(login) in AllowList(users)) && !IsBotLogin(login) then Opened(ss, login) else 0
  {
    if |ss| > 0 {
      OpenedWeight(ss[..|ss| - 1], users, login);
    }
  }

  lemma {:induction false} OpenedPositive(ss: seq<IssueSummary>, login: string)
    ensures Opened(ss, login) > 0 <==> exists i :: 0 <= i < |ss| && ss[i].author == login
  {
    if |ss| > 0 {
      var n := |ss| - 1;
      OpenedPositive(ss[..n], login);
      if exists i :: 0 <= i < |ss| && ss[i].author == login {
        var i :| 0 <= i < |ss| && ss[i].author == login;
        if i < n { assert ss[..n][i] == ss[i]; }
      }
      if exists i :: 0 <= i < n && ss[..n][i].author == login {
        var i :| 0 <= i < n && ss[..n][i].author == login;
        assert ss[i] == ss[..n][i];
      }
    }
  }

  /** The closer tally lists exactly the listed, non-bot closers, each with
      the number of summaries they closed. */
  lemma {:induction false} CloserTallySpec(ss: seq<IssueSummary>, users: seq<string>, login: string)
    ensures login in IssueCloserTally(ss, users) <==>
              Closed(ss, login) > 0 && Lower(login) in AllowList(users) && !IsBotLogin(login)
    ensures login in IssueCloserTally(ss, users) ==> IssueCloserTally(ss, users)[login] == Closed(ss, login)
  {
    var counts := (s: IssueSummary) => CloserCounts(users, s);
    var key := (s: IssueSummary) => s.closer;
    TabulateSpec(ss, counts, key, (s: IssueSummary) => 1);
    ClosedWeight(ss, users, login);
    ClosedPositive(ss, login);
  }

  lemma {:induction false} ClosedWeight(ss: seq<IssueSummary>, users: seq<string>, login: string)
    ensures KeyWeight(ss, (s: IssueSummary) => CloserCounts(users, s), (s: IssueSummary) => s.closer, (s: IssueSummary) => 1, login)
            == if Lower(login) in AllowList(users) && !IsBotLogin(login) then Closed(ss, login) else 0
  {
    if |ss| > 0 {
      ClosedWeight(ss[..|ss| - 1], users, login);
    }
  }

  lemma {:induction false} ClosedPositive(ss: seq<IssueSummary>, login: string)
    ensures Closed(ss, login) > 0 <==> exists i :: 0 <= i < |ss| && ss[i].closer == login
  {
    if |ss| > 0 {
      var n := |ss| - 1;
      ClosedPositive(ss[..n], login);
      if exists i :: 0 <= i < |ss| && ss[i].closer == login {
        var i :| 0 <= i < |ss| && ss[i].closer == login;
        if i < n { assert ss[..n][i] == ss[i]; }
      }
      if exists i :: 0 <= i < n && ss[..n][i].closer == login {
        var i :| 0 <= i < n && ss[..n][i].closer == login;
        assert ss[i] == ss[..n][i];
      }
    }
  }

  /** An empty user list makes the closer chart empty. */
  lemma CloserTallyEmptyList(ss: seq<IssueSummary>)
    ensures IssueCloserTally(ss, []) == map[]
  {
    var t := IssueCloserTally(ss, []);
    if t != map[] {
      var k :| k in t;
      TabulateKeys(ss, (s: IssueSummary) => CloserCounts([], s), (s: IssueSummary) => s.closer, (s: IssueSummary) => 1, k);
    }
  }

  /** No login ending in "bot" appears in either issue chart. */
  lemma NoBotsCharted(ss: seq<IssueSummary>, users: seq<string>, login: string)
    requires IsBotLogin(login)
    ensures login !in IssueCloserTally(ss, users)
    ensures login !in IssueOpenerTally(ss, users)
  {
    CloserTallySpec(ss, users, login);
    OpenerTallySpec(ss, users, login);
  }

  /** Each summary is counted at most once in either issue chart. */
  lemma IssueTalliesBounded(ss: seq<IssueSummary>, users: seq<string>)
    ensures Total(IssueCloserTally(ss, users)) <= |ss|
    ensures Total(IssueOpenerTally(ss, users)) <= |ss|
  {
    var one := (s: IssueSummary) => 1;
    TabulateTotal(ss, (s: IssueSummary) => CloserCounts(users, s), (s: IssueSummary) => s.closer, one);
    TabulateTotal(ss, (s: IssueSummary) => OpenerCounts(users, s), (s: IssueSummary) => s.author, one);
    CountedWeightAtMostLength(ss, (s: IssueSummary) => CloserCounts(users, s));
    CountedWeightAtMostLength(ss, (s: IssueSummary) => OpenerCounts(users, s));
  }

  /** The comment tally distributes every comment to its commenter. */
  lemma CommentsTallyTotal(cs: seq<CommentSummary>)
    ensures Total(CommentsTally(cs)) == SumComments(cs)
  {
    TabulateTotal(cs, (c: CommentSummary) => true, (c: CommentSummary) => c.commenter, (c: CommentSummary) => c.comments);
    CommentsWeight(cs);
  }

  lemma {:induction false} CommentsWeight(cs: seq<CommentSummary>)
    ensures CountedWeight(cs, (c: CommentSummary) => true, (c: CommentSummary) => c.comments) == SumComments(cs)
  {
    if |cs| > 0 {
      CommentsWeight(cs[..|cs| - 1]);
    }
  }

  /** Words on one's own issue never count: a commenter whose every
      comment is on their own issues has no entry. */
  lemma CommentWordsSkipsAuthors(cs: seq<CommentSummary>, login: string)
    requires forall i :: 0 <= i < |cs| && cs[i].commenter == login ==> cs[i].issueAuthor == login
    ensures login !in CommentWordsTally(cs)
  {
    TabulateSpec(cs, (c: CommentSummary) => c.issueAuthor != c.commenter, (c: CommentSummary) => c.commenter,
                 (c: CommentSummary) => c.words);
  }
}
