/** The shape shared by both filter pipelines: walk the candidates in server
    order; each one either stops the walk (`break`), is dropped
    (`continue`) or contributes a value to the result. */
module Sift {

  datatype Verdict<+D> = Halt | Skip | Keep(value: D)

  /** Index of the first candidate at or after `from` that stops the walk,
      or the length when none does. */
  function HaltFrom<T, D>(judge: T -> Verdict<D>, s: seq<T>, from: nat): (h: nat)
    requires from <= |s|
    ensures from <= h <= |s|
    ensures forall i :: from <= i < h ==> !judge(s[i]).Halt?
    ensures h < |s| ==> judge(s[h]).Halt?
    decreases |s| - from
  {
    if from == |s| || judge(s[from]).Halt? then from else HaltFrom(judge, s, from + 1)
  }

  /** The indices of the kept candidates from `from` on: strictly
      increasing, all before the first halting candidate, and every kept
      candidate before it among them. */
  function PicksFrom<T, D>(judge: T -> Verdict<D>, s: seq<T>, from: nat): (idx: seq<nat>)
    requires from <= |s|
    ensures forall j :: 0 <= j < |idx| ==>
              from <= idx[j] < HaltFrom(judge, s, from) && judge(s[idx[j]]).Keep?
    ensures forall j, k :: 0 <= j < k < |idx| ==> idx[j] < idx[k]
    ensures forall i :: from <= i < HaltFrom(judge, s, from) && judge(s[i]).Keep? ==> i in idx
    ensures |idx| <= HaltFrom(judge, s, from) - from
    decreases |s| - from
  {
    if from == |s| || judge(s[from]).Halt? then []
    else
      var rest := PicksFrom(judge, s, from + 1);
      if judge(s[from]).Keep? then [from] + rest else rest
  }

  /** The loop itself, resumed at `from`: its result is, in order, the
      values of exactly the candidates `PicksFrom` names. */
  function ScanFrom<T, D>(judge: T -> Verdict<D>, s: seq<T>, from: nat): (r: seq<D>)
    requires from <= |s|
    ensures |r| == |PicksFrom(judge, s, from)|
    ensures forall j :: 0 <= j < |r| ==> judge(s[PicksFrom(judge, s, from)[j]]) == Keep(r[j])
    decreases |s| - from
  {
    if from == |s| then []
    else
      match judge(s[from])
      case Halt => []
      case Skip =>
        var rest := ScanFrom(judge, s, from + 1);
        assert PicksFrom(judge, s, from) == PicksFrom(judge, s, from + 1);
        rest
      case Keep(d) =>
        var rest := ScanFrom(judge, s, from + 1);
        var idx := PicksFrom(judge, s, from + 1);
        assert PicksFrom(judge, s, from) == [from] + idx;
        KeepValues(judge, s, from, d, idx, rest);
        [d] + rest
  }

  /** Prepending a kept candidate to the picks prepends its value to the
      values. */
  lemma KeepValues<T, D>(judge: T -> Verdict<D>, s: seq<T>, from: nat, d: D, idx: seq<nat>, rest: seq<D>)
    requires from < |s| && judge(s[from]) == Keep(d)
    requires |idx| == |rest|
    requires forall j :: 0 <= j < |idx| ==> idx[j] < |s| && judge(s[idx[j]]) == Keep(rest[j])
    ensures forall j :: 0 <= j < |idx| + 1 ==> ([from] + idx)[j] < |s| && judge(s[([from] + idx)[j]]) == Keep(([d] + rest)[j])
  {
    forall j | 0 <= j < |idx| + 1
      ensures ([from] + idx)[j] < |s| && judge(s[([from] + idx)[j]]) == Keep(([d] + rest)[j])
    {
      if j > 0 {
        assert ([from] + idx)[j] == idx[j - 1] && ([d] + rest)[j] == rest[j - 1];
      }
    }
  }

  function HaltAt<T, D>(judge: T -> Verdict<D>, s: seq<T>): nat
  {
    HaltFrom(judge, s, 0)
  }

  function Picks<T, D>(judge: T -> Verdict<D>, s: seq<T>): seq<nat>
  {
    PicksFrom(judge, s, 0)
  }

  function Scan<T, D>(judge: T -> Verdict<D>, s: seq<T>): seq<D>
  {
    ScanFrom(judge, s, 0)
  }

  /** Nothing at or after the first halting candidate reaches the result. */
  lemma ScanStopsAtHalt<T, D>(judge: T -> Verdict<D>, s: seq<T>, h: nat)
    requires h < |s| && judge(s[h]).Halt?
    ensures forall j :: 0 <= j < |Picks(judge, s)| ==> Picks(judge, s)[j] < h
  {
    var idx := Picks(judge, s);
    forall j | 0 <= j < |idx|
      ensures idx[j] < h
    {
      assert HaltAt(judge, s) <= h;
    }
  }
}
