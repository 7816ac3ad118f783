/** Shared vocabulary: optional values, error results, timestamps, ASCII
    lower-casing, allow-lists and decimal rendering of integers. */
module Base {

  datatype Option<+T> = None | Some(value: T)

  /** A value or an error message (Go's `(T, error)` pair with exactly one
      side meaningful). */
  datatype Result<+T> = Ok(value: T) | Err(msg: string)

  /** Timestamps are integers; 0 stands for Go's zero `time.Time`. */
  type Time = int

  predicate IsZero(t: Time) { t == 0 }

  /** `time.Time.Before` and `time.Time.After` are strict. */
  predicate Before(a: Time, b: Time) { a < b }
  predicate After(a: Time, b: Time) { a > b }

  /** The inclusive window test the filters write as "not after `until`
      and not before `since`". */
  predicate InWindow(t: Time, since: Time, until: Time)
  {
    !After(t, until) && !Before(t, since)
  }

  lemma InWindowBounds(t: Time, since: Time, until: Time)
    ensures InWindow(t, since, until) <==> since <= t <= until
  {
  }

  predicate IsUpper(c: char) { 'A' <= c <= 'Z' }

  function LowerChar(c: char): char
  {
    if IsUpper(c) then (c as int + 32) as char else c
  }

  /** `strings.ToLower`, restricted to ASCII letters. */
  function Lower(s: string): string
  {
    seq(|s|, i requires 0 <= i < |s| => LowerChar(s[i]))
  }

  predicate HasUpper(s: string)
  {
    exists i :: 0 <= i < |s| && IsUpper(s[i])
  }

  lemma LowerHasNoUpper(s: string)
    ensures |Lower(s)| == |s|
    ensures !HasUpper(Lower(s))
    ensures Lower(Lower(s)) == Lower(s)
  {
  }

  /** The key set of the source's `matchUser` / `matchBranch` maps: every
      entry of the list, lower-cased. */
  function AllowList(names: seq<string>): (allow: set<string>)
    ensures forall n :: n in names ==> Lower(n) in allow
    ensures forall a :: a in allow ==> exists n :: n in names && a == Lower(n)
  {
    set n | n in names :: Lower(n)
  }

  lemma AllowListEmpty(names: seq<string>)
    ensures AllowList(names) == {} <==> |names| == 0
  {
    if |names| > 0 {
      assert Lower(names[0]) in AllowList(names);
    }
  }

  /** No key of an allow-list has an upper-case letter. */
  lemma AllowListIsLowerCase(names: seq<string>, key: string)
    requires key in AllowList(names)
    ensures !HasUpper(key)
  {
    var n :| n in names && key == Lower(n);
    LowerHasNoUpper(n);
  }

  /** `strings.HasSuffix`. */
  predicate HasSuffix(s: string, suffix: string)
  {
    |suffix| <= |s| && s[|s| - |suffix|..] == suffix
  }

  predicate IsPrefix(prefix: string, s: string)
  {
    |prefix| <= |s| && s[..|prefix|] == prefix
  }

  function DigitChar(d: nat): char
    requires d < 10
  {
    "0123456789"[d]
  }

  predicate IsDigit(c: char) { '0' <= c <= '9' }

  /** Decimal rendering of a natural number, as `%d` prints it. */
  function NatToString(n: nat): (s: string)
    ensures |s| >= 1
    ensures forall i :: 0 <= i < |s| ==> IsDigit(s[i])
    decreases n
  {
    if n < 10 then [DigitChar(n)] else NatToString(n / 10) + [DigitChar(n % 10)]
  }

  function IntToString(i: int): (s: string)
    ensures |s| >= 1
    ensures i < 0 <==> s[0] == '-'
  {
    if i < 0 then "-" + NatToString(-i) else NatToString(i)
  }
}
