/** Helpers shared by every component: options, and the conversion of clock readings to the
    integer milliseconds that Redis stores as sorted-set scores. */
module Util {

  datatype Option<+T> = None | Some(value: T) {
    function GetOr(default: T): T {
      match this
      case None => default
      case Some(v) => v
    }
  }

  function Max(a: int, b: int): int {
    if a < b then b else a
  }

  function Min(a: int, b: int): int {
    if a < b then a else b
  }

  function MaxReal(a: real, b: real): real {
    if a < b then b else a
  }

  function MinReal(a: real, b: real): real {
    if a < b then a else b
  }

  /** Python's `int(x)`: truncation towards zero. */
  function Truncate(x: real): int {
    if x >= 0.0 then x.Floor else -((-x).Floor)
  }

  /** Epoch seconds to integer milliseconds. */
  function Ms(t: real): int {
    Truncate(t * 1000.0)
  }

  /** A score counts the whole milliseconds of its time, truncated towards zero. */
  lemma MsCountsMilliseconds(t: real)
    ensures t >= 0.0 ==> Ms(t) as real <= t * 1000.0 < Ms(t) as real + 1.0
    ensures t < 0.0 ==> Ms(t) as real - 1.0 < t * 1000.0 <= Ms(t) as real
  {
  }

  /** Times at least one millisecond apart never share a score. */
  lemma OneMsApart(a: real, b: real)
    requires 0.0 <= a && a + 0.001 <= b
    ensures Ms(a) < Ms(b)
  {
    assert a * 1000.0 + 1.0 <= b * 1000.0;
    assert (a * 1000.0).Floor + 1 <= (b * 1000.0).Floor;
  }

  /** A score that is due at `now` was computed from a time less than one millisecond ahead. */
  lemma DueIsAtMostOneMsEarly(due: real, now: real)
    requires 0.0 <= now && Ms(due) <= Ms(now)
    ensures due - 0.001 < now
  {
    if now <= due - 0.001 {
      OneMsApart(now, due);
      assert false;
    }
  }

  /** The elements of a sequence, as a set. */
  function Elements<T>(s: seq<T>): set<T> {
    set x | x in s
  }

  ghost predicate NoDuplicates<T>(s: seq<T>) {
    forall i, j | 0 <= i < j < |s| :: s[i] != s[j]
  }

  lemma {:induction false} NoDuplicatesCardinality<T>(s: seq<T>)
    requires NoDuplicates(s)
    ensures |Elements(s)| == |s|
  {
    if s != [] {
      var front := s[..|s| - 1];
      NoDuplicatesCardinality(front);
      assert s == front + [s[|s| - 1]];
      assert Elements(s) == Elements(front) + {s[|s| - 1]};
    }
  }
}
