/**
 * The Status Tracker: `status()` is `distinctUntilChanged` over every value
 * pushed into the `_status` BehaviorSubject (mqtt.service.ts:139-142).
 */
module StatusTracker {

  /** No two consecutive elements are equal. */
  ghost predicate NoRepeats<T>(s: seq<T>)
  {
    forall i, j :: 0 <= i < j < |s| && j == i + 1 ==> s[i] != s[j]
  }

  /**
   * `distinctUntilChanged`: each value is emitted unless it equals the one
   * before it.
   */
  function DistinctUntilChanged<T(==)>(s: seq<T>): (r: seq<T>)
    ensures |r| <= |s|
    ensures |s| > 0 ==> |r| > 0 && r[0] == s[0] && r[|r| - 1] == s[|s| - 1]
    ensures NoRepeats(r)
    decreases |s|
  {
    if |s| <= 1 then s
    else if s[0] == s[1] then DistinctUntilChanged(s[1..])
    else [s[0]] + DistinctUntilChanged(s[1..])
  }

  /** A sequence with no repeats passes through unchanged. */
  lemma {:induction false} NoRepeatsPassThrough<T>(s: seq<T>)
    requires NoRepeats(s)
    ensures DistinctUntilChanged(s) == s
    decreases |s|
  {
    if |s| > 1 {
      assert NoRepeats(s[1..]) by {
        forall i, j | 0 <= i < j < |s[1..]| && j == i + 1 ensures s[1..][i] != s[1..][j] {
          assert s[i + 1] != s[j + 1];
        }
      }
      NoRepeatsPassThrough(s[1..]);
      assert s[0] != s[1];
      calc {
        DistinctUntilChanged(s);
        [s[0]] + DistinctUntilChanged(s[1..]);
        [s[0]] + s[1..];
        s;
      }
    }
  }

  /** Filtering twice is filtering once. */
  lemma DistinctUntilChangedIdempotent<T>(s: seq<T>)
    ensures DistinctUntilChanged(DistinctUntilChanged(s)) == DistinctUntilChanged(s)
  {
    NoRepeatsPassThrough(DistinctUntilChanged(s));
  }

  /** One step of the operator: the head is emitted unless the next value repeats it. */
  lemma DistinctUntilChangedStep<T>(s: seq<T>)
    requires |s| > 1
    ensures DistinctUntilChanged(s) == (if s[0] == s[1] then [] else [s[0]]) + DistinctUntilChanged(s[1..])
  {
  }

  /**
   * The operator is incremental: one more raw value adds one emission
   * exactly when it differs from the latest raw value.
   */
  lemma {:induction false} DistinctUntilChangedAppend<T>(s: seq<T>, x: T)
    requires |s| > 0
    ensures DistinctUntilChanged(s + [x]) ==
      DistinctUntilChanged(s) + (if s[|s| - 1] == x then [] else [x])
    decreases |s|
  {
    var t := s + [x];
    if |s| == 1 {
      assert t == [s[0], x] && t[1..] == [x];
      DistinctUntilChangedStep(t);
    } else {
      assert t[0] == s[0] && t[1] == s[1] && t[1..] == s[1..] + [x];
      assert s[1..][|s[1..]| - 1] == s[|s| - 1];
      DistinctUntilChangedAppend(s[1..], x);
      DistinctUntilChangedStep(t);
      DistinctUntilChangedStep(s);
    }
  }
}
