/**
 * The bounded log of a simulated telemetry panel: each tick keeps the newest
 * entries of the previous log (JavaScript's `prev.slice(-keep)`) and appends one
 * new message. Both OperationsSection (keep 5) and HUDOverlay (keep 4) use it.
 */
module LogTail {
  /** The last k elements of s, or all of s when it is shorter. */
  function Last<T>(s: seq<T>, k: nat): (r: seq<T>)
    ensures |r| == if |s| < k then |s| else k
    ensures r == s[|s| - |r|..]
  {
    if |s| <= k then s else s[|s| - k..]
  }

  /** `s.slice(-k)`: a negative start counts from the end; -0 is 0, the whole array. */
  function SliceFromEnd<T>(s: seq<T>, k: nat): seq<T> {
    if k == 0 then s else Last(s, k)
  }

  /** One tick: the newest `keep` entries of the previous log, then the new message. */
  function Append<T>(prev: seq<T>, keep: nat, msg: T): (r: seq<T>)
    ensures keep > 0 ==> |r| == (if |prev| < keep then |prev| else keep) + 1
    ensures |r| > 0 && r[|r| - 1] == msg
    ensures keep > 0 ==> r[..|r| - 1] == prev[|prev| - (|r| - 1)..]
  {
    SliceFromEnd(prev, keep) + [msg]
  }

  /** The log after one tick per message of ms, in order. */
  function AppendAll<T>(init: seq<T>, keep: nat, ms: seq<T>): seq<T>
    decreases |ms|
  {
    if |ms| == 0 then init else Append(AppendAll(init, keep, ms[..|ms| - 1]), keep, ms[|ms| - 1])
  }

  /** One tick on a full window is the window of the sequence with the message added. */
  lemma WindowStep<T>(s: seq<T>, keep: nat, m: T)
    requires keep > 0
    ensures Append(Last(s, keep + 1), keep, m) == Last(s + [m], keep + 1)
  {
    var w := Last(s, keep + 1);
    assert SliceFromEnd(w, keep) == Last(w, keep);
    if |s| <= keep {
      assert w == s && Last(w, keep) == s;
      assert Last(s + [m], keep + 1) == s + [m];
    } else {
      assert Last(w, keep) == s[|s| - keep..];
      assert Last(s + [m], keep + 1) == (s + [m])[|s| - keep..];
      assert (s + [m])[|s| - keep..] == s[|s| - keep..] + [m];
    }
  }

  /**
   * A sliding window: starting from a log no longer than keep + 1, the log after any
   * number of ticks is exactly the last keep + 1 entries of the initial log followed
   * by every message so far.
   */
  lemma {:induction false} AppendAllWindow<T>(init: seq<T>, keep: nat, ms: seq<T>)
    requires keep > 0 && |init| <= keep + 1
    ensures AppendAll(init, keep, ms) == Last(init + ms, keep + 1)
    decreases |ms|
  {
    if |ms| == 0 {
      assert init + ms == init;
    } else {
      var front := ms[..|ms| - 1];
      var m := ms[|ms| - 1];
      assert ms == front + [m];
      assert init + ms == (init + front) + [m];
      AppendAllWindow(init, keep, front);
      WindowStep(init + front, keep, m);
    }
  }

  /** After n ticks the log holds min(|init| + n, keep + 1) entries, the newest message last. */
  lemma LogLength<T>(init: seq<T>, keep: nat, ms: seq<T>)
    requires keep > 0 && |init| <= keep + 1
    ensures var log := AppendAll(init, keep, ms);
      && |log| == (if |init| + |ms| < keep + 1 then |init| + |ms| else keep + 1)
      && (|ms| > 0 ==> log[|log| - 1] == ms[|ms| - 1])
  {
    AppendAllWindow(init, keep, ms);
  }
}
