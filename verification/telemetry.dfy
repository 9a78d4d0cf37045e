/**
 * The rolling telemetry history: every timer tick appends the new sample and,
 * when the history then holds more than `HistoryCap` samples, drops the oldest.
 */
module Telemetry {
  import opened Types

  const HistoryCap: nat := 20

  /** Reference definition of the window: the last min(|s|, n) elements of `s`, in order. */
  function LastN<T>(s: seq<T>, n: nat): (r: seq<T>)
    ensures |r| == Min(|s|, n)
    ensures forall i :: 0 <= i < |r| ==> r[i] == s[|s| - |r| + i]
  {
    if |s| <= n then s else s[|s| - n..]
  }

  /**
   * One history update as the timer callback writes it, for any previous
   * history: append the sample, then remove the first element if the copy is
   * longer than the cap (at most one element is removed).
   */
  function Roll(prev: seq<SystemStats>, x: SystemStats): (next: seq<SystemStats>)
    ensures |next| > 0 && next[|next| - 1] == x
    ensures |prev| < HistoryCap ==> next == prev + [x]
    ensures |prev| >= HistoryCap ==> next == prev[1..] + [x]
    ensures |prev| <= HistoryCap ==> |next| <= HistoryCap
  {
    var next := prev + [x];
    if |next| > HistoryCap then next[1..] else next
  }

  /** The history after the given samples were recorded, oldest first, starting from an empty history. */
  function HistoryAfter(samples: seq<SystemStats>): seq<SystemStats>
  {
    if samples == [] then []
    else Roll(HistoryAfter(samples[..|samples| - 1]), samples[|samples| - 1])
  }

  /** Taking the window before or after appending one element gives the same window. */
  lemma LastNAppend<T>(s: seq<T>, x: T, n: nat)
    requires n > 0
    ensures LastN(LastN(s, n) + [x], n) == LastN(s + [x], n)
  {
  }

  /** Starting from a history within the cap, one update keeps exactly the newest `HistoryCap` samples. */
  lemma RollIsWindow(prev: seq<SystemStats>, x: SystemStats)
    requires |prev| <= HistoryCap
    ensures Roll(prev, x) == LastN(prev + [x], HistoryCap)
  {
  }

  /** After any number of ticks from empty, the history is the last min(n, 20) samples in insertion order. */
  lemma {:induction false} HistoryAfterIsWindow(samples: seq<SystemStats>)
    ensures HistoryAfter(samples) == LastN(samples, HistoryCap)
  {
    if samples != [] {
      var init, x := samples[..|samples| - 1], samples[|samples| - 1];
      HistoryAfterIsWindow(init);
      assert samples == init + [x];
      RollIsWindow(LastN(init, HistoryCap), x);
      LastNAppend(init, x, HistoryCap);
    }
  }

  /** The history never holds more than 20 samples, and its last element is the newest sample. */
  lemma HistoryAfterBounded(samples: seq<SystemStats>)
    ensures |HistoryAfter(samples)| == Min(|samples|, HistoryCap)
    ensures samples != [] ==> HistoryAfter(samples)[|HistoryAfter(samples)| - 1] == samples[|samples| - 1]
  {
  }

  /** After 25 ticks the history holds samples 6 to 25 (indices 5 to 24). */
  lemma HistoryAfter25(samples: seq<SystemStats>)
    requires |samples| == 25
    ensures HistoryAfter(samples) == samples[5..]
  {
    HistoryAfterIsWindow(samples);
  }
}
