/**
 * How the dashboard fabricates its data: a telemetry sample every tick, a
 * simulated detection on about one tick in fifty, and a detection on demand.
 * Each `Math.random()` call is a parameter (a "draw" in [0, 1)) and
 * `Date.now()` is the parameter `now`, in milliseconds.
 */
module Simulator {
  import opened Types

  /** A value `Math.random()` can return. */
  predicate IsDraw(r: real) { 0.0 <= r < 1.0 }

  function DigitChar(d: nat): (c: char)
    requires d < 10
    ensures '0' <= c <= '9'
  {
    "0123456789"[d]
  }

  /** The value a decimal digit stands for. */
  function DigitValue(c: char): int { c as int - '0' as int }

  /** Reference reading of a digit string: folds the digits left to right, most significant first. */
  function DigitsValue(s: string): int
  {
    if s == [] then 0 else DigitsValue(s[..|s| - 1]) * 10 + DigitValue(s[|s| - 1])
  }

  /** `n.toString()` for a non-negative integer: its decimal digits, with no leading zero. */
  function DecimalString(n: nat): (s: string)
    ensures |s| >= 1
    ensures forall i :: 0 <= i < |s| ==> '0' <= s[i] <= '9'
    ensures (|s| == 1) == (n < 10)
    ensures s[0] == '0' <==> n == 0
    ensures DigitsValue(s) == n
  {
    if n < 10 then [DigitChar(n)]
    else
      var prefix := DecimalString(n / 10);
      assert (prefix + [DigitChar(n % 10)])[..|prefix|] == prefix;
      prefix + [DigitChar(n % 10)]
  }

  /** Different clock readings give different decimal strings, hence different event ids. */
  lemma DecimalStringInjective(a: nat, b: nat)
    requires DecimalString(a) == DecimalString(b)
    ensures a == b
  {
  }

  /** The sample one tick produces from the clock and three draws. */
  function SimulatedSample(now: nat, cpuDraw: real, memoryDraw: real, tempDraw: real): (s: SystemStats)
    requires IsDraw(cpuDraw) && IsDraw(memoryDraw) && IsDraw(tempDraw)
    ensures 15.0 <= s.cpuUsage < 35.0
    ensures 2048.0 <= s.memoryUsage < 2560.0
    ensures 45.0 <= s.temp < 55.0
    ensures s.storageUsed == 45.0 && s.storageTotal == 32.0
    ensures s.timestamp == now
  {
    SystemStats(15.0 + cpuDraw * 20.0, 2048.0 + memoryDraw * 512.0, 45.0 + tempDraw * 10.0, 45.0, 32.0, now)
  }

  /** A tick produces a detection when its draw exceeds 0.98. */
  predicate EventFires(draw: real) { draw > 0.98 }

  function PicsumThumbnail(now: nat): string
  {
    "https://picsum.photos/seed/" + DecimalString(now) + "/800/600"
  }

  /** The simulated detection a firing tick produces. */
  function SimulatedEvent(now: nat, labelDraw: real, scoreDraw: real): (e: FrigateEvent)
    requires IsDraw(labelDraw) && IsDraw(scoreDraw)
    ensures e.id == DecimalString(now)
    ensures e.objectLabel in {"person", "car"}
    ensures e.objectLabel == "person" <==> labelDraw > 0.5
    ensures e.camera == "front_cam" && e.hasClip
    ensures e.startTime * 1000.0 == now as real
    ensures 0.7 <= e.score < 0.95
  {
    FrigateEvent(
      DecimalString(now),
      if labelDraw > 0.5 then "person" else "car",
      "front_cam",
      now as real / 1000.0,
      PicsumThumbnail(now),
      true,
      0.7 + scoreDraw * 0.25)
  }

  /** The detection the "Sim Event" button produces. */
  function ManualEvent(now: nat): (e: FrigateEvent)
    ensures e.id == DecimalString(now)
    ensures e.objectLabel == "person" && e.camera == "front_cam" && e.hasClip
    ensures e.startTime * 1000.0 == now as real
    ensures e.score == 0.88
  {
    FrigateEvent(DecimalString(now), "person", "front_cam", now as real / 1000.0, PicsumThumbnail(now), true, 0.88)
  }

  /** Detections created at different milliseconds have different ids, whichever path created them. */
  lemma EventIdsDistinct(t1: nat, t2: nat, label1: real, score1: real, label2: real, score2: real)
    requires t1 != t2
    requires IsDraw(label1) && IsDraw(score1) && IsDraw(label2) && IsDraw(score2)
    ensures ManualEvent(t1).id != ManualEvent(t2).id
    ensures SimulatedEvent(t1, label1, score1).id != ManualEvent(t2).id
    ensures SimulatedEvent(t1, label1, score1).id != SimulatedEvent(t2, label2, score2).id
  {
  }
}
