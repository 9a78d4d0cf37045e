/**
 * The two records the dashboard keeps in its state: a detection event and a
 * telemetry sample. The source's JavaScript numbers are modelled as `real`
 * (exact arithmetic, no floating-point rounding); a millisecond clock reading
 * is an integer.
 */
module Types {

  /** One detection, newest first in the event list. `startTime` is in seconds. */
  datatype FrigateEvent = FrigateEvent(
    id: string,
    objectLabel: string,  // the TypeScript field `label` (a Dafny keyword)
    camera: string,
    startTime: real,
    thumbnail: string,
    hasClip: bool,
    score: real)

  /** One system-health reading; `timestamp` is the clock in milliseconds. */
  datatype SystemStats = SystemStats(
    cpuUsage: real,
    memoryUsage: real,
    temp: real,
    storageUsed: real,
    storageTotal: real,
    timestamp: int)

  /** The "current stats" the dashboard shows before the first tick. */
  const InitialStats := SystemStats(0.0, 0.0, 0.0, 0.0, 32.0, 0)

  function Min(a: int, b: int): int { if a < b then a else b }

  /** `p` is a prefix of `s`. */
  predicate IsPrefix<T(==)>(p: seq<T>, s: seq<T>) { |p| <= |s| && p == s[..|p|] }
}
