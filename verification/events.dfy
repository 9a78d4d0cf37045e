/**
 * The event list, newest first. A simulated detection is put at the head and
 * the list is cut to its first `SimEventCap` entries; a manually triggered
 * detection is put at the head with no cap. The dashboard shows the first
 * `RecentCount` entries and the events view shows the list's length.
 */
module EventFeed {
  import opened Types

  const SimEventCap: nat := 50
  const RecentCount: nat := 5

  /** JavaScript's `slice(0, n)` for a non-negative `n`: the first min(|s|, n) elements. */
  function Take<T>(s: seq<T>, n: nat): (r: seq<T>)
    ensures |r| == Min(|s|, n)
    ensures forall i :: 0 <= i < |r| ==> r[i] == s[i]
  {
    if |s| <= n then s else s[..n]
  }

  /** The simulated-event update: the new event at the head, then at most 50 entries kept. */
  function PrependCapped(e: FrigateEvent, events: seq<FrigateEvent>): (r: seq<FrigateEvent>)
    ensures |r| == Min(|events| + 1, SimEventCap)
    ensures r[0] == e
    ensures forall i :: 1 <= i < |r| ==> r[i] == events[i - 1]
  {
    Take([e] + events, SimEventCap)
  }

  /** The manual-trigger update: the new event at the head, nothing dropped. */
  function Prepend(e: FrigateEvent, events: seq<FrigateEvent>): (r: seq<FrigateEvent>)
    ensures |r| == |events| + 1
    ensures r[0] == e && r[1..] == events
  {
    [e] + events
  }

  /** What the two views derived from the event list display. */
  datatype EventViews = EventViews(recent: seq<FrigateEvent>, total: nat)

  /** The dashboard's "Recent Detections" list and the events view's "Total" counter. */
  function Views(events: seq<FrigateEvent>): (v: EventViews)
    ensures |v.recent| == Min(|events|, RecentCount)
    ensures IsPrefix(v.recent, events)
    ensures v.total == |events|
  {
    EventViews(Take(events, RecentCount), |events|)
  }

  /** Truncating the tail before a prepend does not change the capped result. */
  lemma PrependCappedAbsorbs(e: FrigateEvent, s: seq<FrigateEvent>)
    ensures PrependCapped(e, Take(s, SimEventCap)) == PrependCapped(e, s)
  {
  }

  /** The 50-entry cap never changes what the dashboard shows: both insertion paths give the same five. */
  lemma CapInvisibleOnDashboard(e: FrigateEvent, events: seq<FrigateEvent>)
    ensures Views(PrependCapped(e, events)).recent == Views(Prepend(e, events)).recent
    ensures Views(PrependCapped(e, events)).recent[0] == e
  {
  }

  /** The events listed newest first: the last inserted is at the head. */
  function NewestFirst(es: seq<FrigateEvent>): (r: seq<FrigateEvent>)
    ensures |r| == |es|
    ensures forall i :: 0 <= i < |r| ==> r[i] == es[|es| - 1 - i]
  {
    if es == [] then [] else [es[|es| - 1]] + NewestFirst(es[..|es| - 1])
  }

  /** The list after the given simulated events (oldest first) were inserted into `init`. */
  function AfterSimEvents(init: seq<FrigateEvent>, es: seq<FrigateEvent>): seq<FrigateEvent>
  {
    if es == [] then init
    else PrependCapped(es[|es| - 1], AfterSimEvents(init, es[..|es| - 1]))
  }

  /** The list after the given manual events (oldest first) were inserted into `init`. */
  function AfterManualEvents(init: seq<FrigateEvent>, es: seq<FrigateEvent>): seq<FrigateEvent>
  {
    if es == [] then init
    else Prepend(es[|es| - 1], AfterManualEvents(init, es[..|es| - 1]))
  }

  /** Simulated events only: the list is the newest 50 of everything inserted, newest first. */
  lemma {:induction false} AfterSimEventsIsNewest50(init: seq<FrigateEvent>, es: seq<FrigateEvent>)
    requires es != []
    ensures AfterSimEvents(init, es) == Take(NewestFirst(es) + init, SimEventCap)
  {
    var prev, x := es[..|es| - 1], es[|es| - 1];
    var rest := NewestFirst(prev) + init;
    assert NewestFirst(es) + init == [x] + rest;
    assert AfterSimEvents(init, es) == PrependCapped(x, AfterSimEvents(init, prev));
    if prev == [] {
      assert rest == init;
    } else {
      AfterSimEventsIsNewest50(init, prev);
      PrependCappedAbsorbs(x, rest);
    }
  }

  /** Manual events only: nothing is ever dropped; the inserted events lead, newest first, then `init`. */
  lemma {:induction false} AfterManualEventsKeepsAll(init: seq<FrigateEvent>, es: seq<FrigateEvent>)
    ensures AfterManualEvents(init, es) == NewestFirst(es) + init
  {
    if es != [] {
      var prev, x := es[..|es| - 1], es[|es| - 1];
      AfterManualEventsKeepsAll(init, prev);
      assert NewestFirst(es) + init == [x] + (NewestFirst(prev) + init);
    }
  }

  /** Either kind of insertion. */
  datatype Insertion = Simulated(e: FrigateEvent) | Manual(e: FrigateEvent)

  function Apply(events: seq<FrigateEvent>, op: Insertion): seq<FrigateEvent>
  {
    match op
    case Simulated(e) => PrependCapped(e, events)
    case Manual(e) => Prepend(e, events)
  }

  function ApplyAll(init: seq<FrigateEvent>, ops: seq<Insertion>): seq<FrigateEvent>
  {
    if ops == [] then init else Apply(ApplyAll(init, ops[..|ops| - 1]), ops[|ops| - 1])
  }

  /** The events the insertions carry, oldest first. */
  function Inserted(ops: seq<Insertion>): (es: seq<FrigateEvent>)
    ensures |es| == |ops|
    ensures forall i :: 0 <= i < |ops| ==> es[i] == ops[i].e
  {
    if ops == [] then [] else Inserted(ops[..|ops| - 1]) + [ops[|ops| - 1].e]
  }

  /**
   * Under any mix of simulated and manual insertions the list stays in insertion
   * order, newest first, and only ever loses entries from its tail: it is a
   * prefix of everything inserted (newest first) followed by the initial list,
   * and it never holds fewer than min(|ops| + |init|, 50) entries.
   */
  lemma {:induction false} ApplyAllIsPrefix(init: seq<FrigateEvent>, ops: seq<Insertion>)
    ensures IsPrefix(ApplyAll(init, ops), NewestFirst(Inserted(ops)) + init)
    ensures |ApplyAll(init, ops)| >= Min(|ops| + |init|, SimEventCap)
  {
    if ops != [] {
      var prev, op := ops[..|ops| - 1], ops[|ops| - 1];
      ApplyAllIsPrefix(init, prev);
      var before := ApplyAll(init, prev);
      var all := NewestFirst(Inserted(prev)) + init;
      assert Inserted(ops)[..|ops| - 1] == Inserted(prev);
      assert NewestFirst(Inserted(ops)) + init == [op.e] + all;
      var after := ApplyAll(init, ops);
      assert after == Apply(before, op);
      forall i | 0 <= i < |after| ensures after[i] == ([op.e] + all)[i] {
        if i > 0 {
          assert after[i] == before[i - 1];
        }
      }
    }
  }

  /** After a simulated event the list holds at most 50 entries, whatever came before. */
  lemma SimulatedEventBounds(ops: seq<Insertion>, init: seq<FrigateEvent>)
    requires ops != [] && ops[|ops| - 1].Simulated?
    ensures |ApplyAll(init, ops)| <= SimEventCap
  {
  }

  /** The manual path has no cap: 51 manual insertions into an empty list leave 51 entries. */
  lemma {:induction false} ManualPathUncapped(es: seq<FrigateEvent>)
    requires |es| == SimEventCap + 1
    ensures |AfterManualEvents([], es)| == SimEventCap + 1
  {
    AfterManualEventsKeepsAll([], es);
  }
}
