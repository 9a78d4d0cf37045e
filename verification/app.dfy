/**
 * The dashboard component's mutable state and the three handlers that change
 * it: the timer callback, its occasional simulated detection, and the manual
 * "Sim Event" button. Each React state setter becomes an assignment to a field.
 */
module Dashboard {
  import opened Types
  import opened Telemetry
  import opened EventFeed
  import opened Simulator

  /** The six `Math.random()` results one timer tick consumes, in the order it draws them. */
  datatype TickDraws = TickDraws(cpu: real, memory: real, temp: real, fire: real, kind: real, score: real)
  {
    predicate Valid() {
      IsDraw(cpu) && IsDraw(memory) && IsDraw(temp) && IsDraw(fire) && IsDraw(kind) && IsDraw(score)
    }
  }

  class App {
    var currentStats: SystemStats
    var statsHistory: seq<SystemStats>
    var events: seq<FrigateEvent>
    /** Every sample recorded so far, oldest first. */
    ghost var samples: seq<SystemStats>

    /**
     * The history is the window of the newest 20 samples, and the current stats
     * are the newest sample (or the initial record before the first tick).
     */
    ghost predicate Valid()
      reads this
    {
      && statsHistory == LastN(samples, HistoryCap)
      && currentStats == (if samples == [] then InitialStats else samples[|samples| - 1])
    }

    constructor ()
      ensures Valid()
      ensures samples == [] && statsHistory == [] && events == []
      ensures currentStats == InitialStats
    {
      currentStats := InitialStats;
      statsHistory := [];
      events := [];
      samples := [];
    }

    /** The stats half of the timer callback: the sample becomes current and joins the history. */
    method RecordStats(sample: SystemStats)
      requires Valid()
      modifies this
      ensures Valid()
      ensures samples == old(samples) + [sample]
      ensures currentStats == sample
      ensures statsHistory == Roll(old(statsHistory), sample)
      ensures |statsHistory| <= HistoryCap && statsHistory[|statsHistory| - 1] == currentStats
      ensures events == old(events)
    {
      currentStats := sample;
      var next := statsHistory + [sample];
      if |next| > HistoryCap {
        next := next[1..];
      }
      statsHistory := next;
      RollIsWindow(LastN(samples, HistoryCap), sample);
      LastNAppend(samples, sample, HistoryCap);
      samples := samples + [sample];
    }

    /** The event half of the timer callback, when it fires. */
    method AddSimulatedEvent(e: FrigateEvent)
      requires Valid()
      modifies this`events
      ensures Valid()
      ensures events == PrependCapped(e, old(events))
      ensures currentStats == old(currentStats) && statsHistory == old(statsHistory)
    {
      events := Take([e] + events, SimEventCap);
    }

    /** The "Sim Event" button handler. */
    method TriggerManualEvent(now: nat)
      requires Valid()
      modifies this`events
      ensures Valid()
      ensures events == Prepend(ManualEvent(now), old(events))
      ensures currentStats == old(currentStats) && statsHistory == old(statsHistory)
    {
      var newEvent := ManualEvent(now);
      events := [newEvent] + events;
    }

    /** One run of the two-second timer callback. */
    method Tick(now: nat, draws: TickDraws)
      requires Valid() && draws.Valid()
      modifies this
      ensures Valid()
      ensures currentStats == SimulatedSample(now, draws.cpu, draws.memory, draws.temp)
      ensures samples == old(samples) + [currentStats]
      ensures statsHistory == Roll(old(statsHistory), currentStats)
      ensures events == if EventFires(draws.fire)
                        then PrependCapped(SimulatedEvent(now, draws.kind, draws.score), old(events))
                        else old(events)
    {
      var newStat := SimulatedSample(now, draws.cpu, draws.memory, draws.temp);
      RecordStats(newStat);
      if EventFires(draws.fire) {
        var newEvent := SimulatedEvent(now, draws.kind, draws.score);
        AddSimulatedEvent(newEvent);
      }
    }
  }
}
