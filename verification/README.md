# NexSentri dashboard state model

NexSentri is a browser dashboard for a camera rig. Its root component keeps
three pieces of state and changes them from two places.

- A two-second timer makes a synthetic telemetry sample. The sample becomes
  the "current stats" and is appended to a rolling history of at most 20
  samples; the oldest sample is dropped first.
- On about one tick in fifty the same timer makes a simulated detection. It is
  put at the head of the event list, and the list is cut to 50 entries.
- The "Sim Event" button puts a detection at the head of the event list. This
  path has no cap.
- Two views are derived from the event list. The dashboard shows the first
  five events, and the events page shows the list's length.

The project models these updates in Dafny and proves what they guarantee:

- the window and ordering of the history;
- the bounds and order of the event list under either insertion path;
- that event insertion leaves the stats alone;
- the value ranges of the synthetic data;
- that events made at different milliseconds get different ids.

Files:

- `types.dfy` (module `Types`): the `FrigateEvent` and `SystemStats` records.
  The field `label` is called `objectLabel`, because `label` is a Dafny keyword.
- `telemetry.dfy` (module `Telemetry`): the history update `Roll`, the reference
  window `LastN`, and the lemmas that connect them.
- `events.dfy` (module `EventFeed`): both insertion paths, the two views, and
  lemmas about any sequence of insertions.
- `simulator.dfy` (module `Simulator`): how samples, simulated detections and
  manual detections are built. The clock reading and the random draws are
  parameters.
- `app.dfy` (module `Dashboard`): class `App`. It holds the component's state,
  and its methods are the timer callback and the button handler.

Facts about the code that bound the model:

- The code has no REST polling, no message-broker subscription and no upsert by
  event id. Events enter the list only through the two paths above.
- The cap of 50 applies only to the timer's simulated events (App.tsx:68).
- The manual button path (App.tsx:87) has no cap, so the list can grow past 50
  until the next simulated event cuts it back.

## Model

| member | source | states |
|---|---|---|
| Telemetry.Roll | App.tsx:50-54 | one history update: the new sample is last; the sample is appended while under 20; at 20 or more exactly the first element is dropped; a history within 20 stays within 20 |
| Telemetry.RollIsWindow | App.tsx:51-52 | from a history within the cap, one update gives exactly the newest 20 of old history plus the sample |
| Telemetry.HistoryAfterIsWindow | App.tsx:50-53 | after any sequence of ticks from empty, the history equals the last min(n, 20) samples in insertion order |
| Telemetry.HistoryAfterBounded | App.tsx:51-52 | the history length is min(n, 20), never above 20, and its last element is the newest sample |
| Telemetry.HistoryAfter25 | App.tsx:50-53 | after 25 ticks the history holds samples 6 to 25 |
| Telemetry.LastNAppend | App.tsx:51-53 | windowing before appending one sample gives the same window as windowing after |
| EventFeed.Take | App.tsx:134 | `slice(0, n)`: length min(|s|, n), and each element equals the one at the same position in the input |
| EventFeed.PrependCapped | App.tsx:68 | simulated insertion: the new event is element 0; the length is min(old + 1, 50); every later element is the old list's element one position earlier |
| EventFeed.Prepend | App.tsx:87 | manual insertion: the new event is element 0; the length grows by exactly one; the tail is the old list unchanged |
| EventFeed.Views | App.tsx:134-146 | the dashboard list is a prefix of the events of length min(|events|, 5); the total equals |events| |
| EventFeed.PrependCappedAbsorbs | App.tsx:68 | cutting the list to 50 before a simulated insertion does not change the result |
| EventFeed.CapInvisibleOnDashboard | App.tsx:134 | the dashboard's five events are the same under either insertion path, and the new event is first |
| EventFeed.NewestFirst | App.tsx:68-87 | reference order of the event list: element i is the (i+1)-th most recently inserted event |
| EventFeed.AfterSimEventsIsNewest50 | App.tsx:68 | after one or more simulated insertions only, the list is the first 50 entries of (all inserted events, newest first, then the initial list); at least one insertion is needed because an initial list longer than 50 is left as it is |
| EventFeed.AfterManualEventsKeepsAll | App.tsx:87 | after manual insertions only, nothing is dropped: the inserted events come newest first, then the initial list |
| EventFeed.ApplyAllIsPrefix | App.tsx:68-87 | under any mix of insertions, the list is a prefix of all inserted events (newest first) followed by the initial list, so order is kept and only the tail is lost; and it holds at least min(insertions + initial length, 50) entries |
| EventFeed.SimulatedEventBounds | App.tsx:68 | right after a simulated insertion, the list holds at most 50 entries, however long it was |
| EventFeed.ManualPathUncapped | App.tsx:87 | the manual path has no cap: 51 manual insertions into an empty list leave 51 entries |
| Simulator.DecimalString | App.tsx:60 | `now.toString()`: a non-empty string of decimal digits that, read left to right, has the value `now`; it has one digit exactly when now < 10, and it starts with '0' only for 0 |
| Simulator.DecimalStringInjective | App.tsx:60 | different clock readings give different id strings (from the value round trip) |
| Simulator.EventIdsDistinct | App.tsx:59-86 | detections created at different milliseconds have different ids, on either path |
| Simulator.SimulatedSample | App.tsx:39-47 | a sample has CPU in [15, 35), memory in [2048, 2560), temperature in [45, 55), storage 45 of 32, and the tick's timestamp |
| Simulator.SimulatedEvent | App.tsx:57-67 | a simulated detection has the clock as its id; its label is "person" exactly when the draw exceeds 0.5, otherwise "car"; camera "front_cam"; a clip; start time now/1000 seconds; score in [0.7, 0.95) |
| Simulator.ManualEvent | App.tsx:76-86 | a manual detection has the clock as its id, label "person", camera "front_cam", a clip, start time now/1000 seconds and score 0.88 |
| Dashboard.App.constructor | App.tsx:29-33 | the state starts with no events, an empty history and the initial stats record |
| Dashboard.App.RecordStats | App.tsx:49-54 | the sample becomes current and joins the history as one `Roll`; the history stays the newest 20 samples and ends with the current stats; events are unchanged |
| Dashboard.App.AddSimulatedEvent | App.tsx:68 | events become `PrependCapped` of the old list; the current stats and the history are unchanged, and the class invariant is kept |
| Dashboard.App.TriggerManualEvent | App.tsx:76-88 | events become the manual detection prepended to the old list; the current stats and the history are unchanged, and the class invariant is kept |
| Dashboard.App.Tick | App.tsx:37-71 | one timer run: current stats become the sample built from the draws, the history rolls, and the event list changes only when the fire draw exceeds 0.98 |

## Left out

- Timer scheduling and teardown (`setInterval`, `clearInterval`) and React's
  state plumbing are not modelled. Each tick is one call to `App.Tick`. The
  `prev =>` updater form becomes a read of the field.
- `Math.random()` is not modelled. Each draw is a parameter in [0, 1).
  `Date.now()` is a `nat` parameter.
- JavaScript numbers are modelled as exact `real` values, so floating-point
  rounding is not captured. The ranges proved for samples and scores hold of
  the exact values.
- `now.toString()` is modelled as the decimal digits of a non-negative integer.
  Negative clock readings and exponent notation (numbers of 10^21 or more) are
  not modelled.
- The view selection, mobile menu state and configuration records
  (`nodeRedConfig`, `cameraConfig`) are UI and form state. The core logic never
  changes them, so they are not modelled.
- Rendering, the camera feed, the AI assistant, settings and history components,
  and the AI service wrappers are UI, browser I/O or external-service code.
  They are not part of this model.
