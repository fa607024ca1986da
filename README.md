# next-alert: a verified model of the alert store and its items

`next-alert` is a toast/alert widget for React. An `AlertProvider` holds one
state cell, the ordered list of active alerts, and hands out `addAlert`,
`removeAlert` and `clearAlerts` through the `useAlert` hook. The `Alerts`
component anchors itself on the screen and renders one `Alert` item per stored
alert. Each item schedules a timer that removes its own id from the store.

This project models those three files in Dafny:

- `wrappers.dfy` (module `Wrappers`): `Option` for omitted props and a missing provider, and `Result` for the hook's thrown error.
- `alert_context.dfy` (module `AlertContext`): the `Alert` record and the store.
  - The state cell is the class `AlertStore`, with an `alerts: seq<Alert>` field.
  - Its methods replace that field by pure sequence functions: `Appended`, `Removed`, `Cleared`.
  - `UseAlert` is the hook.
  - Lemmas state what removal keeps and drops.
- `alert.dfy` (module `AlertComponent`): one `Alert` item.
  - Its prop defaults.
  - The timer its mount effect schedules: the delay, and the id the timer removes.
  - The category colours and the three animation targets.
- `alerts.dfy` (module `AlertsComponent`): the `Alerts` list.
  - Its prop defaults and the `positionStyle` anchors.
  - `RenderItems`: the mapping from the stored list to item elements.
  - The combined dismissal schedule.

React state is modelled as one cell that each update replaces by a function of
its previous value. `Date.now()` is passed in as the parameter `now`. Because
ids are millisecond timestamps, the model does not assume they are unique.

Behaviour of the code that the model keeps:

- Ids are `Date.now()` timestamps, so two alerts added in the same millisecond share an id, and one `removeAlert` deletes both (`SameTimestampRemovedTogether`).
- `removeAlert` filters out every record with the id, so the length drops by their count (`RemovedLength`); it drops by exactly one only when the id occurs once (`RemovedUniqueShortensByOne`).
- `addAlert` returns nothing.
- The `clearTimeout` cleanup is commented out (`src/components/Alert.tsx:68`), so a timer may fire after `clearAlerts`. `LateRemovalAfterClear` shows that this changes nothing while no newer record has the stale id.

## Model

| member | source | states |
|---|---|---|
| `AlertContext.NewAlert` | src/AlertContext.tsx:91 | the new record's id is the supplied timestamp; its title, message and category are the arguments |
| `AlertContext.Appended` | src/AlertContext.tsx:92 | adding grows the list by exactly one; the earlier records form an unchanged prefix; the new record is last |
| `AlertContext.Removed` | src/AlertContext.tsx:100 | a record survives removal exactly when it was in the list and its id differs from the removed id; the list never grows |
| `AlertContext.Cleared` | src/AlertContext.tsx:107 | clearing yields the empty list |
| `AlertContext.AlertStore.constructor` | src/AlertContext.tsx:82 | a provider starts with the empty list |
| `AlertContext.AlertStore.AddAlert` | src/AlertContext.tsx:90-93 | the cell becomes the old list plus one record at the end, built from the arguments and the timestamp |
| `AlertContext.AlertStore.RemoveAlert` | src/AlertContext.tsx:99-101 | the cell becomes the filtered list: the same records minus those with that id; its length drops by their count |
| `AlertContext.AlertStore.ClearAlerts` | src/AlertContext.tsx:106-108 | the cell becomes empty whatever it held |
| `AlertContext.UseAlert` | src/AlertContext.tsx:124-130 | fails with "useAlert must be used within an AlertProvider" exactly when no provider is present; otherwise returns the provider's store |
| `AlertContext.RemovedConcat` | src/AlertContext.tsx:100 | removal distributes over concatenation, so the surviving records keep their relative order |
| `AlertContext.RemovedLength` | src/AlertContext.tsx:100 | the length after removal is the old length minus the number of records carrying the id |
| `AlertContext.RemovedUniqueShortensByOne` | src/AlertContext.tsx:100 | when exactly one record carries the id, removal shortens the list by one |
| `AlertContext.RemovedAbsent` | src/AlertContext.tsx:100 | removing an id that no record carries leaves the list unchanged |
| `AlertContext.RemovedIdempotent` | src/AlertContext.tsx:100 | removing the same id twice equals removing it once |
| `AlertContext.RemovedIsSubsequence` | src/AlertContext.tsx:100 | the list after removal is a subsequence of the list before |
| `AlertContext.RemovedMultiplicity` | src/AlertContext.tsx:100 | each record keeps its number of occurrences unless it has the removed id, in which case none is left |
| `AlertContext.RemoveAfterAppend` | src/AlertContext.tsx:91-100 | adding a record and then removing its id gives the same list as removing that id before the add |
| `AlertContext.SameTimestampRemovedTogether` | src/AlertContext.tsx:91-100 | two adds in the same millisecond give two records with one id; one removal of that id deletes both and leaves the earlier list filtered |
| `AlertContext.TwoAddsKeepCallOrder` | src/AlertContext.tsx:90-93 | adding ("T1","M1",success) and then ("T2","M2",error) to an empty store gives exactly those two records, in call order |
| `AlertContext.LateRemovalAfterClear` | src/components/Alert.tsx:58-69 | an uncancelled timer that fires after a clear leaves the new list unchanged when no newer record has its id |
| `AlertComponent.WithDefaults` | src/components/Alert.tsx:45-55 | an omitted type is success, an omitted duration is 3000 and an omitted direction is right; given props pass through unchanged |
| `AlertComponent.DismissDelay` | src/components/Alert.tsx:65 | the delay is the duration when the index is 0, at least the duration for a non-negative index, and more than it for a positive one |
| `AlertComponent.DismissDelayIncreasing` | src/components/Alert.tsx:65 | the delay strictly increases with the index, by exactly 500 ms per position |
| `AlertComponent.DismissTimer` | src/components/Alert.tsx:58-69 | the scheduled timer targets the item's own `idElement`, with the staggered delay |
| `AlertComponent.FireTimer` | src/components/Alert.tsx:60-63 | when the timer fires, the store loses exactly the records carrying the target id |
| `AlertComponent.TimerRemovesOwnId` | src/components/Alert.tsx:62 | after the timer fires, no record has the item's id, and the records before and after keep their order |
| `AlertComponent.ColorOf` | src/components/Alert.tsx:71-75 | every category maps to a seven-character `#rrggbb` hex colour |
| `AlertComponent.ColorOfInjective` | src/components/Alert.tsx:71-75 | distinct categories get distinct colours |
| `AlertComponent.EntryOffset` | src/components/Alert.tsx:77-81 | left/right use the x axis and top/bottom the y axis; the magnitude is 100; the offset is negative exactly for left and top |
| `AlertComponent.RestingOffset` | src/components/Alert.tsx:83-87 | the resting offset is 0, on the same axis as the entry offset |
| `AlertComponent.ExitMirrorsEntry` | src/components/Alert.tsx:89-93 | of the `initial`, `animate` and `exit` targets (`InitialState`, `AnimateState`, `ExitState`): the exit state equals the initial state (transparent, at the entry offset); the animate state is opaque and differs only on the same axis |
| `AlertsComponent.PositionStyleOf` | src/components/Alerts.tsx:76-90 | top-* anchor top 0 and the others bottom 0; *-left anchor left 0 and *-right anchor right 0; center-* set left 50% and translateX(-50%); exactly one horizontal edge is set |
| `AlertsComponent.ListWithDefaults` | src/components/Alerts.tsx:62-68 | an omitted position is top-right, an omitted direction is right and an omitted timer is 3000 |
| `AlertsComponent.RenderItems` | src/components/Alerts.tsx:97-107 | `alerts.map` with the callback `ItemFor` (lines 98-107) gives one element per stored alert, in store order; element i gets idDelay i, key and idElement equal to the alert's id, the alert's title, message and type, the shared direction, and duration equal to the timer |
| `AlertsComponent.DismissalSchedule` | src/components/Alerts.tsx:97-107 | the timer that item i's effect schedules on this render has delay timer + i * 500 ms and removes the item's own id; it shows that alert's title, message and category |
| `AlertsComponent.RenderAfterAppend` | src/components/Alerts.tsx:97-112 | adding an alert leaves the elements of the earlier alerts unchanged (same key, index and timer) and adds one element at the end |

## Left out

- React rendering, context plumbing and `useState`/`useEffect` scheduling are not modelled. These are framework semantics.
- Effect re-runs are not modelled. `removeAlert` is a new function on every provider render, so the effect dependencies at `src/components/Alert.tsx:69` change and the effect may schedule further timers. Each such timer would use the item's index at that moment, and none is cancelled, so the actual dismissal is the earliest of these timers.
- `setTimeout` wall-clock behaviour is left out. So is its clamping of negative delays to 0. Only the delay value and the removed id are modelled.
- `Date.now()` is left out; the timestamp is a parameter.
- JavaScript numbers are modelled as unbounded integers. Timestamps and durations are whole milliseconds, and they stay far below 2^53, past which doubles lose precision.
- framer-motion transitions, `AnimatePresence` and the progress bar are left out. The progress bar's `duration / 1000` is floating point.
- Style literals other than the colour, offset and anchor maps are left out, and so is `console.log`.
- `passFunction` and `children` are left out. The store never sets `passFunction`, and `children` are opaque React nodes.
- The extra HTML/motion props that `Alerts` spreads onto each item after the explicit ones are left out. They could override an item's `title` attribute.
- src/index.tsx is not part of this model; it holds re-exports and type aliases only.
- test/blah.test.tsx is not part of this model; it calls functions that do not exist and asserts nothing.
- tsup.config.ts is not part of this model; it is build configuration.
