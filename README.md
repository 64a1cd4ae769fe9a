# InteractiveMap session model

A Dafny model of the client-side session logic of ThirdEye's map component, `InteractiveMap`
(`src/components/interactive-map.js`). The component lets a user right-click points on a globe
to build a path, clear it with a shift-modified context menu, and send it to the relay server
as a `save-path` message. It also shows a connection tracker whose state is Connecting, Online
or Offline. Heartbeats (`ping`) keep the tracker Online. Each heartbeat arms a watchdog that
fires 2001 ms later and sets Offline if the latest recorded heartbeat is more than 2000 ms old.

Files:

- `wrappers.dfy`: the `Option` type, which stands for the component's `null`.
- `globe.dfy`: geographic positions, path points and the resolution of a right-click on the
  globe (`getCoordinatesFromMovementPosition`).
- `session.dfy`: the component's state as a value (`State`), the events it handles (`Event`)
  and the effect of each (`Step`). `Run` runs a sequence of events. This module also holds the
  tracker colour (`TrackerColor`), the button guard (`ButtonIsEnabled`) and the path lemmas.
- `heartbeat.dfy`: the tracker over time. It covers watchdogs that go stale, watchdogs a newer
  heartbeat supersedes, and timelines of timely heartbeats that never go Offline.
- `interactive_map.dfy`: the class `InteractiveMap`, with the component's fields and one method
  per handler. Each event handler is proved to have the effect `Step` gives its event, so the
  lemmas about `Step` and `Run` hold of the class too.

Wall-clock time (`Date.now()`) is an integer argument of the event that reads it. The watchdog
timer is an explicit event, `OnWatchdog(now)` / `Watchdog(now)`, carrying the clock at firing
time. The socket's `emit` becomes a returned `SocketMessage`. Whether the socket exists is the
field `hasSocket`, set on mount. The invariant `Valid()` says that the state only leaves
Connecting, and a heartbeat is only recorded, once the socket exists. That is why `SavePath`
sends exactly when the button is enabled, even though `sendPositionsOverSocket` also checks for
the socket.

Notes on the code's behaviour, which the model follows:

- `connect` sets Online from any state, including Offline (interactive-map.js:60-62).
- The watchdog compares the firing time with the latest recorded heartbeat time
  (interactive-map.js:70-71). A heartbeat recorded in the same millisecond as the one that
  armed the watchdog therefore does not supersede it. `SupersededWatchdogIsNoOp` requires the
  newer heartbeat to be strictly later.
- The watchdog's guard tests the recorded time as a JavaScript truth value. A heartbeat recorded
  at clock 0 never goes stale (`PingIsTruthy`). The lemma that a stale watchdog goes Offline
  therefore requires a non-zero heartbeat time.

## Model

| member | source | states |
|---|---|---|
| `Globe.CoordinatesFromMovementPosition` | src/components/interactive-map.js:104-116 | A pick resolves exactly when the scene exists, its globe has an ellipsoid and the ellipsoid pick hit. It then yields the picked position; otherwise it yields nothing (`null`). |
| `Globe.ClickedPoint` | src/components/interactive-map.js:96-99 | A right-click yields a point exactly when its pick resolves, and that point is projected from the picked position. |
| `SessionState.Step` | src/components/interactive-map.js:60-122 | Only a heartbeat records a time. Only path gestures change the path. Path gestures and saving leave the connection state alone. A watchdog can only keep the state or set Offline. `connect` and `ping` give Online and `connect_failed` and `disconnect` give Offline, from any state. |
| `SessionState.TrackerColorShowsState` | src/components/interactive-map.js:144-157 | The tracker colour (yellow, green, red) reads back as the current connection state, so distinct states never share a colour. |
| `SessionState.PathAccumulatesClicks` | src/components/interactive-map.js:94-101 | With no reset among a sequence of events, the path afterwards is the old path followed by the successfully picked points in click order. Failed picks, saves and connection events add nothing. |
| `SessionState.ResetThenClicks` | src/components/interactive-map.js:118-122 | After a shift-modified context menu, whatever the path was, the path is exactly the points clicked since. |
| `SessionState.SaveChangesNothing` | src/components/interactive-map.js:124-131 | At the level of event sequences, a save leaves the whole state unchanged, whatever events came before. In the class the same guarantee is that `SavePath` has no `modifies` clause. |
| `Heartbeat.OfflineAbsorbsWatchdog` | src/components/interactive-map.js:69-75 | Once Offline, any further watchdog changes nothing. A stale period goes Offline only once. |
| `Heartbeat.WatchdogIdempotent` | src/components/interactive-map.js:69-75 | Firing a watchdog twice in a row has the same effect as firing it once. |
| `Heartbeat.TransportLossOutlivesWatchdog` | src/components/interactive-map.js:78-84 | After `disconnect` or `connect_failed`, a still-pending watchdog leaves the state Offline. |
| `Heartbeat.NoPingKeepsLastPing` | src/components/interactive-map.js:64-68 | Over any events that are not heartbeats, the recorded heartbeat time stays the same. |
| `Heartbeat.StaleWatchdogGoesOffline` | src/components/interactive-map.js:64-75 | After a heartbeat at a non-zero time t and no newer heartbeat, the watchdog firing at t + 2001, or any time later (a late timer), sets Offline. |
| `Heartbeat.SupersededWatchdogIsNoOp` | src/components/interactive-map.js:64-75 | If a heartbeat later than t arrived, and no other heartbeat after it, the watchdog of t changes nothing when it fires at t + 2001. |
| `Heartbeat.TimelinePrefix` | src/components/interactive-map.js:64-75 | After any non-empty prefix of a heartbeat timeline, the state is Online and the recorded heartbeat time is that of the latest heartbeat in the prefix, which only watchdogs follow. |
| `Heartbeat.HeartbeatsKeepOnline` | src/components/interactive-map.js:64-75 | In any timeline of heartbeats and their watchdogs, in clock order, where each heartbeat whose watchdog fires is followed by a newer one within 2000 ms, the state is Online after every non-empty prefix, whatever the state before. |
| `InteractiveMapComponent.InteractiveMap.constructor` | src/components/interactive-map.js:43-46 | A new component has an empty path, state Connecting, no recorded heartbeat and no socket. |
| `InteractiveMapComponent.InteractiveMap.ConnectToServer` | src/components/interactive-map.js:58-59 | Mounting creates the socket and leaves the session state as it was. |
| `InteractiveMapComponent.InteractiveMap.SetConnectionState` | src/components/interactive-map.js:88-92 | Sets the connection state and nothing else. |
| `InteractiveMapComponent.InteractiveMap.OnConnect` | src/components/interactive-map.js:60-62 | `connect` sets Online and changes nothing else. This is `Step` on `Connect`. |
| `InteractiveMapComponent.InteractiveMap.OnPing` | src/components/interactive-map.js:64-68 | `ping` at time now records now and sets Online, leaving the path unchanged. This is `Step` on `Ping(now)`. |
| `InteractiveMapComponent.InteractiveMap.OnWatchdog` | src/components/interactive-map.js:69-75 | A firing watchdog sets Offline exactly when a truthy heartbeat time is recorded and more than 2000 ms have passed since it. Otherwise the state is unchanged. This is `Step` on `Watchdog(now)`. |
| `InteractiveMapComponent.InteractiveMap.OnConnectFailed` | src/components/interactive-map.js:78-80 | `connect_failed` sets Offline from any state. The path and recorded heartbeat are unchanged. |
| `InteractiveMapComponent.InteractiveMap.OnDisconnect` | src/components/interactive-map.js:82-84 | `disconnect` sets Offline from any state. The path and recorded heartbeat are unchanged. |
| `InteractiveMapComponent.InteractiveMap.OnRightClick` | src/components/interactive-map.js:94-101 | A resolved click appends its point, so the path grows by one with earlier points unchanged. A failed pick changes nothing. The path before is always a prefix of the path after. |
| `InteractiveMapComponent.InteractiveMap.ResetPolylinePositions` | src/components/interactive-map.js:118-122 | Empties the path whatever it held. The connection state and heartbeat time are unchanged. |
| `InteractiveMapComponent.InteractiveMap.OnContextMenu` | src/components/interactive-map.js:166-170 | With shift the path is emptied. Without shift nothing changes. |
| `InteractiveMapComponent.InteractiveMap.SendPositionsOverSocket` | src/components/interactive-map.js:133-137 | Emits one `save-path` message carrying the given points exactly when the socket exists. |
| `InteractiveMapComponent.InteractiveMap.SavePath` | src/components/interactive-map.js:124-131 | Emits exactly one `save-path` message, carrying the whole current path, exactly when `ButtonIsEnabled` holds (Online and a non-empty path, line 159). Otherwise it emits nothing, and it never changes the state. |
| `InteractiveMapComponent.ClickThreeAndSave` | src/components/interactive-map.js:43-137 | The end-to-end session: connect, heartbeat, three resolved clicks, then save sends exactly those three points. After a disconnect, the tracker is red and a save sends nothing. |

## Left out

- The relay server (`server/index.js`): the heartbeat emitter, its shared interval handle, the file writer and the listening port are I/O, timers and concurrency. It is not part of this model.
- `src/App.js` only wraps the component and has no logic.
- React's `setState` is asynchronous and may batch updates. The model applies each handler's update at once, in the order the events are handled.
- Real timers and sockets: the 2001 ms `setTimeout` is an explicit watchdog event. Nothing in the class forces that event to fire exactly 2001 ms after its heartbeat; only the `Heartbeat` lemmas assume this timing.
- `componentWillUnmount` closes the socket. The model does not represent a closed socket.
- `getCoordinatesFromMovementPosition` throws when `this.viewer` is not set yet. The model only covers the mounted viewer, whose scene may be missing.
- The Cesium geometry (the ellipsoid pick and the conversions between Cartesian and geographic coordinates) is floating-point library code. The pick's outcome is a parameter, and a point is identified by the geographic position it was projected from.
- Render details: style objects, the state label, entity rendering, and the button's opacity and cursor strings. The tracker's `default` branch (hidden tracker) cannot be reached, because the connection state only ever holds the three named values.
- The context-menu listener is added again on every render, so one shift-modified context menu may reset the path several times. Resetting is idempotent, so the model handles it once.
