# Cue sync and bat link, modelled in Dafny

This project models the core of a small "cheer bat" system.

- An operator publishes game-state cues (stop / chance / pinch) to a room.
- The cue endpoint keeps, per room, the latest cue record `{seq, cueKey, at}`. GET answers "no change" (204) when the caller already has the current seq. POST replaces the record with one whose seq is one higher.
- A viewer page polls the endpoint. It takes a cue when the seq changes. Unless paused or muted, it forwards the cue to a paired bat over Bluetooth as one pattern byte.
- The viewer turns tap notifications from the bat into counted hits. It keeps a rolling 60-second window of tap times for the hits-per-minute rate, the flame level (1..5) and the "blazing" badge (50 or more per minute).
- A React prototype has an operator screen and a parent screen. Both send two-byte commands `[cmd, intensity]` to a Bluetooth device through a connection hook, `useBleController`.

Modules:

- `Bytes` (`bytes.dfy`): the `byte` type and `LowByte`, which models `n & 0xff`.
- `CueStore` (`cue_store.dfy`): `api/cue.js`. The class `Server` holds the `store` map and runs the handler. Beside it are the pure functions `Get`, `Post` and `Handle`, which give the store afterwards and the response, and the lemmas about them.
- `Viewer` (`viewer.dfy`): `viewer.js`. The class `Viewer` holds the page state, the tap window `tapTimes` and the log of pattern bytes written. Beside it are the pure functions `PatternId`, `Clamp`, `FlameLevel`, `Trimmed` and `ApplyPoll`, and the lemmas about them.
- `Operator` (`operator.dfy`): `App.tsx`. It has `Clamp`, `EncodeCommand`, `CommandOf`, and three classes: `BleController` (the hook), `OperatorScreen` and `ParentScreen`.
- `Sync` (`sync.dfy`): lemmas that relate the components. One is a viewer poll answered by the real handler. Another compares the two `clamp` helpers.

How things are represented:

- Clocks are parameters. `Date.now()` is `now: int` and `nowIso()` is `now: string`.
- The foreign Web Bluetooth calls are replaced by a `Handshake` value. It says how far the connection handshake got.
- The Bluetooth objects become flags: `connected` / `hasPatternChar` in the viewer, and `hasDevice` / `hasChar` in the hook.
- Each write is appended to a log (`patternWrites`, `frames`).
- A JavaScript string that the source tests for truthiness is a `string`. `""` stands for absent or falsy.

## Model

| member | source | states |
|---|---|---|
| `Bytes.LowByte` | App.tsx:34 | `n & 0xff` is n for 0..255 and always congruent to n modulo 256 |
| `CueStore.StatusOf` | api/cue.js:19-24 | 204 exactly for "no change", 405 exactly for an unsupported method, 200 otherwise |
| `CueStore.Touch` | api/cue.js:14-16 | the lazy creation adds exactly the room, gives an unseen room `{seq: 1, cueKey: "stop", at: now}`, and changes no existing record |
| `CueStore.Get` | api/cue.js:10-24 | the GET branch leaves the room present with its seq (1 if unseen), answers 204 iff that seq equals `since`, and otherwise the record |
| `CueStore.Post` | api/cue.js:45-57 | `writeCue` adds only the room, stores `{previous seq + 1, cueKey, now}` there, answers that record, and changes no other room |
| `CueStore.Handle` | api/cue.js:7-43 | 405 exactly for a method other than GET and POST (a missing method is GET), with the store then unchanged; 204 only for GET; no room is ever removed |
| `CueStore.Server.constructor` | api/cue.js:1 | the store starts empty |
| `CueStore.Server.Handler` | api/cue.js:7-43 | the handler's new store and response are those of `Handle`: GET lazily creates the room and answers 204 or the record; POST goes through `WriteCue`; other methods get 405; the stored seqs stay ≥ 1 |
| `CueStore.Server.WriteCue` | api/cue.js:45-58 | the room (defaulted to "demo") gets a record with the previous seq + 1 and the cueKey (defaulted to "stop"), and the response is that record; the stored seqs stay ≥ 1 |
| `CueStore.HandleKeepsSeqsPositive` | api/cue.js:14-16 | every request keeps all stored seqs ≥ 1, and a GET on an unseen room stores `{seq: 1, cueKey: "stop", at: now}` |
| `CueStore.GetContract` | api/cue.js:14-24 | GET answers 204 iff the room's seq equals `since`, and otherwise 200 with the stored record; an existing room's record is unchanged and an unseen room only gets the fresh record |
| `CueStore.MissingSinceGetsRecord` | api/cue.js:12 | a missing or non-numeric `since` counts as 0, so such a GET always gets the record |
| `CueStore.PostContract` | api/cue.js:49-57 | POST stores `{seq: previous seq + 1, cueKey, at: now}`, answers exactly that record, and adds no room but the addressed one and changes no other room's record |
| `CueStore.FirstPostYieldsTwo` | api/cue.js:49-55 | the first POST to an unseen room answers seq 2 |
| `CueStore.PostDefaults` | api/cue.js:33 | a missing room is "demo", a missing cueKey is "stop", an unparsable body is treated as `{}`, and any other cueKey is stored as sent |
| `CueStore.OtherMethods` | api/cue.js:8-42 | a method other than GET and POST gets 405 and leaves the store unchanged; a missing method behaves as GET |
| `CueStore.PostsCountUp` | api/cue.js:53-55 | n successive POSTs to a room answer seq+1, ..., seq+n: strictly increasing by exactly one, with no repeat and no gap |
| `CueStore.PollAfterPost` | api/cue.js:19-24 | after a POST, a poll gets 204 iff its `since` is the new seq, and otherwise gets the new record |
| `CueStore.DemoScenario` | api/cue.js:7-58 | fresh "demo": POST chance answers seq 2; GET since=1 gets that record; GET since=2 gets 204 |
| `Viewer.PatternId` | viewer.js:10-14 | the CUE table's pattern ids: chance → 1, pinch → 2, everything else (stop and unknown keys) → 0 |
| `Viewer.Clamp` | viewer.js:545-549 | with ordered bounds the result lies in them, and a value already in range is returned unchanged |
| `Viewer.FlameLevel` | viewer.js:537 | the flame level always lies in 1..5 |
| `Viewer.Trimmed` | viewer.js:523-529 | trimming keeps a suffix of the window, drops only entries older than now − 60000, and leaves a head that is within the window |
| `Viewer.Viewer.PollQuery` | viewer.js:570-571 | a poll asks for the viewer's room, or "demo" when it is empty, with since = lastSeq |
| `Viewer.Advances` | viewer.js:574-579 | a fetch failure, a 204, a non-OK status or a body that is not an object never yields a cue; a cue taken has a non-zero seq different from lastSeq |
| `Viewer.ApplyPoll` | viewer.js:574-585 | the cue state changes iff the reply advances; then lastSeq becomes the reply's non-zero seq, the cue key becomes the reply's cueKey (or "stop" when it is missing), lastCueAt becomes the reply's `at`, and cueCount goes up by one |
| `Viewer.CountsAsTap` | viewer.js:504-511 | a notification counts unless its first byte is present and zero; an empty payload counts |
| `Viewer.Blazing` | viewer.js:540 | the badge blazes exactly at 50 hits per minute and above |
| `Viewer.BlazingMeansFiftyRecentTaps` | viewer.js:531-540 | with non-decreasing tap times, a blazing rate means at least 50 taps were recorded and the last 50 all lie within the last minute |
| `Viewer.Viewer.constructor` | viewer.js:23-46 | the first-load state: setup screen, room "demo", disconnected, not paused or muted, cue "stop", all counters 0, empty tap window |
| `Viewer.Viewer.SendPattern` | viewer.js:551-558 | one byte `patternId & 255` is written iff connected and the pattern characteristic is held; otherwise nothing happens |
| `Viewer.Viewer.PollCueOnce` | viewer.js:569-596 | the cue state becomes `ApplyPoll` of the outcome; the pattern of the new cue is written only if the seq advanced, neither muted nor paused holds, and the bat is connected |
| `Viewer.Viewer.TrimOldTaps` | viewer.js:523-529 | the shift loop leaves exactly `Trimmed` of the old window |
| `Viewer.Viewer.CountLastMinute` | viewer.js:531-534 | the window is trimmed and its length returned |
| `Viewer.Viewer.AddTap` | viewer.js:515-521 | hitCount goes up by exactly one; `now` is appended and the window is trimmed |
| `Viewer.Viewer.OnTapNotify` | viewer.js:499-513 | a notification counts one tap iff the screen is live, not paused, and the payload is not a present zero first byte; otherwise nothing changes |
| `Viewer.Viewer.RateTick` | viewer.js:620-628 | off the live screen nothing happens; on it the window is trimmed and the rate, flame level and blaze flag are shown |
| `Viewer.Viewer.Go` | viewer.js:389-394 | navigation sets the screen |
| `Viewer.Viewer.ChooseMode` | viewer.js:194-201 | a mode button records the mode |
| `Viewer.Viewer.TogglePause` | viewer.js:239-243 | the pause flag flips |
| `Viewer.Viewer.ToggleMute` | viewer.js:245-249 | the mute flag flips |
| `Viewer.Viewer.StartGame` | viewer.js:211-231 | without a mode nothing changes; otherwise hits, cue, cue count, last-cue time, tap window, pause and mute are reset and the live screen shown, while lastSeq is kept |
| `Viewer.Viewer.EmergencyStop` | viewer.js:254-261 | paused and muted are set and pattern 0 is written whenever connected, with no gate from the flags just set |
| `Viewer.Viewer.Resume` | viewer.js:263-271 | both flags are cleared and the current cue's pattern id (unknown → 0) is written whenever connected |
| `Viewer.Viewer.ConnectFlow` | viewer.js:446-486 | unsupported host: no change; otherwise connected iff every handshake step succeeded, a chosen device's name (default "BatDemo") is kept, and the pattern characteristic, once obtained, stays held |
| `Viewer.Viewer.DisconnectFlow` | viewer.js:488-497 | the link is marked down; the characteristic is not released; the connected-implies-characteristic invariant is kept |
| `Viewer.Viewer.OnGattDisconnected` | viewer.js:460-464 | a spontaneous disconnect marks the link down and keeps the invariant |
| `Viewer.FlameLevelMonotone` | viewer.js:537 | the flame level never decreases as hits grow |
| `Viewer.FlameLevelSteps` | viewer.js:537 | level 5 exactly from 40 hits on, and `floor(hits/10) + 1` below that |
| `Viewer.TrimmedAllRecent` | viewer.js:523-529 | with non-decreasing tap times, every entry left after trimming is ≥ now − 60000 |
| `Viewer.RecordedTapCounted` | viewer.js:515-534 | a tap just recorded at `now` is still in the window (as its last entry) when counted at the same `now` |
| `Viewer.RecentTapsKept` | viewer.js:523-529 | a window whose entries are all recent is left untouched |
| `Viewer.TrimComposes` | viewer.js:523-534 | trimming at t1 and then at a later t2 equals trimming at t2 |
| `Viewer.TrimBeforePush` | viewer.js:515-534 | trimming at t1, pushing a tap and trimming at a later t2 equals pushing the tap and trimming only at t2 |
| `Viewer.AddTapKeepsSorted` | viewer.js:515-518 | appending a time no earlier than the last keeps the trimmed window sorted |
| `Viewer.SortedSuffix` | viewer.js:527 | dropping head entries of a sorted window leaves it sorted |
| `Viewer.SortedAppend` | viewer.js:517 | appending a time no earlier than the last keeps a window sorted |
| `Viewer.SeventyTapsScenario` | viewer.js:531-543 | 70 taps inside the last minute give rate 70, blazing, and (with ≥ 70 hits) flame level 5 |
| `Viewer.PollContract` | viewer.js:574-585 | a poll changes the cue state only when it advances; then lastSeq becomes the reply's seq and cueCount goes up by one; fetch failures, 204 and non-OK replies change nothing; an OK reply with non-zero seq always leaves lastSeq equal to it |
| `Viewer.PollIdempotent` | viewer.js:579-585 | handling the same reply twice counts its cue once |
| `Viewer.StopResumeScenario` | viewer.js:254-271 | connected viewer, cue chance, emergency stop, resume: the bat gets 1, 0, 1 |
| `Viewer.PausedScenario` | viewer.js:579-590 | a paused viewer takes the new cue key but writes nothing |
| `Operator.Clamp` | App.tsx:26-28 | with ordered bounds the result lies in them; a value in range is unchanged; the result is never below min |
| `Operator.EncodeCommand` | App.tsx:30-35 | exactly two bytes: `cmd & 0xff`, then the intensity clamped to 0..100 (so never above 100, saturating at both ends) |
| `Operator.DeviceLabel` | App.tsx:76 | the shown device name is never empty: the device's own name, else "BLE Device" |
| `Operator.OperatorScreen.CanSend` | App.tsx:209 | the state buttons are enabled in demo mode, and otherwise exactly while connected |
| `Operator.CommandOf` | App.tsx:219 | normal → 0, chance → 1, pinch → 2 |
| `Operator.BleController.constructor` | App.tsx:38-43 | the hook starts unsupported, disconnected, with no device or characteristic and status "未接続" |
| `Operator.BleController.DetectSupport` | App.tsx:45-47 | support is whether the host has Bluetooth |
| `Operator.BleController.Disconnect` | App.tsx:49-61 | whatever the GATT call does, both refs are null, not connected, empty name, status "未接続"; the result does not depend on the previous state, so a second call changes nothing |
| `Operator.BleController.Connect` | App.tsx:63-94 | an unsupported host only gets a status message; a failure ends not connected with status "接続失敗"; success holds device and characteristic, connected, "接続済" |
| `Operator.BleController.OnGattDisconnected` | App.tsx:78-81 | a spontaneous disconnect clears isConnected and sets "未接続" but keeps the characteristic |
| `Operator.BleController.Send` | App.tsx:96-101 | fails iff no characteristic is held; otherwise writes `encodeCommand(cmd, intensity)` |
| `Operator.OperatorScreen.constructor` | App.tsx:203-206 | demo mode on, state normal, intensity 60, a fresh disconnected hook |
| `Operator.OperatorScreen.SetDemo` | App.tsx:298 | the demo toggle sets demo mode |
| `Operator.OperatorScreen.SetIntensity` | App.tsx:311-319 | the slider and presets set the intensity |
| `Operator.OperatorScreen.SendState` | App.tsx:209-242 | the state is recorded first; nothing is written in demo mode or while disconnected; canSend holds iff the outcome is not "not connected"; otherwise the state's command with the current intensity is written |
| `Operator.OperatorScreen.Stop` | App.tsx:244-260 | outside demo mode and while connected, (99, 0) is written; otherwise nothing |
| `Operator.ParentScreen.constructor` | App.tsx:373-375 | intensity 55, a fresh disconnected hook |
| `Operator.ParentScreen.EmergencyStop` | App.tsx:388-399 | while connected (99, 0) is written; otherwise nothing and "not connected" |
| `Operator.ParentScreen.ApplyIntensity` | App.tsx:401-409 | the intensity is always stored; (10, v) is written only while connected |
| `Operator.EncodeCommandLossless` | App.tsx:30-35 | for a command byte and an intensity in 0..100 the frame is exactly `[cmd, intensity]` |
| `Operator.CommandBytesDistinct` | App.tsx:219-406 | the five commands sent (0, 1, 2, 99, 10) have pairwise different first bytes |
| `Operator.DroppedLinkScenario` | App.tsx:78-101 | after a spontaneous disconnect `send` still writes (the characteristic is held) but `sendState` reports "not connected" |
| `Operator.DisconnectTwiceScenario` | App.tsx:49-61 | connect, then disconnect twice: not connected, empty name, status "未接続" |
| `Sync.Transport` | api/cue.js:19-24 | each handler response reaches the viewer as a reply with the same status code, and a 200 carries the record's seq, cueKey and at as its JSON body |
| `Sync.PollCatchesUp` | viewer.js:569-585 | one poll answered by the handler leaves the viewer's lastSeq equal to the room's seq; its cue changes, with the count up by one, iff the room's seq differed from the old lastSeq |
| `Sync.EqualSeqKeepsLocalCue` | viewer.js:221-224 | a viewer whose lastSeq equals the room's seq gets 204 and keeps its local cue, even one that startGame reset to "stop" |
| `Sync.RecordsAreTakeable` | api/cue.js:14-24 | every record the handler answers has seq ≥ 1, so the viewer never discards it as seq-less |
| `Sync.ClampsAgree` | App.tsx:26-28 | with ordered bounds the App.tsx clamp equals the viewer.js clamp |
| `Sync.ClampsDifferOnReversedBounds` | viewer.js:545-549 | with reversed bounds (min > max) and n ≥ min, viewer.js returns max and App.tsx returns min; below min both return min; no call site passes such bounds |

Notes on behaviour that may be unexpected.

- A poll that is not "no change" does not always get a record whose seq exceeds `since`: the handler answers the stored record on any mismatch. That includes a stale `since` larger than the stored seq, for example after a server restart (`GetContract`). The viewer takes that record anyway (`PollCatchesUp`).
- `startGame` resets the displayed cue to "stop" but keeps `lastSeq`. Until the operator posts again, the viewer's polls get 204 and it keeps showing "stop", whatever the room's cue is (`EqualSeqKeepsLocalCue`).
- The two `clamp` helpers differ only for reversed bounds with n ≥ min (`ClampsDifferOnReversedBounds`). No caller passes reversed bounds.
- Among the modelled handlers of viewer.js, the pause and mute flags only gate cue forwarding and tap counting (`paused` also stops the dummy match ticker, which is not modelled). On the parent screen of App.tsx, the pause and mute toggles gate nothing.

## Left out

- Rendering, layout and DOM text are not modelled: every `render*` function, `highlightSelections`, `showOnly`, the React presentational components, `styles`, `THEME` and the "sync status" label. That label is rewritten to "稼働中" on every render.
- `renderAll` is not modelled as trimming the tap window. In the source, `renderLive` calls `countLastMinute`, so every render trims at the current time. These extra trims change no later count, provided `Date.now()` never goes backwards: trimming at an earlier time and then at a later one is the same as trimming at the later one (`TrimComposes`), and that stays true when a tap is pushed between the two trims (`TrimBeforePush`).
- The persisted state is not modelled: `saveState`, `loadState`, `clone`, the localStorage I/O and controller.js as a whole. The viewer starts from `stateDefault`.
- The missions in viewer.js are not modelled: `generateMissions`, `pick` and the mission fill-in inside `startGame`. They use `Math.random`. The dummy match ticker is left out for the same reason.
- The room input handler of viewer.js is not modelled. It trims whitespace. `room` keeps its initial "demo", and `PollQuery` applies the `|| "demo"` default.
- The navigation buttons other than start-game are not modelled as separate handlers. Each plain navigation is a `Go` to its screen, and the age check of "to pre-game" is left out.
- The "back to setup" button after a game (`postToSetup`) is not modelled. It replaces the whole state by `stateDefault` (lastSeq 0, not connected, all counters 0) and saves it; the model has no operation that resets the state after construction.
- The Web Bluetooth calls are not modelled: `requestDevice`, `gatt.connect`, `getPrimaryService`, `getCharacteristic`, `startNotifications`, `writeValue` and `gatt.disconnect`. They are foreign host APIs. A `Handshake` value says which step failed, and a write is an entry in a log. A `writeValue` rejection is not modelled, so the "送信失敗" toast never occurs in the model.
- Timers are not modelled: the 350 ms poll interval and the rate ticker. Each tick is one call (`PollCueOnce`, `RateTick`), and async interleavings are not modelled.
- `Viewer.Viewer.AddTap`: it uses one `now` for the push and for the trim. The source reads `Date.now()` twice.
- `Operator.EncodeCommand`: it takes an integer intensity, so `Math.round` of a fractional slider value is not modelled.
- `parseInt` of the `since` query parameter is not modelled. It is a JavaScript builtin. `CueStore.Since` is its result, and `Absent` stands for a missing parameter or NaN.
- Some bodies are not modelled: a POST body that parses to JSON `null` (the source then throws inside `writeCue`), and non-string `room`/`cueKey` values before `String(...)`.
- `CueStore.Handle`: room names are modelled as ordinary map keys. In the source `store` is a plain object, so a room named after an `Object.prototype` member behaves differently: a GET of "constructor" on a fresh store finds the inherited function, creates nothing and answers 200 without a record; a POST to it stores seq NaN for good; a POST to "__proto__" replaces the store's prototype, after which unseen rooms named after the posted object's members are found without being created. `GetContract`, `PostContract`, `HandleKeepsSeqsPositive` and `PostsCountUp` hold only for room names that are not inherited members of `Object.prototype`.
- Body streaming (`req.on("data")`) is not modelled. The body arrives already parsed.
- Toasts, `alert`, `navigator.vibrate` and `labelOfState` are not modelled. They only produce user-facing text and vibration. The send handlers return an `Outcome` that says which toast would be shown.
- The parent screen's mode, pause, mute, last-signal, tutorial and "now what" toggles are not modelled. They set display state only and gate no command.
- Which device's `gattserverdisconnected` listener fires is not modelled. The model cannot tell a stale device's event from the current one's.
