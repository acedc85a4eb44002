# Hand-pointing selection: stream client and selection hold

This project models the two event-driven state machines behind HandCast's
"point at a bulb and keep it selected" interaction. The models are written in
Dafny and their properties are proved.

- **Selection hold** (`src/hooks/useRaycasting.js`, module `Raycasting`).
  Each landmark frame, the hook reads landmark 8, the index fingertip. It
  mirrors the fingertip's x coordinate and asks an intersector which bulb the
  ray hits. It then publishes `hitInfo` and `pointing`. A hit on a bulb other
  than the remembered one arms a 3000 ms hold: the hit record is stored and
  an expiry timer is scheduled. Later misses keep reporting the held record
  until the timer fires.
- **Stream connection** (`src/hooks/useHandPython.js`, module `HandStream`).
  The hook keeps one WebSocket to the tracking server. It publishes the
  latest landmarks, the frame count, a status
  (`connecting | connected | disconnected | error`) and an error message.
  After an abnormal close it reconnects `2000 × attempt` ms later, for at
  most 5 attempts in a row.

Each hook is modelled twice: as a pure state datatype with one `Step`
function per event, and as a class whose methods update fields in place like
the hook's refs and state setters. The class methods are proved to produce
exactly the state that the matching `Step` function gives. All properties
that involve several events are proved over the pure model, using event
sequences run by `Run`.

The runtime is made explicit:

- Timers are a map from timer handle to due time. The events that read the
  clock carry the current time `now`: a landmark frame, a hold expiry, a
  socket close and a reconnect timer. A timer can fire only at or after its
  due time.
- Timer and socket handles come from counters kept in the state
  (`nextTimerId`, `nextHandle`), so every new handle is fresh.
- The stream client's sockets are a map from handle to WebSocket ready state.
- The intersector is a function parameter.
- Decoded messages are a datatype with a parse-failure variant.

`common.dfy` holds the shared `Option` and `Point3` types.

The model follows what the code does, including where that differs from
what the hooks evidently aim for:

- There is no `Failed` connection state. When the attempts are exhausted, an
  error message is set and the status stays `disconnected`.
- The backoff is linear (`2000 × attempt`), although the source comment says
  "Exponential".
- The error appears on the close after the fifth reconnect. A manual
  `connect` does not reset the attempt counter; only `onopen` and
  `disconnect` do.
- A frame without a fingertip clears the remembered hit but keeps the hold.
  The next hit on the same bulb therefore arms a fresh 3000 ms timer.
- The expiry callback clears `hitInfo` according to the `pointing` value its
  closure captured when the hold was armed, not the current one. The model
  records the value `pointing` had before the arming frame, which is the
  value of the last render.
- A frame without a fingertip publishes `hitInfo` null even while a hold is
  live. Only a miss with a fingertip reports the held record.
- `disconnect` does not stop a reconnect for good. If the socket it asked to
  close then reports a code other than 1000, `onclose` still schedules a
  reconnect (`AbnormalCloseAfterDisconnectReconnects`).
- A reconnect timer can outlive `disconnect`. The ref keeps only the latest
  timer, so an earlier one scheduled by another socket's close is never
  cancelled (`EarlierReconnectSurvivesDisconnect`).

## Model

| member | source | states |
|---|---|---|
| Raycasting.Hitboxes | src/hooks/useRaycasting.js:65-68 | the hitboxes kept are exactly those of refs that carry one (membership in both directions); no more than there are refs; none exactly when no ref has one |
| Raycasting.HitboxesAppend | src/hooks/useRaycasting.js:65-68 | keeping hitboxes commutes with concatenation of the refs, so order and multiplicity are kept |
| Raycasting.Query | src/hooks/useRaycasting.js:42-84 | no intersector call exactly when the camera, the landmarks, landmark 8, the refs or every hitbox is missing; otherwise the call gets the camera, x mirrored to `1 - tip.x`, y unchanged and the refs' hitboxes, with landmark 8 as fingertip |
| Raycasting.ClearHoldTimer | src/hooks/useRaycasting.js:16-21 | the pending hold timer is cancelled and the ref emptied; the held record and the published cells stay; from a valid state no hold timer is left pending |
| Raycasting.StepFrame | src/hooks/useRaycasting.js:55-127 | no input: hitInfo null, pointing false, lastHitId null, hold and timer untouched; hit: pointing, hitInfo is the hit plus fingertip, lastHitId is its bulb; the hold is re-armed (old timer cancelled, new one due in 3000 ms) only when the bulb differs from lastHitId; miss: pointing false, hold untouched, hitInfo is the held record with the current fingertip and lastHitId kept, or both null when nothing is held |
| Raycasting.StepHoldExpired | src/hooks/useRaycasting.js:28-36 | expiry clears the held record and the timer ref together and dequeues the timer; hitInfo is cleared exactly when the closure captured `pointing` false |
| Raycasting.HoldOutputsAgree | src/hooks/useRaycasting.js:151-152 | while mounted, `isHoldingSelection` holds exactly when `selectionTimeRemaining` is 3000, which is exactly when one expiry is pending, and it is 0 otherwise |
| Raycasting.InitialInvariant | src/hooks/useRaycasting.js:9-13 | the mounted state satisfies the invariant, with no hold and no timer |
| Raycasting.StepPreservesInvariant | src/hooks/useRaycasting.js:16-39 | each event keeps the invariant: the only pending expiry is the one the ref holds, a pending timer has a held record, and a remembered hit names the held bulb; only unmounting separates hold from timer |
| Raycasting.RunPreservesInvariant | src/hooks/useRaycasting.js:24-36 | along any event sequence at most one hold timer is pending, and without unmounting the held record and the timer come and go together |
| Raycasting.DwellWindow | src/hooks/useRaycasting.js:106-117 | a hold on bulb `a` due at `d` survives every event in the 3000 ms before `d` unless a hit on another bulb arrives; no expiry can fire in that window, and every frame with a fingertip reports `a` |
| Raycasting.SameBulbKeepsTimer | src/hooks/useRaycasting.js:99-105 | repeated hits on the remembered bulb and misses leave the held record, the timer ref and the pending expiry unchanged: the timer is not restarted |
| Raycasting.OtherBulbSupersedes | src/hooks/useRaycasting.js:24-28 | a hit on a bulb other than the held one replaces the hold at once, with a single new timer due 3000 ms later |
| Raycasting.NoFingerTipRearmsSameBulb | src/hooks/useRaycasting.js:58-62 | after a frame without a fingertip, a hit on the held bulb itself arms a fresh timer due 3000 ms after that hit |
| Raycasting.SelectionTracker.constructor | src/hooks/useRaycasting.js:9-13 | the hook's cells and refs start empty |
| Raycasting.SelectionTracker.ClearSelectionHold | src/hooks/useRaycasting.js:16-21 | the in-place update equals `ClearHoldTimer` and keeps the invariant |
| Raycasting.SelectionTracker.SetSelectionHold | src/hooks/useRaycasting.js:24-39 | cancels the pending timer, stores the record and schedules one expiry due 3000 ms later |
| Raycasting.SelectionTracker.PerformRaycast | src/hooks/useRaycasting.js:55-127 | the in-place update equals `StepFrame` on the frame's intersector result and keeps the invariant |
| Raycasting.SelectionTracker.HoldExpired | src/hooks/useRaycasting.js:28-36 | the in-place update equals `StepHoldExpired` and keeps the invariant |
| HandStream.StepConnect | src/hooks/useHandPython.js:14-25 | no change when the socket is open; otherwise status connecting, error cleared and a new connecting socket; when creating it throws, status error with the fixed message and no new socket; the counter and scheduled reconnects untouched |
| HandStream.StepOpen | src/hooks/useHandPython.js:27-32 | status connected, error cleared, attempt counter 0, the socket open, nothing else changed |
| HandStream.StepMessage | src/hooks/useHandPython.js:34-54 | an undecodable message changes nothing; a non-empty error sets the error and clears landmarks, frame count kept; otherwise landmarks and `frame_count` (0 if absent) are published; status, socket and counter never change |
| HandStream.StepError | src/hooks/useHandPython.js:56-60 | status error with the fixed message, everything else unchanged |
| HandStream.StepClose | src/hooks/useHandPython.js:62-79 | any close: disconnected, no landmarks, no socket; abnormal under the cap: counter + 1 and one reconnect due `2000 × counter` after the close; otherwise nothing scheduled and, at the cap, the max-attempts error |
| HandStream.StepDisconnect | src/hooks/useHandPython.js:87-103 | the ref's reconnect is cancelled, the socket asked to close, status disconnected, landmarks and error null, counter 0 |
| HandStream.StepReconnectFired | src/hooks/useHandPython.js:73-75 | the fired timer is dequeued; the counter and the timer ref are untouched; then as `connect`: no other change when the socket is open; otherwise status connecting, error cleared and a new connecting socket with a fresh handle, or, when creating it throws, status error with the fixed message and no new socket; landmarks and frame count kept |
| HandStream.DisconnectIdempotent | src/hooks/useHandPython.js:87-103 | a second `disconnect` gives the same state as the first |
| HandStream.InitialInvariant | src/hooks/useHandPython.js:5-12 | the mounted state satisfies the invariant |
| HandStream.StepPreservesInvariant | src/hooks/useHandPython.js:62-79 | each event keeps the invariant (counter within the cap, the socket ref names an unclosed socket); only a close schedules a reconnect; only open and disconnect lower the counter |
| HandStream.RunPreservesInvariant | src/hooks/useHandPython.js:69-70 | along any event sequence the attempt counter stays within 0..5 |
| HandStream.LinearBackoff | src/hooks/useHandPython.js:69-78 | between resets, the k-th reconnect scheduled is due `2000 × (attempts + k)` ms after its close, the counter counts them, and there is never a sixth |
| HandStream.AbnormalCloseAfterDisconnectReconnects | src/hooks/useHandPython.js:93-96 | a disconnected socket that then reports an abnormal close code still gets a reconnect 2000 ms later |
| HandStream.EarlierReconnectSurvivesDisconnect | src/hooks/useHandPython.js:88-91 | when two sockets fail after a second `connect`, the first reconnect timer survives `disconnect` |
| HandStream.HandStreamClient.constructor | src/hooks/useHandPython.js:5-12 | the hook's cells and refs start at their initial values |
| HandStream.HandStreamClient.Connect | src/hooks/useHandPython.js:14-85 | the in-place update equals `StepConnect` and keeps the invariant |
| HandStream.HandStreamClient.HandleOpen | src/hooks/useHandPython.js:27-32 | the in-place update equals `StepOpen` and keeps the invariant |
| HandStream.HandStreamClient.HandleMessage | src/hooks/useHandPython.js:34-54 | the in-place update equals `StepMessage` and keeps the invariant |
| HandStream.HandStreamClient.HandleError | src/hooks/useHandPython.js:56-60 | the in-place update equals `StepError` and keeps the invariant |
| HandStream.HandStreamClient.HandleClose | src/hooks/useHandPython.js:62-79 | the in-place update equals `StepClose` and keeps the invariant |
| HandStream.HandStreamClient.Disconnect | src/hooks/useHandPython.js:87-103 | the in-place update equals `StepDisconnect` and keeps the invariant |
| HandStream.HandStreamClient.ReconnectTimerFired | src/hooks/useHandPython.js:73-75 | the in-place update equals `StepReconnectFired` and keeps the invariant |

## Left out

- `findIntersectedBulb` (`src/utils/raycastUtils`) is not part of this model. It does floating-point unprojection and ray tests, so it is a function parameter of `PerformRaycast`. Nothing is assumed about its answer.
- The `object` field of a hit record is left out. It is a scene-graph reference that the hook only copies.
- JSON decoding is the `Message` datatype. A message that fails to decode, or whose `error` access throws, is `Unparseable`. A field of the wrong JSON type is not modelled.
- The WebSocket and `setTimeout`/`clearTimeout` are explicit maps of sockets and timers. Handles come from counters in the state rather than from the browser, which only matters in that they are fresh. The close code is an input of the close event.
- React rendering is not modelled. State setters are plain field writes. The expiry closure's `pointing` is the value before the arming frame. This assumes the hook renders between frames.
- Logging (`console.log`/`warn`/`error`) is left out.
- The unmount effects are covered by existing members. `useRaycasting` runs `ClearSelectionHold` and `useHandPython` runs `Disconnect`. The returned `raycast` and `reconnect` functions are `PerformRaycast` and `Connect`.
- Rendering, audio, particles, the debug overlay, `src/App.jsx` and the Python backend are left out. Only the backend's payload shape appears, as `Message`.
- The nearest-sphere search and its tie-breaking are inside the intersector, so no property is stated about them.
- Coordinates are exact reals, so the mirrored `1 - x` carries no floating-point rounding. The hook passes the result on without inspecting it.
- `ValidTrace` does not require event times to increase. Every trace property is proved for arbitrary times, so it holds in particular for increasing ones.
