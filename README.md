# Simul playback sync and relay, modelled in Dafny

Simul is a browser extension for watching a video together. Each tab runs
a content script, `extension/content.js`, which keeps the page's `<video>`
element in step with a shared room. The extension's background worker,
`extension/background.js`, owns one WebSocket per tab. It relays
messages between that socket and a long-lived port to the tab.

The model covers the two state machines at the core:

- **The playback-sync engine** (`PlaybackSync.Engine`, in `engine.dfy`). This is the closure state of `initContentScript`: the bound video element, the echo-suppression latch `isRemoteUpdate`, local-only mode `isUnSync`, the last room state heard, the one-slot pending `sync`, the analytics counters, the rendered chat and the room key. It reacts to port messages, video discovery, `play`/`pause`/`seeked` events, settle-timer expiry, and the MATCH, toggle and chat controls. The pure decisions it takes are in `sync_policy.dfy`: status derivation, the drift bands, play/pause reconciliation, the MATCH target and duration arithmetic. Chat de-duplication is in `chat_log.dfy`. The IV‖ciphertext framing of `cryptoEngine`, with its fall-back-to-input failure paths, is in `crypto_framing.dfy`.
- **The relay session registry** (`Relay.Registry`, in `relay.dfy`). This is the `sessions` map from tab to `{port, socket}`. It covers `setupWebSocket`, `closeSession`, forwarding gated on `readyState === 1`, the socket `onopen`/`onmessage`/`onclose`/`onerror` handlers, the 500 ms grace teardown after a port disconnects, and the heartbeat alarm, including how its name is written and read back.

Time, timers and I/O are made explicit:

- The clock is a `now` parameter in milliseconds.
- Each `setTimeout` becomes a count (or multiset) of pending expiries, plus a method that runs when one fires.
- Messages posted on a port are appended to an `outbox` or `posted` sequence. Frames sent on a socket are appended to `sent`.
- Sockets are numbered in creation order. For each socket, `Registry.sockets` keeps what its handlers closed over (tab, port, room, user), together with its ready state. This is what makes a late `onclose` of a replaced socket observable.
- AES-GCM, base64 and the text encoder are functions inside a `Primitives` value. The lemmas state the assumptions they make about those functions.

The model keeps these behaviours exactly as written:

- A `sync` that arrives before any video is bound is replayed when a video is found, even if local-only mode was switched on in the meantime.
- An element that is bound again after another one keeps its earlier listeners, so each event it fires is sent once per attachment.
- A payload that asks for both play and pause flips the video (`PlayPauseReconciliation`).
- The heartbeat name of a negative tab id never reads back as that id (`AlarmNameOfNegativeId`).
- `formatDuration` of a negative duration that is not a whole number of minutes gives a negative seconds part (`DurationPartsSplit`).

## Model

| member | source | states |
|---|---|---|
| Strings.AsciiLower | extension/background.js:30 | `toLowerCase` keeps the length and lowers each character on its own |
| Relay.ForwardedFrameKinds | extension/background.js:25-30 | the four forwarded kinds go out as the frame types `action`, `chat`, `reaction` and `analytics` |
| Strings.ParseInt | extension/background.js:140 | `parseInt` is NaN exactly when the character after the optional sign is missing or not a digit |
| Strings.ParseIntOfNatToDigits | extension/background.js:140 | `parseInt` reads back the decimal rendering of every non-negative integer |
| SyncPolicy.RecordedStatus | extension/content.js:254 | the recorded status is never empty, and it is `playing` only when the status field says so or, without one, the verb is `play` |
| SyncPolicy.Recorded | extension/content.js:252-256 | the recorded room state takes the payload's time and the arrival time |
| SyncPolicy.RecordedStatusCases | extension/content.js:254 | a non-empty `status` wins; otherwise `play` gives `playing` and only it does, `pause` gives `paused` and only it does, and every other verb (`match` included) gives `stopped` |
| SyncPolicy.Drift | extension/content.js:280 | drift is non-negative and equals one of the two differences |
| SyncPolicy.SyncedTime | extension/content.js:280-282 | drift correction either keeps the playhead or jumps to the target, and never increases the drift |
| SyncPolicy.DriftPolicy | extension/content.js:280-282 | above 2.0 s the playhead always jumps to the target; between 0.5 s and 2.0 s it jumps exactly when the target is buffered; at 0.5 s or less it stays. Residual drift is at most 2.0 s, and at most 0.5 s when the target is buffered |
| SyncPolicy.DriftExamples | extension/content.js:280-282 | 10.0 against 10.3 never seeks; against 11.0 it seeks only into a buffered target; against 20.0 it always seeks |
| SyncPolicy.SyncedPaused | extension/content.js:284-285 | the paused flag changes only when the payload asks to play or to pause |
| SyncPolicy.PlayPauseReconciliation | extension/content.js:284-285 | the video starts playing only for a play target and pauses only for a pause target. A one-sided target is reached from either start state. No target leaves the video as it was. A payload asking for both flips it |
| SyncPolicy.MatchTarget | extension/content.js:481-485 | a room that is not playing gives its recorded time; a playing one is never behind its recorded time once the update has happened |
| SyncPolicy.MatchTargetAdvances | extension/content.js:481-485 | while the room plays, the MATCH target advances by exactly the elapsed seconds and equals the recorded time at the update instant; otherwise it is the recorded time |
| SyncPolicy.MatchExample | extension/content.js:481-485 | 100.0 s playing, read 5 s later, gives 105.0 s; paused, it gives 100.0 s |
| SyncPolicy.JsRemainder | extension/content.js:577 | JavaScript `%` is strictly between `-b` and `b` |
| SyncPolicy.DurationParts | extension/content.js:576-577 | the seconds part is strictly between -60 and 60, and both parts are non-negative for a non-negative duration |
| SyncPolicy.DurationPartsSplit | extension/content.js:575-579 | for a non-negative duration, minutes·60 + seconds = duration with 0 ≤ seconds < 60. For a negative duration that is not a whole number of minutes, the two parts add up to a minute less than the duration; -5 gives (-1, -5) |
| SyncPolicy.FormatDuration | extension/content.js:575-579 | a non-negative duration renders without any minus sign |
| SyncPolicy.FormatDurationExamples | extension/content.js:575-579 | 125 s renders `2m 5s`, 60 s renders `1m 0s`, -5 s renders `-1m -5s` |
| SyncPolicy.ElapsedSeconds | extension/content.js:146 | the analytics duration is the whole seconds elapsed, rounded down |
| CryptoFraming.BinaryStringAt | extension/content.js:88-89 | character i of the binary string has byte i as its code |
| CryptoFraming.BinaryRoundTrip | extension/content.js:88-99 | copying the binary string back into a `Uint8Array` gives the original bytes |
| CryptoFraming.PackBinary | extension/content.js:88-89 | the `fromCharCode` loop builds the binary string of the combined bytes |
| CryptoFraming.UnpackBinary | extension/content.js:96-99 | the `charCodeAt` loop fills an array of `len` bytes, each holding its character's code mod 256 |
| CryptoFraming.Encrypted | extension/content.js:73-92 | without a key the text is returned as is, and a result other than the text needs a key and a cipher that sealed |
| CryptoFraming.Decrypted | extension/content.js:93-108 | without a key the text is returned as is, and a result other than the text needs a key, a base64 decoding, and at least 12 decoded bytes |
| CryptoFraming.Encrypt | extension/content.js:73-92 | `encrypt` returns the text itself when there is no key or the cipher fails; otherwise it returns base64 of the IV followed by the ciphertext |
| CryptoFraming.Decrypt | extension/content.js:93-108 | `decrypt` returns the text itself when there is no key, base64 fails, fewer than 12 bytes arrive or the cipher rejects; otherwise it returns the plaintext of the bytes after the 12-byte IV |
| CryptoFraming.DecryptFailsOpen | extension/content.js:93-107 | a base64 failure, a short payload or a rejected cipher each return the input unchanged |
| CryptoFraming.EncryptDecryptRoundTrip | extension/content.js:80-103 | when the cipher and base64 are inverses, decryption recovers the message, because it splits the bytes exactly where encryption joined IV and ciphertext |
| ChatLog.EntryFor | extension/content.js:596-613 | a rendered line shows the author and text; it has no `data-id` exactly when the author is SYSTEM |
| ChatLog.WithMessage | extension/content.js:592-618 | the chat only grows, by at most one line at the end; it stays the same exactly when the id is already rendered; otherwise the new line is the message's |
| ChatLog.WithMessageKeepsIdsUnique | extension/content.js:592-618 | adding a message never gives two lines the same `data-id` |
| ChatLog.WithMessageIdempotent | extension/content.js:594-595 | afterwards the id is rendered iff it was before or the author is not SYSTEM; delivering a non-SYSTEM message again changes nothing |
| ChatLog.SystemMessagesRepeat | extension/content.js:596-603 | a SYSTEM message is rendered again on every delivery when no rendered line carries its id |
| ChatLog.UniqueIdsAtMostOnce | extension/content.js:594-606 | with unique ids, each id is carried by at most one line, and by exactly one iff it is rendered |
| PlaybackSync.IsTimeBuffered | extension/content.js:290-297 | the loop returns true iff some range holds the time, with both ends inclusive (so false when there are no ranges) |
| PlaybackSync.CorrectVideo | extension/content.js:280-285 | the element ends at the drift-corrected position with the reconciled paused flag, and its buffered ranges are unchanged |
| PlaybackSync.Engine.constructor | extension/content.js:14-53 | no video, latch down, synced, room state `{0, paused, now}`, counters at zero starting now, port open, no overlay, no key |
| PlaybackSync.Engine.ApplySync | extension/content.js:267-288 | exactly one more sync counted; latch raised with one more settle timer; video corrected; nothing else changes |
| PlaybackSync.Engine.ReceiveSync | extension/content.js:249-264 | the room state is recorded first in every mode. Local-only mode then changes nothing else. With no video, a `sync` replaces the pending one and an `action` is dropped. Otherwise the payload is applied |
| PlaybackSync.Engine.AddChatMessage | extension/content.js:592-618 | without an overlay, nothing changes; otherwise the chat becomes `WithMessage`, and ids stay unique |
| PlaybackSync.Engine.ReceiveChat | extension/content.js:222-232 | one more chat counted, and the decrypted message is added to the chat |
| PlaybackSync.Engine.ReceiveConnected | extension/content.js:206-220 | room and user are stored; the key becomes the room's when derivation succeeds; the overlay exists |
| PlaybackSync.Engine.ReceiveReaction | extension/content.js:236-241 | exactly one more reaction counted, nothing else changes |
| PlaybackSync.Engine.HandlePortMessage | extension/content.js:203-265 | each message type has exactly the effect above; `PING`, `user_list`, `STATUS` and unknown types change no engine state |
| PlaybackSync.Engine.CheckVideo | extension/content.js:157-164 | no element, or the same one, changes nothing. A new element is bound and gets one more set of listeners. A pending `sync` is applied to it exactly once and cleared |
| PlaybackSync.Engine.SendAction | extension/content.js:170-173 | nothing is posted while the latch is up, the port is gone or the tab is local-only; otherwise exactly one ACTION with the element's position and `max` |
| PlaybackSync.Engine.OnVideoEvent | extension/content.js:187-197 | a `play`/`pause`/`seeked` event posts one ACTION per listener set attached to that element, and only when emitting |
| PlaybackSync.Engine.SettleElapsed | extension/content.js:287 | an 800 ms timer lowers the latch, whichever `applySync` armed it |
| PlaybackSync.Engine.ToggleUnSync | extension/content.js:455-458 | the toggle flips local-only mode and nothing else |
| PlaybackSync.Engine.SetPort | extension/content.js:114-125 | a port disconnect or reconnect changes only the port flag |
| PlaybackSync.Engine.Match | extension/content.js:479-488 | MATCH seeks to the extrapolated target, plays iff the room plays, and leaves the latch and every engine field alone |
| PlaybackSync.Engine.MatchLatched | extension/content.js:479-488 | MATCH as intended: same element effect, with the latch raised so the engine is not emitting |
| PlaybackSync.Engine.SendAnalytics | extension/content.js:143-152 | with a port, exactly one ANALYTICS with the elapsed seconds, the three counters, zero drifts and the start time; without one, nothing |
| PlaybackSync.Engine.SubmitChat | extension/content.js:516-534 | an empty text or a missing port does nothing. Otherwise one CHAT carrying the ciphertext, with the send time as id, is posted; the plain text is rendered; one more chat is counted |
| PlaybackSync.MatchEchoes | extension/content.js:479-488 | with the latch down, MATCH 5 s after a playing sync at 100.0 s sends `match` at 105.0 s back to the room |
| PlaybackSync.LatchedMatchIsSilent | extension/content.js:479-488 | the latched MATCH reaches 105.0 s and plays, and posts nothing |
| Relay.AfterClose | extension/background.js:129 | `close()` leaves a socket neither connecting nor open, and does not touch an already closing or closed one |
| Relay.AlarmName | extension/background.js:79 | every heartbeat name passes the listener's `startsWith('heartbeat-')` test |
| Relay.AlarmTabId | extension/background.js:139-140 | a name yields a tab id only when it starts with `heartbeat-` |
| Relay.AlarmNameRoundTrip | extension/background.js:139-140 | reading back `heartbeat-${tabId}` gives the tab id for every non-negative id |
| Relay.AlarmNameOfNegativeId | extension/background.js:139-140 | the name of every negative tab id, such as `heartbeat--1`, reads back as NaN |
| Relay.Registry.constructor | extension/background.js:6 | the registry starts empty |
| Relay.Registry.CloseSession | extension/background.js:124-135 | the tab's entry is removed if present and its socket is closed; other tabs are untouched; the alarm is cleared. A tab without a session leaves sessions and sockets as they were, so a second call changes nothing more |
| Relay.Registry.SetupWebSocket | extension/background.js:50-121 | after the prior session is closed, the tab's only entry is the new connecting socket, opened on `url?roomId=…&userId=…`; if construction throws, there is no entry and `error` is posted to the port and the runtime. Every live socket stays tracked |
| Relay.Registry.Forward | extension/background.js:25-35 | a frame `{lowercase type, payload}` goes out on the tab's socket iff it is OPEN; nothing else changes |
| Relay.Registry.OnPortMessage | extension/background.js:17-37 | CONNECT has exactly the effect of setup; the four forwarded kinds are forwarded; any other type changes nothing |
| Relay.Registry.OnSocketOpen | extension/background.js:64-80 | the socket is OPEN; `connected` and the identity go to its port, and `connected` to the runtime; the tab's alarm exists |
| Relay.Registry.OnSocketMessage | extension/background.js:82-95 | a parsed frame is relayed to the socket's port; an unparsable one is dropped |
| Relay.Registry.OnSocketClose | extension/background.js:97-105 | as written: `disconnected` is posted, and the session and alarm of the socket's tab are removed, whatever socket the session holds |
| Relay.Registry.OnSocketCloseChecked | extension/background.js:97-105 | corrected: the session and alarm go only if the session still holds this socket, so every live socket stays tracked |
| Relay.Registry.OnSocketError | extension/background.js:107-113 | `error` is posted to the port and the runtime; the registry is untouched |
| Relay.Registry.OnPortDisconnect | extension/background.js:40-47 | a disconnect only arms one more grace timer for the tab |
| Relay.Registry.GraceElapsed | extension/background.js:44-46 | a grace timer runs `closeSession` on its tab, whatever happened to the tab since |
| Relay.Registry.OnPortConnectCancelling | extension/background.js:40-47 | corrected: a reconnecting port cancels every pending grace timer of its tab |
| Relay.Registry.OnAlarm | extension/background.js:138-146 | a heartbeat frame goes out iff the name reads back as a tab whose socket is OPEN |
| Relay.AtMostOneLiveSocketPerTab | extension/background.js:50-62 | while live sockets are tracked, a tab has at most one connecting or open socket |
| Relay.StaleCloseDropsNewSession | extension/background.js:97-105 | a replaced socket's late close deletes the new session; the new socket opens unregistered and the tab can no longer send |
| Relay.StaleCloseLeavesTwoLiveSockets | extension/background.js:97-105 | after the stale close, one more CONNECT leaves tab 7 with two live sockets, the open socket 1 and the connecting socket 2, contrary to `AtMostOneLiveSocketPerTab` |
| Relay.CheckedCloseKeepsNewSession | extension/background.js:97-105 | with the checked close, the new socket stays the tab's session and the tab can send |
| Relay.GraceTimerClosesNewSession | extension/background.js:40-47 | a reload's grace timer closes the socket the new port just opened |
| Relay.CancelledGraceKeepsSession | extension/background.js:40-47 | with cancellation, no grace timer is left and the new socket stays open and registered |

## Left out

- DOM and overlay rendering are not modelled: `createOverlay` beyond its existence, `updatePlaybackText`, `setNetworkStatus`, `updateStatsUI`, `updateSecureUI`, `updateUnSyncUI`, `playAnimation`, the play/pause icon, the user list and the dashboard. They only present state.
- The header tomato button (extension/content.js:352-359) and the play/pause button (extension/content.js:443-447) are overlay controls outside the sync core.
- `extension/popup.js` is not part of this model.
- PBKDF2 derivation, AES-GCM, `TextEncoder`/`TextDecoder`, `btoa`/`atob` and `getRandomValues` are foreign calls. They are functions of `Primitives`, the IV is a parameter, and derivation success is the `keyDerived` parameter.
- `isSecure` and the lock icon are not modelled.
- Chrome messaging is not modelled as code. `outbox` and `posted` record every post the code attempts, and `chrome.runtime.sendMessage` is the `ToRuntime` post. They record more than is delivered in three cases. On a dead port, a post throws: `sendAction` (extension/content.js:172) and the chat form (extension/content.js:525) do not catch it, so the model also does not show the handler stopping there. In the relay, a port post and its runtime broadcast share one `try` (extension/background.js:99-102, 109-112, 117-120), so a throwing port post skips the broadcast that `posted` still records. In `onopen` the STATUS and CONNECTED port posts share one `try` (extension/background.js:67-72), so a throwing STATUS post skips the CONNECTED post that `Relay.Registry.OnSocketOpen` still records.
- The content script's own CONNECT requests are not modelled: the 300 ms CONNECT after `initPort` and the `chrome.runtime.onMessage` handler (extension/content.js:127-138, 299-308). The relay side of CONNECT is modelled.
- The 2 s reconnect timer, the 2 s video poll, the `MutationObserver` and the 10 s analytics interval are not modelled as timers. They are the events `SetPort`, `CheckVideo` and `SendAnalytics`, called when they fire.
- `JSON.parse`/`JSON.stringify` are not modelled: a relayed frame is an opaque `Json` string, and parse success is the `parsed` parameter of `OnSocketMessage`.
- `PlaybackSync.CorrectVideo`, `PlaybackSync.Engine.Match` and `PlaybackSync.Engine.MatchLatched`: `video.play()` is assumed to succeed. Its rejection is not modelled: the source logs it in `applySync` (extension/content.js:284) and ignores it silently in MATCH (extension/content.js:487).
- `PlaybackSync.Engine.ReceiveChat`, `PlaybackSync.Engine.ReceiveConnected`, `PlaybackSync.Engine.SubmitChat`: each `await` in the middle of these async handlers is treated as atomic, so each handler is one step. In the source, other events can run while `decrypt` (extension/content.js:227), `init` (extension/content.js:213) or `encrypt` (extension/content.js:522) is pending. The chat count can then rise before the line is rendered; room and user can be stored before the overlay and key exist; and the chat form can post on whatever `port` holds after `encrypt`, which may no longer be the port it checked at extension/content.js:518. Running other engine events before or after the handler expresses most of these orders, but not an event between the two halves of one handler.
- `PlaybackSync.Engine.SubmitChat`: the text is taken as already trimmed; `trim` and the clearing of the input box are not modelled.
- `PlaybackSync.Engine.HandlePortMessage`: a `sync`/`action` payload is assumed to carry a `time`; `applySync`'s `payload || {}` guard for a missing payload is not modelled. The `updatedBy` label only affects display text.
- `PlaybackSync.IsTimeBuffered`: the `try`/`catch` around reading `video.buffered` is not modelled, because the ranges are a plain sequence that cannot throw.
- Media times are exact reals, not IEEE doubles, so rounding in `currentTime` arithmetic and in the MATCH extrapolation is not modelled.
- `ChatLog.WithMessage`: message ids are assumed to be present and to be strings, as the ids this script builds are. Missing or non-string ids from the server are not modelled. Such a message would behave differently: a message without an id matches every SYSTEM line (whose `data-id` is undefined), so once one SYSTEM line exists it is dropped. A numeric id never equals its stored string form, so it is never de-duplicated.
- `Strings.ParseInt`: only the decimal form is modelled (optional sign, then digits). Leading whitespace and `0x` prefixes are not, because alarm names never contain them.
- `Strings.AsciiLower`: only ASCII letters are lowered; the four forwarded kinds are ASCII.
- The `session.socket` null checks in forwarding, `closeSession` and the alarm handler are not modelled. A session always has a socket, because the source stores a session only together with a socket.

## Findings

| source | as written | input that shows it | evidently intended | confidence | as-written member | corrected member |
|---|---|---|---|---|---|---|
| extension/background.js:97-105 | `onclose` deletes `sessions[tabId]` and the alarm whatever socket the entry now holds | tab 7 connects (socket 0 opens); CONNECT again closes socket 0 and opens socket 1; socket 0's close event fires, socket 1 opens, and a third CONNECT opens socket 2 beside it | only forget the session if it still holds the closing socket | high; not executed | Relay.StaleCloseLeavesTwoLiveSockets | Relay.CheckedCloseKeepsNewSession |
| extension/background.js:40-47 | the 500 ms grace timer after a port disconnect is never cancelled | tab 7 reloads; its new port sends CONNECT and socket 1 opens within 500 ms; the old port's timer then fires | a reconnecting port of the same tab cancels the pending teardown | high; not executed | Relay.GraceTimerClosesNewSession | Relay.CancelledGraceKeepsSession |
| extension/content.js:479-488 | MATCH seeks and plays without raising `isRemoteUpdate` | a sync at 100.0 s playing, the latch falls, MATCH 5 s later | MATCH pulls the room state without sending an action back | medium; not executed | PlaybackSync.MatchEchoes | PlaybackSync.LatchedMatchIsSilent |

