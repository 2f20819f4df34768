# Playback controller of music-stream, modelled in Dafny

This project models the player of the music-stream web front end. The model covers:

- the queue navigation of `onPlayNext` and `onPlayPrevious`;
- the playback controller `PlayerContent`: its volume, play/pause, timer, seek and mute state, and the engine callbacks;
- the `m:ss` label produced by `getSongMinute`;
- the `Player` component, which shows a controller only when the active song is fully resolved, and which replaces the controller whenever the song URL changes.

Files:

- `wrappers.dfy`: module `Wrappers`, the `Option` type.
- `queue.dfy`: module `Queue`. It holds the pure navigation rules, `findIndex` (the first occurrence wins), and the wrap-around laws and round trips.
- `time_format.dfy`: module `TimeFormat`. It holds `getSongMinute`, a decimal renderer, `padStart`, and a parser that reads `m:ss` back, with the round trip proved.
- `controller.dfy`: module `Controller`. The class `PlayerContent` holds the component state and one method per handler, engine callback and timer firing. The class `PlayerStore` holds the part of the `usePlayer` store that the controller uses.
- `player.dfy`: module `Player`. It holds the render guard, and the class `PlayerSlot` that keeps or replaces the mounted controller by its key, the song URL.
- `scenarios.dfy`: module `Scenarios`. These are end-to-end stories as methods, such as the end of a track advancing the queue and mounting a fresh controller. They are checked by the verifier.

The sound engine (`use-sound` over howler) is foreign code. The controller records every call it makes on the engine in `calls` (`Play`, `Pause`, `Seek`, `Unload`). The engine's callbacks are methods: `SoundLoaded`, `OnPlay`, `OnPause` and `OnEnd`. The 1-second `setInterval` is the flag `intervalActive`, which `Valid()` ties to "mounted and playing". `Tick` is one firing of that interval, and it does nothing while the interval is cleared. The song metadata and URL resolvers are parameters of `PlayerSlot.Update`.

Behaviour of the code that the model keeps, where a description of the design differs:

- Events are not filtered by handle, and seeks are not clamped. The code has neither. Old events cannot arrive only because the old instance is unmounted and its sound unloaded.
- A new track starts at volume 1. The key replacement builds a fresh component, and `useState(1)` runs again. The new sound is not loaded with the previous volume.
- The neighbour test in navigation is JavaScript truthiness (`!nextSong`). An empty-string id next to the active one is skipped like a missing one (`Queue.NextSkipsEmptyId`). The stepping laws are stated for queues without empty ids.
- On a one-entry queue, the end of the track selects the same id again. The URL, and so the key, does not change, so the controller is kept and nothing plays again (`Scenarios.SingleTrackStopsAtEnd`). Playback does not cycle in that case.
- The minutes of `getSongMinute` come from `VALUE_TIMER` or `MAX_VALUE_TIMER`, not from its argument (`TimeFormat.MinutesIgnoreArgument`). The two call sites pass the matching value, so both labels are `m:ss` of their own number.

## Model

| member | source | states |
|---|---|---|
| `Queue.FindIndex` | components/PlayerContent.tsx:33 | the result is -1 exactly when the active id is not in the queue; otherwise it is a position holding the active id with no earlier one |
| `Queue.NextTarget` | components/PlayerContent.tsx:33-40 | the id handed to `setId` by next is always an entry of the queue |
| `Queue.PreviousTarget` | components/PlayerContent.tsx:46-53 | the id handed to `setId` by previous is always an entry of the queue |
| `Queue.Next` | components/PlayerContent.tsx:30-41 | an empty queue leaves the active id unchanged; otherwise next selects some entry of the queue |
| `Queue.Previous` | components/PlayerContent.tsx:43-54 | an empty queue leaves the active id unchanged; otherwise previous selects some entry of the queue |
| `Queue.FindIndexOfDistinct` | components/PlayerContent.tsx:33 | in a queue without duplicates, the id at position k is found at k |
| `Queue.NextStepsForward` | components/PlayerContent.tsx:33-40 | when the active id is first found at i and i+1 is in bounds, next selects ids[i+1] |
| `Queue.NextWrapsFromLast` | components/PlayerContent.tsx:34-38 | from the last entry, next wraps to ids[0] |
| `Queue.NextFromMissing` | components/PlayerContent.tsx:33-38 | an active id that is absent or not in the queue (index -1) makes next select ids[0] |
| `Queue.PreviousStepsBack` | components/PlayerContent.tsx:46-53 | when the active id is first found at i > 0, previous selects ids[i-1] |
| `Queue.PreviousWrapsFromFirst` | components/PlayerContent.tsx:47-50 | from ids[0], previous wraps to the last entry |
| `Queue.PreviousFromMissing` | components/PlayerContent.tsx:46-50 | an active id that is not found makes previous select the last entry |
| `Queue.SingleEntryStays` | components/PlayerContent.tsx:30-54 | on a one-entry queue, both next and previous select that entry |
| `Queue.StepsOnDistinct` | components/PlayerContent.tsx:30-54 | on distinct, non-empty ids, next moves from position k to its cyclic successor, and previous to its cyclic predecessor |
| `Queue.PreviousAfterNext` | components/PlayerContent.tsx:30-54 | round trip: previous after next returns to the original id |
| `Queue.NextAfterPrevious` | components/PlayerContent.tsx:30-54 | round trip: next after previous returns to the original id |
| `Queue.NextStuckOnAdjacentDuplicate` | components/PlayerContent.tsx:33-40 | because the first occurrence wins, an id repeated right after its first occurrence makes next select the same id again |
| `Queue.NextIsBoundsTest` | components/PlayerContent.tsx:34-40 | without empty ids, the falsy test of next is exactly the index bounds test |
| `Queue.PreviousIsBoundsTest` | components/PlayerContent.tsx:47-53 | without empty ids, the falsy test of previous is exactly the index bounds test |
| `Queue.NextSkipsEmptyId` | components/PlayerContent.tsx:34-38 | an empty-string neighbour is treated as missing, and next wraps to ids[0] |
| `TimeFormat.Decimal` | components/PlayerContent.tsx:128 | `String(n)` is a non-empty digit string, one digit long exactly when n < 10, with no leading zero unless n is 0 |
| `TimeFormat.DecimalValue` | components/PlayerContent.tsx:128 | the decimal rendering reads back as n |
| `TimeFormat.PadStart` | components/PlayerContent.tsx:128 | `padStart` reaches the width, keeps the string as its suffix, and fills the front with the fill character |
| `TimeFormat.PaddedSecondsValue` | components/PlayerContent.tsx:128 | padding a seconds value below 100 to two characters keeps its numeric value |
| `TimeFormat.SecondsField` | components/PlayerContent.tsx:124-128 | the seconds field is two digits whose value is the seconds |
| `TimeFormat.GetSongMinute` | components/PlayerContent.tsx:123-129 | the label reads back as (source div 60) minutes plus (argument mod 60) seconds, where the source is MAX_VALUE_TIMER when `isMaxTimer` is set and VALUE_TIMER otherwise |
| `TimeFormat.ClockShape` | components/PlayerContent.tsx:123-129 | the label is the decimal minutes (n div 60), a colon, then two digits worth n mod 60 |
| `TimeFormat.ClockRoundTrip` | components/PlayerContent.tsx:123-129 | the `m:ss` label of n reads back as n |
| `TimeFormat.ClockInjective` | components/PlayerContent.tsx:123-129 | different second counts get different labels |
| `TimeFormat.ElapsedLabelIsClock` | components/PlayerContent.tsx:199 | the elapsed call site, which passes VALUE_TIMER as the argument, yields `m:ss` of VALUE_TIMER |
| `TimeFormat.DurationLabelIsClock` | components/PlayerContent.tsx:208 | the duration call site, which passes MAX_VALUE_TIMER with `isMaxTimer`, yields `m:ss` of MAX_VALUE_TIMER |
| `TimeFormat.MinutesIgnoreArgument` | components/PlayerContent.tsx:123-129 | the label depends on its argument only through the argument mod 60 |
| `Controller.MuteToggled` | components/PlayerContent.tsx:115-121 | the new volume is 0 exactly when the old volume was non-zero, and it is always 0 or 1 |
| `Controller.UnmuteRestoresFull` | components/PlayerContent.tsx:115-121 | two toggles from any non-zero volume give exactly 1, not the prior level |
| `Controller.ToggleTwiceFromSilence` | components/PlayerContent.tsx:115-121 | two toggles from volume 0 give 0 |
| `Controller.PlayPauseCall` | components/PlayerContent.tsx:107-113 | play is called exactly when not playing, and pause exactly when playing |
| `Controller.PlayerContent.constructor` | components/PlayerContent.tsx:22-25 | a new instance starts with volume 1, not playing, timer 0, no sound id, no interval and no engine call |
| `Controller.PlayerContent.SoundLoaded` | components/PlayerContent.tsx:99-101 | when the sound becomes available, the duration is recorded and exactly one play call is made |
| `Controller.PlayerContent.HandlePlay` | components/PlayerContent.tsx:107-113 | appends `PlayPauseCall(isPlaying)`: play when not playing, pause when playing; nothing else changes |
| `Controller.PlayerContent.ToggleMute` | components/PlayerContent.tsx:115-121 | the volume becomes 1 from 0, and 0 from any other level; nothing else changes |
| `Controller.PlayerContent.SetVolume` | components/PlayerContent.tsx:283-286 | the volume becomes the slider value; nothing else changes |
| `Controller.PlayerContent.Seek` | components/PlayerContent.tsx:203-206 | the timer becomes the requested value at once; a seek with the current sound id is sent only when the sound exists |
| `Controller.PlayerContent.OnPlay` | components/PlayerContent.tsx:66-69 | the engine's play event sets playing, records the sound id and schedules the interval |
| `Controller.PlayerContent.OnPause` | components/PlayerContent.tsx:74 | the engine's pause event clears playing and the interval |
| `Controller.PlayerContent.PlayNext` | components/PlayerContent.tsx:30-41 | the store's active id becomes `Queue.Next` of the queue and the old active id; nothing else changes |
| `Controller.PlayerContent.PlayPrevious` | components/PlayerContent.tsx:43-54 | the store's active id becomes `Queue.Previous` of the queue and the old active id; nothing else changes |
| `Controller.PlayerContent.OnEnd` | components/PlayerContent.tsx:70-73 | the end event clears playing and the interval, then takes the same wrap-around next step |
| `Controller.PlayerContent.Tick` | components/PlayerContent.tsx:82-97 | one interval firing adds exactly 1 to the timer while playing, and nothing otherwise |
| `Controller.PlayerContent.Unmount` | components/PlayerContent.tsx:94-104 | unmounting clears the interval and unloads the sound once, if it exists |
| `Controller.PlayerContent.ElapsedLabel` | components/PlayerContent.tsx:199 | the elapsed label is `m:ss` of the timer and reads back as the timer |
| `Controller.PlayerContent.DurationLabel` | components/PlayerContent.tsx:208 | the duration label is `m:ss` of the duration and reads back as the duration |
| `Player.Render` | components/Player.tsx:13 | a controller is rendered exactly when the song, a non-empty URL and a non-empty active id are all present, and it gets that song and URL |
| `Player.NothingWithoutActiveId` | components/Player.tsx:13 | nothing is rendered without an active id |
| `Player.NothingWithoutSong` | components/Player.tsx:13 | nothing is rendered while the song metadata is unresolved, even with an id active |
| `Player.NothingWithoutUrl` | components/Player.tsx:13 | nothing is rendered while the URL is unresolved, even with the metadata at hand |
| `Player.PlayerSlot.Update` | components/Player.tsx:27-33 | with the same URL the instance is kept untouched; with a new URL the old instance is unmounted (one unload if it had a sound) and a fresh one starts with timer 0, not playing, volume 1, duration 0, no sound id, no sound and no engine call; with nothing to render, no instance remains |

## Left out

- Floating point: the `toFixed`-based truncation of `timer` (line 131) and the rounding of the duration from milliseconds (line 132) are left out. Seconds are whole numbers (`nat`). Volume is a `real` in [0, 1], and only zero versus non-zero matters to the mute toggle.
- Controller.PlayerContent.Seek: the time slider moves in steps of 0.1; the model seeks to whole seconds only.
- Controller.PlayerContent.SoundLoaded: the duration arrives already rounded to whole seconds; the conversion from milliseconds is left out.
- TimeFormat.GetSongMinute: it is modelled for whole, non-negative seconds only. For values of 10^21 and more, `toFixed` switches to exponent notation; this is left out.
- Controller.PlayerContent.HandlePlay: it records the call to the engine. Whether `use-sound` ignores a play before its sound exists is engine behaviour and is not modelled.
- The internals of `use-sound` and howler are foreign code. This covers forwarding the volume to the sound, the `format`/`html5` options, and the real order and timing of callbacks.
- `hooks/usePlayer`, `hooks/useGetSongById` and `hooks/useLoadSongUrl` are not part of this model. The store is reduced to its queue, its active id and `setId`. The resolvers' answers are inputs to `Player.PlayerSlot.Update`.
- The engine callbacks are modelled as reading the store's current queue and active id. In the code, `onend` is the closure handed to the sound when it was created. It could therefore see an older snapshot of the store; this is not modelled.
- Concurrency: events are delivered one at a time. A timer firing that races with the effect that clears it is not modelled.
- Rendering: JSX, icons, `MediaItem`, `LikeButton`, styling and the slider wrapper are left out. The slider wrapper only forwards `newValue[0]`. The `song` prop is used only for display, so the controller does not hold it.
- Upload, user/auth context, liked-songs and user-songs queries, the liked page, the layout and the build configuration are left out. They are I/O and presentation around the backend.
