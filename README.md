# HLS video player controller, modelled in Dafny

This project models the playback controller in `src/components/HlsVideoPlayer.tsx`.
The controller is a React component. It plays an HLS stream through the
browser's native decoder when one exists, through the hls.js adaptive engine
otherwise, and reports an error when neither exists. The model covers:

- the engine slot, which holds at most one live engine;
- the quality menu built from the engine's levels: labels, the sort, and the
  two quality-preference resolvers;
- the engine's error handler;
- the media-element and fullscreen event handlers that fill the state record;
- the debounced play/pause toggle, with one guard for pointer clicks and one
  for the keyboard;
- the keyboard map, relative seeking and volume steps;
- the imperative handle (`play`, `pause`, `setQuality`, `getCurrentLevel`,
  `getLevels`);
- the unmount cleanup.

Modules, one file each:

- `Wrappers`: `Option`.
- `Decimal`: numerals and `padStart`, with their inverses.
- `Format`: `formatTime`, `formatBitrate` and `createQualityLabel`, each with
  a parser that reads the text back.
- `Levels`: the menu entries and the comparator sort.
- `Quality`: the preference resolvers used after manifest parsing and by
  `setQualityLevel`.
- `Recovery`: the error classification.
- `Debounce`: the guard and its traces.
- `Controls`: the clamped seek and volume, and key dispatch.
- `Player`: the `AdaptiveEngine` and `HlsVideoPlayer` classes.

The component's state is the `state` field of `HlsVideoPlayer`. Its refs
(`videoRef`, `hlsRef`, the debounce flags and timers) are the fields `video`,
`engine`, `clickGuard` and `keyboardGuard`. Every callback the component
can invoke (`onReady`, `onError`, `onQualityChanged`, `onPlay`, `onPause`,
`onEnded`) is taken to be supplied, and each invocation is appended to the
`calls` log; for a prop left out, the log records the call the component
would make if it were given. So are the browser requests it
issues: fullscreen request or exit, and blur. `HlsVideoPlayer.Valid()` is the
invariant every method keeps:

- every engine the player held before its current one is destroyed;
- while mounted, the element is rendered exactly when no error is shown;
- each guard has a pending reset exactly when its flag is set;
- native playback has no engine, no levels and quality -1;
- volumes stay in [0, 1].

Behaviour of the code that the model keeps, although a reader might expect
otherwise:

- A fatal media error always calls `recoverMediaError` (lines 276-278). No
  second error escalates to fatal, and there is no retry budget.
- The sort comparator (221-227) does not put levels without a height last.
  On tables that mix levels with and without a height it is not a consistent
  order (`Levels.ComparatorCycleOnMixedHeights`). The ordering lemmas are
  therefore stated for tables in which every level has a height.
- The nearest-height fallback (242-248) is a `reduce` that never replaces a
  height-less accumulator. A height-less first menu entry is therefore kept
  whatever the request. A nearest-height fallback exists only after manifest
  parsing, never in `setQualityLevel`. The `reduce` throws on an empty menu,
  and the handler then stops before `onReady`.
- An error makes the component render its error panel instead of the
  `<video>` element (628-635), and React then clears `videoRef`. The model
  sets `video` to `None` whenever an error is set. `initializePlayer` (178)
  returns early without an element, so a fatal error is not cleared by a new
  `src`.
- The generic fatal branch destroys the engine without emptying `hlsRef`
  (284). Unmount then calls `destroy` on it again, which the engine allows.

## Model

| member | source | states |
|---|---|---|
| Decimal.NatToString | src/components/HlsVideoPlayer.tsx:155 | decimal rendering of a count: digits only, no leading zero except for 0 itself, one digit exactly below 10 |
| Decimal.IntToString | src/components/HlsVideoPlayer.tsx:155 | `${n}` of an integer: the numeral of a non-negative one, a minus sign before the numeral of a negative one |
| Decimal.ParseNatToString | src/components/HlsVideoPlayer.tsx:155 | reading a rendered numeral gives back the number |
| Decimal.NatToStringInjective | src/components/HlsVideoPlayer.tsx:155 | distinct numbers render differently |
| Decimal.PadStart | src/components/HlsVideoPlayer.tsx:155 | `padStart`: the result has the requested width (or the input's, if longer), ends with the input and is padded only with the pad character |
| Decimal.TwoPlaces | src/components/HlsVideoPlayer.tsx:155 | a number below 100 padded to two places is its tens digit followed by its units digit |
| Decimal.LeadingDigitsOfNumeral | src/components/HlsVideoPlayer.tsx:168-170 | the run of digits at the head of a numeral followed by a non-digit is exactly that numeral |
| Format.FormatTime | src/components/HlsVideoPlayer.tsx:152-156 | for a non-negative time: the unsigned minutes numeral, a colon, and exactly two digits for the seconds |
| Format.ClockText | src/components/HlsVideoPlayer.tsx:153-155 | for a non-negative time the minutes render without a sign and the seconds pad to exactly their two digits |
| Format.ClockFields | src/components/HlsVideoPlayer.tsx:152-155 | for a non-negative time the seconds field, `floor(t % 60)` with JavaScript's remainder, lies in [0, 60), and 60 × minutes + seconds is `floor(t)` |
| Format.ParseTwoDigits | src/components/HlsVideoPlayer.tsx:155 | a two-digit field reads back as its value |
| Format.ParseClockOfParts | src/components/HlsVideoPlayer.tsx:155 | a clock string splits at its colon into the minutes numeral and the seconds field |
| Format.ParseClockOfFields | src/components/HlsVideoPlayer.tsx:155 | the clock text for given minutes and seconds below 60 reads back as those two numbers |
| Format.FormatTimeRoundTrip | src/components/HlsVideoPlayer.tsx:152-156 | `formatTime` of a non-negative time is `floor(t/60)`, a colon and a two-digit seconds field below 60, and reading it back gives the minutes and seconds of `floor(t)` |
| Format.RoundKbps | src/components/HlsVideoPlayer.tsx:161 | `Math.round(b/1000)`: the nearest whole kilobit rate, halves rounded up |
| Format.FormatBitrate | src/components/HlsVideoPlayer.tsx:159-162 | empty exactly for an absent or zero bitrate, otherwise ` (` … ` kbps)` |
| Format.FormatBitrateRoundTrip | src/components/HlsVideoPlayer.tsx:159-162 | the suffix is empty exactly for an absent or zero bitrate; otherwise it reads back as the rounded kbps |
| Format.CreateQualityLabel | src/components/HlsVideoPlayer.tsx:165-173 | a level with a truthy height gets a label starting with its height numeral and `p`; any other level one starting with `Quality ` |
| Format.HeightLabelParts | src/components/HlsVideoPlayer.tsx:167-169 | a `{h}p…` label announces height h and no ordinal |
| Format.OrdinalLabelParts | src/components/HlsVideoPlayer.tsx:170 | a `Quality {n}…` label announces ordinal n and no height |
| Format.LabelRoundTrip | src/components/HlsVideoPlayer.tsx:165-173 | a label announces the level's height exactly when it has a truthy one, otherwise the 1-based position; either way it ends with the level's bitrate suffix |
| Levels.BuildLevels | src/components/HlsVideoPlayer.tsx:213-218 | one menu entry per engine level, in engine order, each carrying its engine index, height, rounded kbps and label |
| Levels.Compare | src/components/HlsVideoPlayer.tsx:221-227 | the comparator: on two levels with heights it puts `a` after `b` exactly when `b` is taller, or equally tall with a higher kbps, and calls them equal exactly when both agree; otherwise it compares kbps alone |
| Levels.Insert | src/components/HlsVideoPlayer.tsx:221-227 | one stable insertion step of the sort: one entry longer, containing the new entry and every old one |
| Levels.SortLevels | src/components/HlsVideoPlayer.tsx:221-227 | `levels.sort(comparator)`: as long as its input and containing every input entry |
| Levels.InsertPermutes | src/components/HlsVideoPlayer.tsx:221-227 | one insertion step of the stable sort adds exactly the inserted entry |
| Levels.SortPermutes | src/components/HlsVideoPlayer.tsx:221-227 | sorting keeps every entry, with its engine index, exactly once |
| Levels.AfterOnHeights | src/components/HlsVideoPlayer.tsx:222-224 | on two levels with heights the comparator orders by height descending, then bitrate descending |
| Levels.InMultiset | src/components/HlsVideoPlayer.tsx:221-227 | every entry after an insertion is the inserted one or an old one |
| Levels.ConsSorted | src/components/HlsVideoPlayer.tsx:221-227 | an entry the comparator puts after none of a sorted table's entries can head it |
| Levels.InsertSorted | src/components/HlsVideoPlayer.tsx:221-227 | inserting into a table of levels with heights that agrees with the comparator keeps it in agreement |
| Levels.SortSortedOnHeights | src/components/HlsVideoPlayer.tsx:221-227 | sorting a table whose levels all have heights leaves no pair the comparator would swap |
| Levels.SortOrdersByHeightThenBitrate | src/components/HlsVideoPlayer.tsx:220-227 | a table of levels with heights comes out by height descending and, among equal heights, bitrate descending |
| Levels.SortKeepsSorted | src/components/HlsVideoPlayer.tsx:221-227 | a table the comparator already accepts is left unchanged |
| Levels.SortIdempotent | src/components/HlsVideoPlayer.tsx:221-227 | sorting a table of levels with heights twice equals sorting it once |
| Levels.ConsStrictlySorted | src/components/HlsVideoPlayer.tsx:221-227 | an entry that precedes every entry of a table in height, bitrate, index order can head it |
| Levels.HeadBeforeInserted | src/components/HlsVideoPlayer.tsx:221-227 | the head of an ordered table precedes everything in its tail with a later entry inserted |
| Levels.InsertStable | src/components/HlsVideoPlayer.tsx:221-227 | inserting an entry with a smaller engine index than all others keeps the table in height, bitrate, index order |
| Levels.SortStable | src/components/HlsVideoPlayer.tsx:221-227 | the sort is stable: entries equal in height and bitrate keep their engine order |
| Levels.MenuOrder | src/components/HlsVideoPlayer.tsx:213-229 | the menu built from engine levels that all have heights is a permutation of them, ordered by height desc, bitrate desc, then engine index asc |
| Levels.ComparatorCycleOnMixedHeights | src/components/HlsVideoPlayer.tsx:221-227 | on levels with and without heights the comparator has a cycle: three levels each belonging after the next |
| Quality.FindByHeight | src/components/HlsVideoPlayer.tsx:242 | `levels.find(l => l.height === h)`: the first entry with that exact height, and `None` exactly when there is none |
| Quality.ReduceNearest | src/components/HlsVideoPlayer.tsx:243-248 | the `reduce` fold returns a valid position of the menu |
| Quality.Nearest | src/components/HlsVideoPlayer.tsx:243-248 | the fold over a non-empty menu returns a valid position |
| Quality.ReduceNearestFindsFirstClosest | src/components/HlsVideoPlayer.tsx:243-248 | a fold whose accumulator has a height and is the first closest level so far among the levels with heights ends on the first closest level overall: only strictly closer candidates with a height replace it |
| Quality.NearestIsFirstClosestAmongHeights | src/components/HlsVideoPlayer.tsx:243-248 | when the first entry has a height, the fallback is the first entry at least distance among the entries with a height; height-less candidates are skipped |
| Quality.NearestIsFirstClosest | src/components/HlsVideoPlayer.tsx:243-248 | on a menu whose levels all have heights, the fallback is the first entry at minimum distance from the request, so ties keep the earlier, higher-ranked level |
| Quality.ReduceKeepsHeightless | src/components/HlsVideoPlayer.tsx:244 | a height-less accumulator is never replaced |
| Quality.NearestKeepsHeightlessFirst | src/components/HlsVideoPlayer.tsx:244 | when the first menu entry has no height the fallback is that entry, whatever the request |
| Quality.ResolveInitial | src/components/HlsVideoPlayer.tsx:233-254 | the initial preference: `auto` keeps the engine level; an index is applied only inside the engine's level range; a height takes the first exact match, else the fold's choice, and assigns that entry's engine index; it throws exactly on an empty menu with no match |
| Quality.ResolveRuntime | src/components/HlsVideoPlayer.tsx:570-585 | `setQualityLevel`'s choice: `auto` is -1; an index only inside the engine's level range; a height is applied exactly when some entry has that height, and assigns that entry's engine index |
| Quality.ResolversAgreeOnExactHeight | src/components/HlsVideoPlayer.tsx:580-583 | with an exact height match the runtime `find` (580-583) and the initial one (242) pick the same level |
| Quality.ResolversDifferWithoutExactHeight | src/components/HlsVideoPlayer.tsx:242-250 | without an exact match the initial resolver falls back to the nearest level, while the runtime resolver (580-583) does nothing |
| Quality.InitialPrefersNearestHeight | src/components/HlsVideoPlayer.tsx:243-248 | on 1080p/720p/360p a request for 700 falls back to 720p |
| Recovery.ReactTo | src/components/HlsVideoPlayer.tsx:274-287 | a non-fatal error does nothing; fatal media recovers without message or destroy; fatal network sets the network message and keeps the engine; any other fatal error sets the generic message and destroys |
| Recovery.ReactionsExclusive | src/components/HlsVideoPlayer.tsx:274-287 | recovering and destroying never both happen, a network error never destroys, and a recovery shows no message |
| Debounce.Trigger | src/components/HlsVideoPlayer.tsx:455-475 | a trigger while the flag is set is dropped and changes nothing; otherwise it toggles once and sets the flag with a reset pending; the guard stays consistent |
| Debounce.Elapse | src/components/HlsVideoPlayer.tsx:473-475 | the reset, when pending, clears the flag; otherwise nothing changes |
| Debounce.Cancel | src/components/HlsVideoPlayer.tsx:619-624 | unmount clears the pending reset and leaves the flag |
| Debounce.Run | src/components/HlsVideoPlayer.tsx:455-475 | a trace of presses and elapsed windows on one channel toggles at most once per event, and an empty trace changes nothing |
| Debounce.BurstTogglesOnce | src/components/HlsVideoPlayer.tsx:455-475 | any burst of presses within one window toggles once from a clear guard, and not at all while the flag is set |
| Debounce.SpacedPressesEachToggle | src/components/HlsVideoPlayer.tsx:455-475 | n presses each followed by an elapsed window toggle n times |
| Debounce.TogglesBoundedByWindows | src/components/HlsVideoPlayer.tsx:455-475 | in any interleaving a channel toggles at most once per elapsed window, plus once if it starts clear |
| Controls.SeekTarget | src/components/HlsVideoPlayer.tsx:437 | the target is in [0, duration], and it is the requested position whenever that lies in range |
| Controls.AdjustedVolume | src/components/HlsVideoPlayer.tsx:443 | the volume is in [0, 1], and it is the requested value whenever that lies in range |
| Controls.VolumeStepsDownToZero | src/components/HlsVideoPlayer.tsx:541-543 | in real arithmetic five down-arrow steps from 0.5 reach exactly 0 |
| Controls.Bindings | src/components/HlsVideoPlayer.tsx:515-545 | the key table binds only real controls, with Space and KeyK both bound to the debounced toggle |
| Controls.KeyCommandFor | src/components/HlsVideoPlayer.tsx:503-545 | `handleKeyDown`'s choice: nothing happens without an element or from a text field, and a blur happens exactly when the video element itself is the target |
| Controls.DispatchFollowsBindings | src/components/HlsVideoPlayer.tsx:515-545 | outside text fields and the video element, a key gets exactly its bound control (Space/KeyK toggle, KeyM mute, KeyF fullscreen, arrows seek ∓5 and volume ±0.1) and any other key nothing |
| Controls.TextEntryIgnoresKeys | src/components/HlsVideoPlayer.tsx:504-507 | keydowns from INPUT or TEXTAREA, or while no element is rendered, do nothing |
| Player.InitialState | src/components/HlsVideoPlayer.tsx:132-143 | first render: not playing, muted as the prop says, loading, volume 1, no levels, quality -1, not native, no error |
| Player.Toggled | src/components/HlsVideoPlayer.tsx:407-411 | `play()` on a paused element and `pause()` otherwise flip its paused flag and nothing else |
| Player.AdaptiveEngine.constructor | src/components/HlsVideoPlayer.tsx:200-205 | a new engine holds its configuration, no source, no levels, level -1, not destroyed |
| Player.AdaptiveEngine.LoadSource | src/components/HlsVideoPlayer.tsx:209 | the engine records its source |
| Player.AdaptiveEngine.AttachMedia | src/components/HlsVideoPlayer.tsx:210 | the engine is attached to the element |
| Player.AdaptiveEngine.ParseManifest | src/components/HlsVideoPlayer.tsx:212-213 | the engine's levels are those of the parsed manifest |
| Player.AdaptiveEngine.RecoverMediaError | src/components/HlsVideoPlayer.tsx:277 | one more recovery attempt is recorded |
| Player.AdaptiveEngine.Destroy | src/components/HlsVideoPlayer.tsx:284 | the engine is destroyed; calling it again, as the cleanup at 614 may, is allowed |
| Player.HlsVideoPlayer.constructor | src/components/HlsVideoPlayer.tsx:123-143 | mounting: the element is rendered, no engine, both guards clear, the initial state, nothing called |
| Player.HlsVideoPlayer.UpdateProps | src/components/HlsVideoPlayer.tsx:95-121 | a re-render with new props keeps the invariant |
| Player.HlsVideoPlayer.InitializePlayer | src/components/HlsVideoPlayer.tsx:176-294 | with no element or no source nothing changes, the held engine included; otherwise the error is cleared, loading set and the previous engine destroyed and retired; native playback sets the element's source, no levels, quality -1 and calls `onReady`; the engine branch stores a fresh engine with the configured tuning, loaded and attached; otherwise the "not supported" error replaces the element and `onError` is called |
| Player.HlsVideoPlayer.RetireEngine | src/components/HlsVideoPlayer.tsx:183-187 | an engine in the slot is destroyed and the slot emptied, so at most one engine is ever live |
| Player.HlsVideoPlayer.StartNative | src/components/HlsVideoPlayer.tsx:192-197 | the element gets the source; levels empty, quality -1, `onReady` called |
| Player.HlsVideoPlayer.StartEngine | src/components/HlsVideoPlayer.tsx:198-210 | a fresh engine with `enableWorker` and the three tuning props, loaded with the source and attached, is stored |
| Player.HlsVideoPlayer.ReportUnsupported | src/components/HlsVideoPlayer.tsx:291-294 | the "not supported" message is shown instead of the element and `onError` is called |
| Player.HlsVideoPlayer.OnManifestParsed | src/components/HlsVideoPlayer.tsx:212-257 | the menu becomes the sorted engine levels and the shown quality the engine's level; the initial resolver's choice, if any, becomes the engine level; `onReady` follows unless the fallback threw |
| Player.HlsVideoPlayer.OnLevelSwitched | src/components/HlsVideoPlayer.tsx:259-269 | the shown quality follows the engine; `onQualityChanged` gets index, height and rounded kbps exactly when the level exists |
| Player.HlsVideoPlayer.OnEngineError | src/components/HlsVideoPlayer.tsx:271-290 | the engine recovers, is destroyed, or neither, as `ReactTo` says; a message replaces the element; `onError` is called exactly once; the slot keeps the engine |
| Player.HlsVideoPlayer.SetQualityLevel | src/components/HlsVideoPlayer.tsx:566-586 | nothing without an engine or under native playback; otherwise the runtime resolver's choice, if any, becomes the engine level, and the engine's levels, source, attachment, recoveries and destroyed flag stay as they were |
| Player.HlsVideoPlayer.OnLoadStart | src/components/HlsVideoPlayer.tsx:343 | loading is set |
| Player.HlsVideoPlayer.OnCanPlay | src/components/HlsVideoPlayer.tsx:344 | loading is cleared |
| Player.HlsVideoPlayer.OnPlay | src/components/HlsVideoPlayer.tsx:345-348 | playing is set and `onPlay` called |
| Player.HlsVideoPlayer.OnPause | src/components/HlsVideoPlayer.tsx:349-352 | playing is cleared and `onPause` called |
| Player.HlsVideoPlayer.OnEnded | src/components/HlsVideoPlayer.tsx:353-356 | playing is cleared and `onEnded` called |
| Player.HlsVideoPlayer.OnTimeUpdate | src/components/HlsVideoPlayer.tsx:357-363 | the position is copied; the buffered time becomes the end of the last buffered range when there is one and is kept otherwise |
| Player.HlsVideoPlayer.OnDurationChange | src/components/HlsVideoPlayer.tsx:364 | the duration is copied |
| Player.HlsVideoPlayer.OnVolumeChange | src/components/HlsVideoPlayer.tsx:365-368 | volume and mute are copied, so the shown volume stays in [0, 1] |
| Player.HlsVideoPlayer.OnFullscreenChange | src/components/HlsVideoPlayer.tsx:392-399 | the fullscreen flag follows the document |
| Player.HlsVideoPlayer.MediaProgresses | src/components/HlsVideoPlayer.tsx:357-364 | the element's own progress (position, duration, buffered ranges, paused) that the handlers read |
| Player.HlsVideoPlayer.TogglePlayPause | src/components/HlsVideoPlayer.tsx:402-415 | a rendered element is started when paused and paused otherwise |
| Player.HlsVideoPlayer.ToggleMute | src/components/HlsVideoPlayer.tsx:417-421 | a rendered element's mute flag is flipped |
| Player.HlsVideoPlayer.ToggleFullscreen | src/components/HlsVideoPlayer.tsx:423-432 | with a rendered element, fullscreen is requested when the document has none and exited otherwise |
| Player.HlsVideoPlayer.SeekRelative | src/components/HlsVideoPlayer.tsx:434-438 | the new position is the clamped target, in [0, duration] |
| Player.HlsVideoPlayer.AdjustVolume | src/components/HlsVideoPlayer.tsx:440-446 | the new volume is the clamped target in [0, 1], and the element is muted exactly when it is 0 |
| Player.HlsVideoPlayer.HandleSeekInput | src/components/HlsVideoPlayer.tsx:552-556 | the seek bar's value becomes the position |
| Player.HlsVideoPlayer.HandleVolumeInput | src/components/HlsVideoPlayer.tsx:558-564 | the slider's value becomes the volume, muted exactly at 0 |
| Player.HlsVideoPlayer.HandleVideoClick | src/components/HlsVideoPlayer.tsx:448-476 | clicks inside the controls are ignored before the guard; otherwise the pointer guard decides whether the toggle runs; the keyboard guard is untouched |
| Player.HlsVideoPlayer.ClickWindowElapses | src/components/HlsVideoPlayer.tsx:473-475 | the pointer reset fires; the keyboard guard is untouched |
| Player.HlsVideoPlayer.HandleKeyboardToggle | src/components/HlsVideoPlayer.tsx:478-499 | the keyboard guard decides whether the toggle runs; the pointer guard is untouched |
| Player.HlsVideoPlayer.KeyboardWindowElapses | src/components/HlsVideoPlayer.tsx:496-498 | the keyboard reset fires; the pointer guard is untouched |
| Player.HlsVideoPlayer.HandleKeyDown | src/components/HlsVideoPlayer.tsx:503-545 | the control the key map selects is carried out and nothing else changes: the debounced toggle, mute, fullscreen, clamped seek by ∓5, clamped volume by ±0.1, a blur when the video element has focus |
| Player.HlsVideoPlayer.Play | src/components/HlsVideoPlayer.tsx:590-596 | accepted exactly when an element is rendered, which then starts |
| Player.HlsVideoPlayer.Pause | src/components/HlsVideoPlayer.tsx:597-602 | a rendered element is paused |
| Player.HlsVideoPlayer.GetCurrentLevel | src/components/HlsVideoPlayer.tsx:605 | the shown quality, -1 under native playback |
| Player.HlsVideoPlayer.GetLevels | src/components/HlsVideoPlayer.tsx:606 | the menu, empty under native playback |
| Player.HlsVideoPlayer.Unmount | src/components/HlsVideoPlayer.tsx:611-626 | the engine in the slot is destroyed, even if already destroyed, and is otherwise unchanged; both pending resets are cleared |

## Left out

- The 5-second stats sampler (308-331) is left out. It runs on a real interval timer and computes with floating-point values.
- Real timers are left out. Each 200 ms debounce reset is an explicit `ClickWindowElapses` / `KeyboardWindowElapses` step, and `Debounce.Run` takes `WindowElapses` events.
- Browser capability probes become parameters of `InitializePlayer`: `canPlayType` (146-149) is `nativeSupported`, and `Hls.isSupported()` is `engineSupported`.
- Fullscreen changes and blur are not modelled as DOM effects. Fullscreen requests and exits, and the blur, are entries in the `calls` log. `document.fullscreenElement` is a parameter.
- `preventDefault` and `stopPropagation` are left out because they are browser event plumbing. So are `addEventListener` and `removeEventListener`, and the handler that blurs the video element on focus.
- Player.HlsVideoPlayer.Play: the model only says whether the element is rendered. It leaves out the promise that `play()` returns and its rejection (594-595). It also leaves out the logged rejection inside `togglePlayPause` (412-414), where autoplay policy may refuse to start playback.
- `getVideoElement` (607) is left out: it returns the element itself, which the model holds as the `video` field.
- The handle's `toggleMute` (603) is the same method as `ToggleMute`.
- Program logging (`console.error`, 272 and 413) is left out.
- Levels.SortOrdersByHeightThenBitrate: ordering is proved only for tables whose levels all have heights. On mixed tables the comparator is inconsistent, so the result depends on the engine's sort algorithm. The model fixes one stable insertion order; the cycle lemma shows why no order property holds there.
- `levels.sort` mutates an array in place, but that array is the fresh result of `map` and has no other reference. The model sorts it as a value (`SortLevels`).
- Volumes, times and durations are Dafny reals, not IEEE doubles. No claim is made about rounding, NaN or infinite durations.
- Controls.VolumeStepsDownToZero holds in real arithmetic only: in IEEE arithmetic repeated 0.1 steps need not reach 0 exactly.
- Level heights, bitrates and indices are whole numbers. A `{levelIndex}` or `{height}` that is not an integer is not modelled.
- The engine's internals are not modelled: manifest loading, adaptive bitrate and `bandwidthEstimate`. The engine is an object with a level list, a current level, a destroyed flag and a recovery count, and `ParseManifest` stands for its parsing. What happens inside the engine when a handler throws is not modelled either.
- Events from an engine other than the one in the slot are not modelled, and neither are events after it is destroyed. Element events after the element has been removed are not modelled either.
- The JSX rendering is left out, since it is presentational: controls, menu, progress-bar widths, captions, poster, autoplay and `playsInline`. Only its effect on `videoRef` is kept.
- React's effect scheduling is left out. Which prop changes re-run `initializePlayer` is the caller's choice of calling `InitializePlayer` again. The stale closures that handlers capture are not modelled.
- The rest of the repository is not part of this model: the pages, the layout, the stream cards and the theme toggle.
