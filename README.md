# mashup-hour, modelled in Dafny

mashup-hour has two halves.

The frontend plays two source tracks and a generated mashup. Each track has a `Player` object, the playback transport. It owns:

- play/pause state;
- a loop window between a start bound and an end bound;
- direction, rate and pitch lock;
- an estimate of the playhead position that is refreshed every 500 ms.

Around the player sit a play bar and knobs. The play bar is a slider with a seek handle and two loop-bound handles. A knob maps a vertical drag onto a value in [min, max]. A selector steps through the mashups of the page.

The backend builds the assets:

- It picks random Deezer tracks that have a preview.
- It mashes two track assets by interleaving the words of their titles, artists and album titles.
- It draws a checkered cover from the two covers.
- It caches the serialized assets in Redis, cut into numbered chunks.

The model covers these modules:

- `PlayerSpec` (player_spec.dfy): the transport as a value. `Transport` holds the whole state of a `Player` together with the Tone.js player it drives. Each operation (refresh, toggle, onstop, onload, the setters) is a function from the old state to the new one. The properties of the position estimator and of the toggle are proved about these functions.
- `PlayerClass` (player_class.dfy): the `Player` class itself. Its fields are updated in place. Each method is proved to move the state exactly as the matching `PlayerSpec` function does. Ghost logs record what the class hands to the world: the observer's payloads, the start/stop commands sent to the device, and the onstop notices.
- `PlayBar` (playbar.dfy): the drag handlers as functions on the bar's state, plus a class `Bar` that performs them. The main property: no sequence of mouse events can make the loop window empty.
- `Knob` (knob.dfy): the knob's drag arithmetic and its piecewise-linear value map, plus a class `KnobControl` that performs them.
- `TrackAssets` (track.dfy):
  - word interleaving (`combine_alternating_words`, `mash_track_assets`);
  - the preview search (`find_index_with_preview`);
  - the index arithmetic of `pick_random_track`, as written and corrected.
- `AssetCache` (manager.dfy):
  - `chunk_string`;
  - the key layout that `refresh_assets_cache` writes and `retrieve_assets` reads;
  - `get_cached_value`'s miss-refresh-retry path.

  Redis is a map from keys to byte strings, held by the class `RedisCache`.
- `Cover` (cover.dfy): the nested loops of `create_checkered_image` over two-dimensional arrays. The result is proved pixel by pixel, and every pixel is proved to be written exactly once.
- `MashupSelector` (selector.dfy): the next/previous buttons, as written and corrected.
- `Division` (division.dfy): the quotient and remainder of k * n + r, which the cover's block arithmetic and the selector's index arithmetic share.
- `Wrappers` (wrappers.dfy) and `Errors` (errors.dfy) hold the `Option`/`Result` types and the backend's error kinds. `RedisError` has no counterpart in src/error.rs. It stands for the Redis client's conversion failure, which the source passes on through `?`.

Units follow the source. The position estimate and the time reference are in milliseconds. Bounds and durations are in seconds. JavaScript numbers are modelled as `real`, so rounding is not modelled.

Four points of player.ts shape the transport model:

- The rate, reverse and bound setters store the new value first and refresh afterwards (player.ts:91-102, 131-148). The time elapsed since the last refresh is therefore folded in under the new rate or direction, not the old one. `RateChangeFoldsWithNewRate` and `ReverseFoldsWithNewDirection` state this.
- There is no seek counter and no seek operation in player.ts. The onstop handler always reports "not playing". It then forces a refresh, which folds in the elapsed time and never snaps to the anchor, even with `restartOnPause` (`OnStopFoldsElapsedTime`).
- Setting the bounds of a stopped player moves the playhead to the new anchor only with `restartOnPause`. That move comes from the idle branch of refreshPosition (`SetBoundsWhileStopped`).
- The direction setter does not re-seek the device.

## Model

| member | source | states |
|---|---|---|
| PlayerSpec.ForwardRefresh | mashup-hour-frontend/src/components/player/player.ts:158-164 | a started or forced forward refresh adds (now - timeReference) * rate; a result at or past the end bound is carried over to the start bound; the time reference becomes now |
| PlayerSpec.ReverseRefresh | mashup-hour-frontend/src/components/player/player.ts:153-164 | a reverse refresh subtracts the advance; a result at or before the start bound is carried over to the end bound |
| PlayerSpec.WrapExample | mashup-hour-frontend/src/components/player/player.ts:158-162 | bounds 10 s and 20 s, position 19 s, 2 s elapsed at rate 1 forward gives 11 s |
| PlayerSpec.AdvanceStaysInWindow | mashup-hour-frontend/src/components/player/player.ts:153-162 | an advance shorter than the loop keeps a position in its window, [start, end) forward and (start, end] in reverse |
| PlayerSpec.RefreshStaysInWindow | mashup-hour-frontend/src/components/player/player.ts:150-164 | a refresh of a settled transport with less than one loop elapsed leaves it settled |
| PlayerSpec.RefreshTwiceSameInstant | mashup-hour-frontend/src/components/player/player.ts:150-164 | a second started refresh at the same instant changes nothing (idempotence) |
| PlayerSpec.IdleRefresh | mashup-hour-frontend/src/components/player/player.ts:165-167 | an unforced refresh of a stopped device changes only the position, and that only with restartOnPause, to the anchor bound |
| PlayerSpec.StoppedTransportHolds | mashup-hour-frontend/src/components/player/player.ts:45-48 | after onstop, without restartOnPause, later refreshes leave the transport unchanged |
| PlayerSpec.OnStopFoldsElapsedTime | mashup-hour-frontend/src/components/player/player.ts:45-48 | onstop's forced refresh folds in the elapsed time and re-bases the time reference |
| PlayerSpec.ToggleOn | mashup-hour-frontend/src/components/player/player.ts:56-71 | switching on sets the resume position (anchor with restartOnPause; end bound when reversed at 0; else unchanged), starts the device at the mirrored offset when reversed, re-bases time, and arms a timer |
| PlayerSpec.ToggleOnKeepsOneTimer | mashup-hour-frontend/src/components/player/player.ts:67-71 | a timer is created only when none is set; switching on twice keeps the first timer |
| PlayerSpec.ToggleOff | mashup-hour-frontend/src/components/player/player.ts:72-76 | switching off clears the timer, stops the device, sends Stop and changes nothing else |
| PlayerSpec.PauseThenResume | mashup-hour-frontend/src/components/player/player.ts:45-77 | pause, onstop, play: playback resumes where the onstop handler left the playhead, position + elapsed * rate inside the loop |
| PlayerSpec.RateChangeFoldsWithNewRate | mashup-hour-frontend/src/components/player/player.ts:96-102 | the rate setter folds the pending interval at the new rate and stores the rate on the device |
| PlayerSpec.ReverseFoldsWithNewDirection | mashup-hour-frontend/src/components/player/player.ts:91-94 | the direction setter folds the pending interval in the new direction |
| PlayerSpec.PitchFollowsRate | mashup-hour-frontend/src/components/player/player.ts:96-121 | the pitch compensates the rate only while pitch-consistent playback is on; switching it off resets the pitch to 0 and keeps the position |
| PlayerSpec.SetBoundsStoresBoth | mashup-hour-frontend/src/components/player/player.ts:143-148 | setBounds stores both bounds and both device loop points |
| PlayerSpec.SetBoundsWhileStopped | mashup-hour-frontend/src/components/player/player.ts:143-148 | for a stopped player the position becomes the new anchor with restartOnPause and is kept without it |
| PlayerSpec.OnLoadSetsEnd | mashup-hour-frontend/src/components/player/player.ts:50-52 | onload sets the end bound to the buffer's duration and keeps the position |
| PlayerClass.Player.constructor | mashup-hour-frontend/src/components/player/player.ts:15-53 | a new player: position, time reference and bounds 0, no timer, device stopped at rate 1, empty logs |
| PlayerClass.Player.Position | mashup-hour-frontend/src/components/player/player.ts:172-174 | the position getter is the millisecond estimate in seconds |
| PlayerClass.Player.IsStarted | mashup-hour-frontend/src/components/player/player.ts:123-125 | true exactly when the device is started |
| PlayerClass.Player.Duration | mashup-hour-frontend/src/components/player/player.ts:127-129 | the device buffer's duration |
| PlayerClass.Player.Reverse | mashup-hour-frontend/src/components/player/player.ts:87-89 | the device's direction |
| PlayerClass.Player.RefreshPosition | mashup-hour-frontend/src/components/player/player.ts:150-170 | the new state is Refresh(old state); the observer receives the new position in seconds when one is registered; nothing is sent to the device |
| PlayerClass.Player.TogglePlayer | mashup-hour-frontend/src/components/player/player.ts:55-77 | the new state is Toggle(old state), and exactly one start or stop command is sent |
| PlayerClass.Player.OnStop | mashup-hour-frontend/src/components/player/player.ts:45-48 | the device is stopped, one "not playing" notice is given, and a forced refresh follows |
| PlayerClass.Player.OnLoad | mashup-hour-frontend/src/components/player/player.ts:50-52 | the duration is recorded and the end bound moves to it |
| PlayerClass.Player.SetOnPositionUpdate | mashup-hour-frontend/src/components/player/player.ts:79-81 | registers the observer and changes nothing else |
| PlayerClass.Player.SetRestartOnPause | mashup-hour-frontend/src/components/player/player.ts:25 | sets the public flag and changes nothing else |
| PlayerClass.Player.SetLoop | mashup-hour-frontend/src/components/player/player.ts:83-85 | sets the device's loop flag only |
| PlayerClass.Player.SetVolume | mashup-hour-frontend/src/components/player/player.ts:104-106 | sets the device's volume only |
| PlayerClass.Player.SetMute | mashup-hour-frontend/src/components/player/player.ts:108-110 | sets the device's mute only |
| PlayerClass.Player.SetReverse | mashup-hour-frontend/src/components/player/player.ts:91-94 | stores the direction, then refreshes, so the new state is SetReverse(old state) |
| PlayerClass.Player.SetPlaybackRate | mashup-hour-frontend/src/components/player/player.ts:96-102 | retunes the pitch when pitch-consistent, stores the rate, then refreshes |
| PlayerClass.Player.SetPitchConsistentPlayback | mashup-hour-frontend/src/components/player/player.ts:112-121 | the pitch compensates the current rate when switched on and is 0 when switched off |
| PlayerClass.Player.SetStartBound | mashup-hour-frontend/src/components/player/player.ts:131-135 | stores the start bound and the device loop start, then refreshes |
| PlayerClass.Player.SetEndBound | mashup-hour-frontend/src/components/player/player.ts:137-141 | stores the end bound and the device loop end, then refreshes |
| PlayerClass.Player.SetBounds | mashup-hour-frontend/src/components/player/player.ts:143-148 | stores both bounds and loop points, then refreshes once |
| PlayBar.MousePosClamped | mashup-hour-frontend/src/components/controllers/PlayBar.tsx:58-62 | the handle position lies in [-w/2, sliderWidth - w/2], w being 16 for the seek handle and 10 for a bound handle |
| PlayBar.CandidateRange | mashup-hour-frontend/src/components/controllers/PlayBar.tsx:62-63 | the time a handle is dragged to lies between -(w/2)/sliderWidth of the duration and just under the full duration |
| PlayBar.IdleMoveIsNoOp | mashup-hour-frontend/src/components/controllers/PlayBar.tsx:55-60 | a move with no handle grabbed, or with no slider element, changes nothing and calls nothing |
| PlayBar.SeekDragOnlyMovesPlayhead | mashup-hour-frontend/src/components/controllers/PlayBar.tsx:65-66 | dragging the seek handle moves only the playhead and makes no player call |
| PlayBar.EndDragGuarded | mashup-hour-frontend/src/components/controllers/PlayBar.tsx:67-69 | the end bound moves, and setEnd is called, exactly when the new time is after the start bound; otherwise nothing changes |
| PlayBar.StartDragGuarded | mashup-hour-frontend/src/components/controllers/PlayBar.tsx:70-72 | the start bound moves, and setStart is called, exactly when the new time is before the end bound |
| PlayBar.StepKeepsOrdered | mashup-hour-frontend/src/components/controllers/PlayBar.tsx:37-76 | grabbing, releasing and moving each keep start < end |
| PlayBar.RunKeepsOrdered | mashup-hour-frontend/src/components/controllers/PlayBar.tsx:37-76 | any sequence of events keeps start < end |
| PlayBar.InitialOrderedAlways | mashup-hour-frontend/src/components/controllers/PlayBar.tsx:24-28 | from the first render of a track of positive duration, the loop window is never empty |
| PlayBar.Bar.constructor | mashup-hour-frontend/src/components/controllers/PlayBar.tsx:24-28 | initial state: nothing dragged, playhead and start at 0, end at the track's duration |
| PlayBar.Bar.StartDrag | mashup-hour-frontend/src/components/controllers/PlayBar.tsx:42-45 | records the grabbed handle only |
| PlayBar.Bar.StopDrag | mashup-hour-frontend/src/components/controllers/PlayBar.tsx:37-40 | clears the grabbed handle only |
| PlayBar.Bar.OnDrag | mashup-hour-frontend/src/components/controllers/PlayBar.tsx:55-76 | the new state is Drag(old state), the player calls are DragCalls(old state), and start < end is kept |
| Knob.NewPercentInRange | mashup-hour-frontend/src/components/controllers/Knob.tsx:46-47 | the new percent lies in [0, 1] and is the unclamped -dy * 0.02 + percent whenever that lies in [0, 1] |
| Knob.ValueAtEnds | mashup-hour-frontend/src/components/controllers/Knob.tsx:49-55 | percent 0, 0.5 and 1 map to min, mid and max |
| Knob.ValueInRange | mashup-hour-frontend/src/components/controllers/Knob.tsx:49-55 | with min <= mid <= max the value stays in [min, max] |
| Knob.BelowMid | mashup-hour-frontend/src/components/controllers/Knob.tsx:51-54 | the lower half of the knob covers [min, mid] |
| Knob.AboveMid | mashup-hour-frontend/src/components/controllers/Knob.tsx:49-50 | the upper half covers [mid, max] |
| Knob.ValueMonotone | mashup-hour-frontend/src/components/controllers/Knob.tsx:49-55 | the value is monotone in the percent |
| Knob.RotationInRange | mashup-hour-frontend/src/components/controllers/Knob.tsx:104 | the indicator turns within [-120, 120] degrees and points up at 0.5 |
| Knob.DragIsRelative | mashup-hour-frontend/src/components/controllers/Knob.tsx:40-58 | each move re-bases startY, so two moves compose relative to the last event; a move while not dragging does nothing and reports nothing |
| Knob.KnobControl.constructor | mashup-hour-frontend/src/components/controllers/Knob.tsx:17-19 | percent 0.5, not dragging, startY 0 |
| Knob.KnobControl.RotationAngle | mashup-hour-frontend/src/components/controllers/Knob.tsx:104 | the rendered rotation is within [-120, 120] degrees |
| Knob.KnobControl.Reset | mashup-hour-frontend/src/components/controllers/Knob.tsx:22-25 | the percent returns to 0.5 and onChange receives mid |
| Knob.KnobControl.StartDrag | mashup-hour-frontend/src/components/controllers/Knob.tsx:27-32 | starts dragging from the event's y; nothing is reported |
| Knob.KnobControl.StopDrag | mashup-hour-frontend/src/components/controllers/Knob.tsx:34-37 | stops dragging; nothing is reported |
| Knob.KnobControl.OnDrag | mashup-hour-frontend/src/components/controllers/Knob.tsx:40-62 | the new state is Drag(old state); onChange receives Value(new percent) when dragging a mounted knob; the percent stays in [0, 1] |
| TrackAssets.CombineAlternatingWords | src/assets/track.rs:133-150 | the result is the words of both strings interleaved and joined with single spaces |
| TrackAssets.InterleavedIsInterleave | src/assets/track.rs:140-147 | the index loop yields the interleaving of both word lists |
| TrackAssets.MashTrackAssets | src/assets/track.rs:152-161 | title, artist and album title are each combined from the two assets' fields |
| TrackAssets.InterleaveLength | src/assets/track.rs:140-147 | the interleaving holds as many words as both lists together |
| TrackAssets.InterleaveAlternates | src/assets/track.rs:140-147 | positions 2k and 2k+1 hold a[k] and b[k] while both last; then the longer list's leftover follows in order |
| TrackAssets.InterleaveWithEmpty | src/assets/track.rs:140-147 | with one list empty, the result is the other list |
| TrackAssets.WordsOfJoin | src/assets/track.rs:149 | splitting words joined by single spaces gives the words back (round trip) |
| TrackAssets.WordsAreWords | src/assets/track.rs:134-135 | each piece split_whitespace yields is non-empty and holds no whitespace |
| TrackAssets.CombinedWords | src/assets/track.rs:133-150 | the combined string splits into exactly the interleaved words of both inputs; its word count is the sum of theirs |
| TrackAssets.CombinedWithBlank | src/assets/track.rs:133-150 | if one input has no words, the result is the other input's words joined with single spaces, either way round |
| TrackAssets.FirstPreview | src/assets/track.rs:67-76 | a found offset lies on the page |
| TrackAssets.FirstPreviewIsFirst | src/assets/track.rs:67-76 | the offset found is the first track with a preview at or after start; none is found only if no such track exists |
| TrackAssets.FindIndexWithPreview | src/assets/track.rs:60-77 | IndexError when start >= len; otherwise the first preview's offset from start, or CriticalError "No track with preview" |
| TrackAssets.PickRandomTrackAsWritten | src/assets/track.rs:84-106 | as written: the offset from the random track is used as a page position; the reported index is index + offset - start |
| TrackAssets.AsWrittenTakesTrackWithoutPreview | src/assets/track.rs:88-100 | on a two-track page whose first track has no preview, result 1 has a preview at offset 0, yet position 0 is taken; the method AsWrittenCounterexample runs PickRandomTrackAsWritten on that page and shows the result is the track at position 0, which has no preview |
| TrackAssets.PickRandomTrack | src/assets/track.rs:84-106 | corrected: Ok exactly when a preview exists at or after the random track on its page; the track taken has a preview, none before it from the random track does, and its reported index is its index among all results |
| AssetCache.ChunkString | src/assets/manager.rs:43-54 | the chunks join back to the input, all are full but the last (which holds 1..n bytes), and there are ceil(len/n) of them |
| AssetCache.ChunksJoin | src/assets/manager.rs:43-54 | joining the chunks gives the text back |
| AssetCache.ChunksCount | src/assets/manager.rs:47-52 | the number of chunks is ceil(len / n), in bounds form |
| AssetCache.ChunksSizes | src/assets/manager.rs:47-52 | every chunk but the last holds n bytes; the last holds 1 to n |
| AssetCache.EmptyHasNoChunks | src/assets/manager.rs:47 | an empty text has no chunks |
| AssetCache.ParseDecimal | src/assets/manager.rs:65 | a count below 256, written in decimal, reads back as a u8 unchanged |
| AssetCache.ChunkKeysDistinct | src/assets/manager.rs:68-71 | distinct chunk numbers have distinct keys, and no chunk key is total_chunks |
| AssetCache.StoredChunks | src/assets/manager.rs:68-71 | after the key loop, chunk<k> holds the k-th chunk and every other key keeps its value |
| AssetCache.WrittenLayout | src/assets/manager.rs:63-71 | the refreshed cache holds the count mod 256 under total_chunks, each chunk under its key, and all other keys unchanged |
| AssetCache.ReadStored | src/assets/manager.rs:124-128 | reading chunk1..chunkN of a refreshed cache gives the first N chunks |
| AssetCache.RestoreWritten | src/assets/manager.rs:63-130 | retrieving after a refresh gives the first (count mod 256) chunks joined |
| AssetCache.RefreshThenRestore | src/assets/manager.rs:56-134 | round trip: whatever the cache held, retrieving after a refresh yields the refreshed text, when it has at most 255 chunks |
| AssetCache.RestoreAfterWrap | src/assets/manager.rs:65 | the u8 count wraps: from 256 chunks only the first N mod 256 are read back; with exactly 256 a non-empty text comes back empty |
| AssetCache.RedisCache.RefreshAssetsCache | src/assets/manager.rs:56-75 | the cache becomes Written(old cache, text): the count and every chunk are stored |
| AssetCache.RedisCache.GetCachedValue | src/assets/manager.rs:95-116 | on a hit, the stored value is converted and the cache is untouched; on a miss, the cache is refreshed from the database's assets and read again, with CriticalError when the key is still missing |
| AssetCache.RedisCache.RetrieveAssets | src/assets/manager.rs:118-134 | a cache holding every key returns its joined chunks untouched; a cache without a count is filled from the database and returns those assets (when they have at most 255 chunks) |
| Cover.SameBlock | src/mashupper/cover.rs:29-36 | every pixel of a block takes the image choice of the block's corner |
| Cover.CopyRow | src/mashupper/cover.rs:40-45 | one row of a block is copied from the source; every other pixel is unchanged; each copied pixel is written once |
| Cover.CopyBlock | src/mashupper/cover.rs:35-45 | a whole block, clipped to the image, is copied; every other pixel is unchanged |
| Cover.TileRow | src/mashupper/cover.rs:30-46 | one row of blocks alternates between the covers in checkerboard order; other rows are unchanged |
| Cover.CreateCheckeredImage | src/mashupper/cover.rs:22-47 | the output has the first cover's size; pixel (x, y) comes from the first cover when x/stepWidth + y/stepHeight is even and from the second otherwise; every pixel is written exactly once and nothing outside the image is written |
| MashupSelector.Next | mashup-hour-frontend/src/components/mashup/MashupSelector.tsx:21 | "next" always gives an index of a shown mashup |
| MashupSelector.PreviousAsWritten | mashup-hour-frontend/src/components/mashup/MashupSelector.tsx:18 | as written: trackLimit + trackIndex - 1, with no modulo |
| MashupSelector.Previous | mashup-hour-frontend/src/components/mashup/MashupSelector.tsx:18 | corrected "previous" always gives an index of a shown mashup |
| MashupSelector.NextSteps | mashup-hour-frontend/src/components/mashup/MashupSelector.tsx:21 | "next" moves one on, from the last back to the first |
| MashupSelector.PreviousSteps | mashup-hour-frontend/src/components/mashup/MashupSelector.tsx:18 | corrected "previous" moves one back, from the first to the last |
| MashupSelector.NextTimesIsOffset | mashup-hour-frontend/src/components/mashup/MashupSelector.tsx:21 | n presses of "next" (n up to the limit) land n places on, wrapping past the last |
| MashupSelector.NextCycles | mashup-hour-frontend/src/components/mashup/MashupSelector.tsx:21 | pressing "next" trackLimit times returns to the starting mashup |
| MashupSelector.PreviousAsWrittenLeavesRange | mashup-hour-frontend/src/components/mashup/MashupSelector.tsx:18 | as written, "previous" from the first mashup gives the last, and from any other index it gives an index >= trackLimit |
| MashupSelector.PreviousAsWrittenOnPage | mashup-hour-frontend/src/components/mashup/MashupSelector.tsx:18 | with the page's 3 mashups, "next" then "previous" from mashup 0 asks for mashup 3 |
| MashupSelector.PreviousInvertsNext | mashup-hour-frontend/src/components/mashup/MashupSelector.tsx:18-21 | corrected "previous" undoes "next" and is undone by it |
| MashupSelector.PreviousAgreesAtFirst | mashup-hour-frontend/src/components/mashup/MashupSelector.tsx:18 | the corrected and the written "previous" agree at the first mashup |

## Left out

- Tone.js and the audio graph: `Tone.start`, the PitchShift node, the buffer's decoding and the audio-loading block (player.ts:30-37). The device is the record `Device` of what the player reads and writes.
- The pitch value -12 * log2(rate) is kept symbolic as `Compensate(rate)`, because Dafny's reals have no logarithm.
- `performance.now()` is the parameter `now`. `setInterval`/`clearInterval` are an interval id that is issued or cleared. The 500 ms timer firing is the caller calling `RefreshPosition`.
- The callbacks into the app are not modelled as code: the observer's payloads and `setIsPlaying(false)` are ghost logs. The callbacks' own effects are not part of this model, and neither is `console.log`.
- Asynchronous re-entry (timer ticks and onstop arriving between other calls) is modelled as a sequence of method calls, one at a time. Interleavings inside one call do not occur in the single-threaded source.
- The player's `setStart`, `setEnd` and `totalDuration`, which PlayBar.tsx calls, are not part of player.ts. The calls are recorded as `PlayerCall`s.
- The `clamp` of the frontend's util module is not part of this model. It is taken to be min(max(v, lo), hi).
- PlayBar.Rect: the slider's width is a `PositiveReal`. A zero-width element would divide by zero in the browser, and that case is not modelled. Hover state, event-listener registration, rendering and CSS are left out.
- Knob: the mounted check on the SVG element is the parameter `mounted`. Rendering and listeners are left out.
- JavaScript's floating point is modelled as exact real arithmetic throughout the frontend.
- The network and randomness of the backend are parameters or left out: the Deezer, dictionary and Supabase calls, `random_word`, the random result index and the fetched page. `build_track_asset` and the dictionary entry of `TrackOrigin` are left out for the same reason.
- TrackAssets.PickRandomTrack: assumes that `page` is the page whose position 0 is result PageBase(index). Which results Deezer returns for the page request is not part of this model.
- TrackAssets.PickRandomTrackAsWritten: u64 overflow of the true index is not modelled (indices are unbounded `nat`s).
- TrackAssets.CombineAlternatingWords: Rust strings are UTF-8 bytes; here they are sequences of Unicode scalar values, with whitespace as the White_Space property that `char::is_whitespace` uses.
- serde serialization and deserialization are not modelled. The cache stores and returns the JSON text as bytes, and `dbJson` is the database's assets already serialized.
- The database query on a cache miss is not modelled. Its failure is not modelled either.
- Redis time-to-live (14 000 s) and Redis connection and I/O failures are left out. The cache is a map.
- AssetCache.ChunkString: the text is bytes, so the panic of slicing a `&str` inside a multi-byte character is not modelled. `chunkSize > 0` is required, because the loop does not end for 0. The source passes 786 423.
- AssetCache.RedisCache.RetrieveAssets: the result is stated for a cache that holds every key it reads and for a cache with no count. When a chunk key misses midway (the cache is refreshed and the loop goes on with the old count), the result is not characterized.
- The Redis client's u8 parse accepts only decimal digits. Other spellings that `u8::from_str` accepts (a leading `+`) are not modelled.
- Cover: opening, downloading and saving images and the random block counts (parameters `widthBlocks`, `heightBlocks`) are left out. The u32 overflow of `x + step_width` is not modelled.
- Cover.CreateCheckeredImage: requires a block of at least one pixel, because `step_by(0)` panics. It also requires the second cover to be at least as large as the first, because `get_pixel` panics outside the image.
- MashupSelector: rendering and the play button are left out. The page's `setTrackIndex` is the returned index.

## Findings

| source | as written | input that shows it | evidently intended | confidence | as-written member | corrected member |
|---|---|---|---|---|---|---|
| mashup-hour-frontend/src/components/mashup/MashupSelector.tsx:18 | "previous" sets the index to trackLimit + trackIndex - 1 without taking it modulo trackLimit | trackLimit 3: "next" from 0 gives 1, then "previous" gives 3, which is not a shown mashup (MashupSelector.PreviousAsWrittenOnPage) | (trackLimit + trackIndex - 1) % trackLimit, the inverse of "next" | not executed | MashupSelector.PreviousAsWritten | MashupSelector.Previous |
| src/assets/track.rs:99-100 | the offset that find_index_with_preview returns counts from the random track, but it is used as a position from the start of the page | a page whose first track has no preview and whose second has one, random result index 1: offset 0 is found, yet the track at position 0 (no preview) is taken and reported as result 0 (TrackAssets.AsWrittenTakesTrackWithoutPreview, TrackAssets.AsWrittenCounterexample) | take position start + offset and report result index + offset | not executed | TrackAssets.PickRandomTrackAsWritten | TrackAssets.PickRandomTrack |
