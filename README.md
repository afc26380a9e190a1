# StageZero core, modelled in Dafny

StageZero is a desktop tool for placing timed events on layers that follow
a song, frame by frame at 30 frames per second. This project models its
core behaviour and proves properties about that model:

- the per-layer event store, a dictionary from frame number to event;
- the ordered layer list of a stack, with lookup by name, insertion, moving
  and renumbering;
- the earlier single-file model, whose name lookup takes the first match
  and whose `add` overwrites;
- the song and stack dictionaries and the name of the loaded song;
- the playback clock thread (STOPPED / RUNNING / PAUSED, elapsed time,
  frame number) and the playback controller and engine that drive it in
  lockstep with the media player;
- the onset pool's number allocation;
- the layer axis labels, the plot data and plot size of the layer plot;
- plot clicks (record an event, open an event for editing);
- gesture dispatch (select, drag, region select);
- song intake (name check, automatic loading of the first song) and the
  song selector's entries.

Each module is one source file or component:

- `Wrappers`: Option, the Python exceptions that matter, and the outcome of an operation.
- `Numerals`: `str(int)` and `int(str)`.
- `FrameMath`: `math.floor`, `math.ceil`, `int()` truncation, `round()` (half to even) and the frame-count formulas.
- `PyList`: Python list indexing, `insert`, `del` and a first-match search.
- `EventStore`, `LayerStore`, `LegacyLayers`, `Session`, `Clock`, `Playback`, `PlaybackEngine`, `OnsetPool`, `CustomAxis`, `LayerPlot`, `PlotClick`, `ActionEngine` and `SongIntake`: the source components named above.

**Model form.** Code that updates objects in place is modelled by classes:
EventModel, LayerModel, the song and stack models, the clock thread, the
playback controller and engine, the onset pool, the click handlers, the
view box and the song controllers. Their methods are proved against pure
specification functions, and the properties are lemmas about those
functions. Pure code is functions and lemmas.

**Intended behaviour where the code breaks.** Where the code as written
cannot run, the model keeps the intended behaviour, and `## Findings`
records the code as written:

- the stack revision's `add` calls setters that the event class does not have;
- `move_layer_to_index` subscripts a layer object like a dict;
- `add_layer_to_model` passes an argument to a constructor that takes none.

## Model

| member | source | states |
|---|---|---|
| Numerals.NatToString | model/pool/OnsetPoolModel.py:25-27 | `str(n)` of a natural number is a non-empty digit string with no leading zero except for 0 itself |
| Numerals.IntToString | model/pool/OnsetPoolModel.py:25-27 | `str(n)` is non-empty, all digits except a leading minus sign |
| Numerals.ParseIntToString | model/pool/OnsetPoolModel.py:20-21 | `int(str(n)) == n` for every integer: the key text of a pool number reads back as that number |
| Numerals.IntToStringInjective | model/pool/OnsetPoolModel.py:27 | two different pool numbers never share a key |
| FrameMath.Floor | controller/PlotClickHandler.py:52 | `math.floor(x)` is the integer r with r <= x < r + 1 |
| FrameMath.Ceil | controller/LayerController.py:173 | `math.ceil(x)` is the integer r with r - 1 < x <= r |
| FrameMath.Trunc | controller/TimeUpdateThread.py:55 | `int(x)` truncates toward zero: floor for x >= 0, ceiling below 0 |
| FrameMath.TruncMonotone | controller/TimeUpdateThread.py:55 | truncation never decreases as its argument grows |
| FrameMath.RoundHalfEven | model.py:70 | `round(x)` lies within 0.5 of x and an exact tie goes to the even integer |
| FrameMath.RoundHalfEvenUnique | controller/PlotClickHandler.py:98 | any integer strictly within 0.5 of x is `round(x)` |
| FrameMath.CeiledFrameQty | controller/LayerController.py:171-175 | `ceil(length_ms / 1000 * fps)` is the least whole frame count covering the song |
| FrameMath.FrameQtyRoundingGap | controller/LayerController.py:171-175 | the controller's ceiled frame count is the song's rounded count or one more |
| PyList.ResolveIndex | model/stack/LayerModel.py:88 | a Python list index is valid iff -n <= i < n, and then it names position i mod n |
| PyList.ResolveIndexFromEnd | controller/PlotClickHandler.py:54 | index k and index k - n name the same element |
| PyList.InsertPosition | model/stack/LayerModel.py:48 | `list.insert` clips its index: past the end appends, below -n prepends, negative counts from the end |
| PyList.InsertAt | model/stack/LayerModel.py:72 | insert adds one element at the clipped position and keeps the rest in order around it |
| PyList.RemoveAt | model/stack/LayerModel.py:59 | `del s[k]` drops exactly element k and shifts the tail down |
| PyList.RemoveInsertPermutes | model/stack/LayerModel.py:70-72 | removing an element and inserting it elsewhere keeps the same multiset of elements |
| PyList.FirstIndex | model/stack/LayerModel.py:64-66 | the first-match search finds nothing iff x is absent, else the first position holding x |
| EventStore.Lookup | model/stack/EventModel.py:26-30 | `get_event` returns the stored value, None for an absent frame, and a stored event carries its frame |
| EventStore.Added | model/stack/EventModel.py:56-71 | `add` leaves an occupied frame or a non-"event" type untouched; on a free frame it stores exactly one new event stamped with the layer's name, number and frame, with colour and name only when truthy; keys stay stamped |
| EventStore.Deleted | model/stack/EventModel.py:49-54 | `delete` removes exactly that key (no-op when absent) and keeps every other entry |
| EventStore.Nudged | model/stack/EventModel.py:32-40 | `nudge_event` moves the event to frame + amount restamped, overwrites what was there, and keeps all other entries |
| EventStore.UpdatedData | model/stack/EventModel.py:73-78 | `update_data` ignores an absent frame and otherwise replaces the value with the given event restamped to the key |
| EventStore.NudgeByZeroIsNoop | model/stack/EventModel.py:32-40 | nudging by 0 leaves a stamped store unchanged |
| EventStore.NudgeOntoOccupiedFrameOverwrites | model/stack/EventModel.py:32-40 | nudging onto an occupied frame loses one event |
| EventStore.AddAsWrittenNeverStores | model/stack/EventModel.py:61-64 | the written `add` raises on every free frame, where the intended one stores an event |
| EventStore.EventModel.constructor | model/stack/EventModel.py:21-24 | an empty store with no layer name or number |
| EventStore.EventModel.GetEvent | model/stack/EventModel.py:26-30 | returns the stored value or None, stamped with the asked frame |
| EventStore.EventModel.SetLayerName | model/stack/EventModel.py:42-43 | only the layer name changes |
| EventStore.EventModel.SetLayerNumber | model/stack/EventModel.py:45-47 | only the layer number changes |
| EventStore.EventModel.Delete | model/stack/EventModel.py:49-54 | the store becomes `Deleted` of the old store and stays stamped |
| EventStore.EventModel.Add | model/stack/EventModel.py:56-71 | the store becomes `Added` of the old store and stays stamped |
| EventStore.NudgeAsWritten | model/stack/EventModel.py:32-40 | `nudge_event` as written: an absent frame raises KeyError and changes nothing; a stored frame is deleted and the call then raises AttributeError on every path (in the written `add` when the target is free, at the event's missing `plot_data_item` otherwise), so nothing else is stored |
| EventStore.NudgeAsWrittenLosesEvent | model/stack/EventModel.py:32-40 | on every stored event the written nudge raises and loses the event, while the intended one succeeds with the event at the target |
| EventStore.NudgeAttempt | model/stack/EventModel.py:32-40 | every path of `nudge_event` as intended (see Findings): an absent frame raises KeyError and changes nothing; a tombstone is deleted, `add` runs at the target, and the call raises AttributeError; an event is moved as `Nudged` says; keys stay stamped |
| EventStore.NudgeTombstoneLeavesDefaultEvent | model/stack/EventModel.py:33-36 | nudging a tombstone onto a free frame fails but still drops the tombstone and leaves a default event at the target |
| EventStore.EventModel.NudgeEvent | model/stack/EventModel.py:32-40 | on every path, the outcome and the new store are `NudgeAttempt` of the old store; the placeholder that `add` writes is overwritten |
| EventStore.EventModel.UpdateData | model/stack/EventModel.py:73-78 | the store becomes `UpdatedData` of the old store and stays stamped |
| LayerStore.Names | model/stack/LayerModel.py:32 | the layer names in list order |
| LayerStore.NameIndexIsLastMatch | model/stack/LayerModel.py:32 | the `{name: index}` comprehension maps each present name to its last position |
| LayerStore.LayerIndex | model/stack/LayerModel.py:31-33 | `get_layer_index` is None iff no layer has the name, else the last layer with it |
| LayerStore.RevisionsDisagreeOnDuplicates | model.py:99-111 | with a repeated name the first-match lookup of model.py and the last-match lookup of the stack revision pick different layers |
| LayerStore.Renumbered | model/stack/LayerModel.py:80-82 | every layer's index becomes its position and nothing else changes |
| LayerStore.RenumberedOnlyRenumbers | model/stack/LayerModel.py:80-82 | renumbering changes only the index fields |
| LayerStore.Moved | model/stack/LayerModel.py:62-74 | the moved layer lands at the clipped target position and the length is kept |
| LayerStore.MovePermutes | model/stack/LayerModel.py:62-74 | moving a layer keeps exactly the same layers, only reordered and renumbered |
| LayerStore.Retimed | model/stack/LayerModel.py:87-90 | `update_event` tombstones the old frame and gives the new frame `add`'s default event when it was free, keeping the other entries |
| LayerStore.MoveAsWrittenNeverMoves | model/stack/LayerModel.py:64-66 | the written search raises on any list holding the name, where the first-match search finds it |
| LayerStore.AddLayerAsWrittenNeverAdds | model/stack/LayerModel.py:42 | the written `add_layer_to_model` never adds, where the intended insertion grows the list by one layer carrying the name at the normalised position (the append case is LayerStore.LayerModel.AddLayerToModel's contract) |
| LayerStore.LayerModel.constructor | model/stack/LayerModel.py:25-28 | no layers and no frame count |
| LayerStore.LayerModel.GetLayerIndex | model/stack/LayerModel.py:31-33 | returns `LayerIndex` (last match or None) |
| LayerStore.LayerModel.GetLayerQty | model/stack/LayerModel.py:35-36 | returns the number of layers |
| LayerStore.LayerModel.AddLayerToModel | model/stack/LayerModel.py:41-50 | without an index the new layer is appended and nothing is renumbered; with one it is inserted and every layer renumbered |
| LayerStore.LayerModel.CreateLayer | model/stack/LayerModel.py:38-39 | appends a new layer with the name |
| LayerStore.LayerModel.SetEventData | model/stack/LayerModel.py:52-54 | replaces the event map of the named (last-matching) layer; an unknown name raises TypeError and changes nothing |
| LayerStore.LayerModel.RemoveLayerFromModel | model/stack/LayerModel.py:56-59 | deletes the last layer with the name without renumbering; an unknown name raises TypeError and changes nothing |
| LayerStore.LayerModel.MoveLayerToIndex | model/stack/LayerModel.py:62-74 | the first layer with the name is moved (`Moved`); an unknown name changes nothing |
| LayerStore.LayerModel.UpdateLayerIndices | model/stack/LayerModel.py:80-82 | the loop leaves `Renumbered` of the old list |
| LayerStore.LayerModel.SetFrameQty | model/stack/LayerModel.py:84-85 | only the frame count changes |
| LayerStore.LayerModel.UpdateEvent | model/stack/LayerModel.py:87-91 | a bad layer index raises IndexError and a missing frame KeyError, both with nothing changed; otherwise the layer becomes `Retimed` and the call ends in AttributeError |
| LegacyLayers.LegacyEventModel.constructor | model.py:185-188 | a named layer with no events |
| LegacyLayers.LegacyEventModel.Add | model.py:190-191 | stores a default item at the frame, replacing anything there |
| LegacyLayers.AddOverwrites | model.py:190-191 | a second add at a frame leaves one default item and the count unchanged |
| LegacyLayers.LegacyLayerModel.constructor | model.py:93-96 | no layers |
| LegacyLayers.LegacyLayerModel.GetLayerIndex | model.py:99-111 | the scan returns None iff no layer has the name, else the FIRST index with it |
| LegacyLayers.FirstMatchIsFirstIndex | model.py:99-111 | the scan's answer is the generic first-match search over the names |
| Session.BuildSong | model.py:42-71 | a song keeps its name and path and its frame count is within 0.5 of length_ms * 30 / 1000 |
| Session.WithSong | model.py:47-48 | storing a song under its name appends a new name to the key order and keeps an existing name's place |
| Session.WithSongKeepsTable | model.py:47-48 | the song table stays consistent (keys listed once, each song under its own name) and grows by one exactly for a new name |
| Session.SongModel.constructor | model.py:35-38 | no songs and none loaded |
| Session.SongModel.AddSongObjectToModel | model.py:47-48 | the table becomes `WithSong` of the old one and stays consistent |
| Session.SongModel.SetLoadedSong | controller/SongController.py:62 | only the loaded song name changes |
| Session.StackModel.constructor | model.py:75-78 | no stacks and none loaded |
| Session.StackModel.CreateStack | model.py:81-82 | a fresh empty layer list under the name, replacing any old one, other stacks kept |
| Session.StackModel.SetFrameQty | model.py:87-88 | sets only that stack's frame count; an unknown name raises KeyError |
| Session.StackModel.SetLoadedStack | controller/SongController.py:63 | only the loaded stack name changes |
| Session.LookupLoadedSong | model.py:25-30 | `loaded_song` is None when the loaded name is None or empty, the song stored under that name, or KeyError |
| Session.LoadedSongHasLoadedName | model.py:25-30 | in a consistent table the loaded song carries the loaded name |
| Session.MainModel.constructor | model.py:17-20 | fresh empty song and stack models, no project name |
| Session.MainModel.LoadedSong | model.py:25-30 | the `loaded_song` property is `LookupLoadedSong` of the song model |
| Clock.AfterStart | controller/TimeUpdateThread.py:59-67 | start acts only when STOPPED: RUNNING from now, elapsed kept |
| Clock.AfterPause | controller/TimeUpdateThread.py:69-79 | pause acts only when RUNNING: PAUSED, with the running segment added to elapsed |
| Clock.AfterResume | controller/TimeUpdateThread.py:81-88 | resume acts only when PAUSED: RUNNING from now, elapsed kept |
| Clock.AfterReset | controller/TimeUpdateThread.py:90-110 | reset keeps the state, zeroes elapsed, and restarts the segment at now only when RUNNING |
| Clock.AfterStop | controller/TimeUpdateThread.py:112-118 | stop leaves STOPPED with elapsed and start kept |
| Clock.Tick | controller/TimeUpdateThread.py:46-56 | a frame is emitted only while RUNNING, and it is `int((elapsed + now - start) * 30)` |
| Clock.PauseResumeContinuity | controller/TimeUpdateThread.py:69-88 | after pause at t1 and resume at t2 the clock reads at t2 what it read at t1 |
| Clock.TickMonotone | controller/TimeUpdateThread.py:52-55 | within one running segment the frame number never decreases |
| Clock.ResetWhileRunningShowsFrameZero | controller/TimeUpdateThread.py:98-104 | a reset while running shows frame 0 at once |
| Clock.Apply | controller/TimeUpdateThread.py:59-118 | every control call keeps the clock well-formed (a running clock has a start) |
| Clock.Run | controller/TimeUpdateThread.py:59-118 | a sequence of calls keeps the clock well-formed |
| Clock.RunStaysSane | controller/TimeUpdateThread.py:59-118 | with calls in time order, elapsed stays non-negative and the start never lies in the future |
| Clock.TicksNeverNegative | controller/TimeUpdateThread.py:52-55 | from a fresh clock and calls in time order, no emitted frame is negative |
| Clock.SegmentsAccumulate | controller/TimeUpdateThread.py:69-88 | start, pause, resume, pause banks the sum of both running segments |
| Clock.PauseAsWrittenDropsEarlierSegments | project.py:1262-1268 | the earlier pause assigns instead of adding and so banks 1.0 where the other revision banks 2.0 |
| Clock.TimeUpdateThread.constructor | controller/TimeUpdateThread.py:34-44 | STOPPED, nothing elapsed, no start |
| Clock.TimeUpdateThread.StartClock | controller/TimeUpdateThread.py:59-67 | the fields become `AfterStart` of the old ones |
| Clock.TimeUpdateThread.PauseClock | controller/TimeUpdateThread.py:69-79 | the fields become `AfterPause` of the old ones |
| Clock.TimeUpdateThread.ResumeClock | controller/TimeUpdateThread.py:81-88 | the fields become `AfterResume` of the old ones |
| Clock.TimeUpdateThread.ResetClock | controller/TimeUpdateThread.py:90-110 | the fields become `AfterReset` of the old ones, despite the transient PAUSED |
| Clock.TimeUpdateThread.StopClock | controller/TimeUpdateThread.py:112-118 | the fields become `AfterStop` of the old ones |
| Clock.TimeUpdateThread.TickAt | controller/TimeUpdateThread.py:46-56 | one pass of the run loop: a frame exactly when RUNNING, equal to `Tick` |
| Playback.NextState | controller/AudioPlaybackController.py:43-86 | play gives RUNNING, pause RUNNING to PAUSED, reset keeps the state, stop gives STOPPED |
| Playback.ClockStep | controller/TimeUpdateThread.py:59-118 | a player command leaves the clock alone and a clock call applies its transition |
| Playback.NoStartKeepsInitial | controller/AudioPlaybackEngine.py:40-42 | calls without start or resume leave a fresh clock as constructed |
| Playback.ClockOnly | project.py:766-777 | the clock calls of a command list, in order |
| Playback.ProjectResetIsClockPart | project.py:766-777 | project.py's reset makes exactly the clock calls of the later reset, without the player calls |
| Playback.PressKeepsLockstep | controller/AudioPlaybackController.py:43-86 | after any button the clock's state equals the controller's new state |
| Playback.Clocks | controller/AudioPlaybackController.py:43-86 | the clock after a series of presses stays well-formed |
| Playback.Lockstep | controller/AudioPlaybackController.py:43-86 | over any series of presses the controller state and the clock state agree |
| Playback.TimeLabelRoundTrip | controller/AudioPlaybackController.py:99-105 | the label "Frame: n/q" reads back as (n, q) |
| Playback.TimeLabelFor | controller/AudioPlaybackController.py:99-105 | a label exists exactly when a song is loaded, and it reads back as the frame and the song's frame count |
| Playback.AudioPlaybackController.constructor | controller/AudioPlaybackController.py:27-36 | STOPPED, a fresh clock as constructed, no calls |
| Playback.AudioPlaybackController.LoadSong | controller/AudioPlaybackController.py:38-41 | the loaded song's path goes to the player; no song raises AttributeError and a missing one KeyError |
| Playback.AudioPlaybackController.Play | controller/AudioPlaybackController.py:43-55 | state, player and clock calls, and the clock follow `NextState`, `ButtonCalls` and `ApplyClock` |
| Playback.AudioPlaybackController.Pause | controller/AudioPlaybackController.py:57-63 | as Play, for pause |
| Playback.AudioPlaybackController.Reset | controller/AudioPlaybackController.py:65-81 | state kept; the calls per state, and the clock follows them |
| Playback.AudioPlaybackController.Stop | controller/AudioPlaybackController.py:83-86 | STOPPED, only the clock is stopped |
| PlaybackEngine.AudioPlaybackEngine.constructor | controller/AudioPlaybackEngine.py:18-22 | STOPPED, no audio, a fresh clock |
| PlaybackEngine.AudioPlaybackEngine.LoadSong | controller/AudioPlaybackEngine.py:24-33 | the song's original audio is loaded and the reload leaves a fresh STOPPED clock |
| PlaybackEngine.AudioPlaybackEngine.ReloadAudio | controller/AudioPlaybackEngine.py:35-42 | the audio goes to the player, a new clock replaces the old and stop then reset run; with no song loaded it raises AttributeError and the audio, the clock and the calls are unchanged |
| PlaybackEngine.AudioPlaybackEngine.LoadFilteredData | controller/AudioPlaybackEngine.py:44-46 | the named filter's output becomes the audio and is reloaded; with no song loaded it raises AttributeError and an unknown filter raises KeyError, both leaving the audio, the clock and the calls unchanged |
| PlaybackEngine.AudioPlaybackEngine.LoadOriginalSongData | controller/AudioPlaybackEngine.py:48-50 | the original audio becomes the audio and is reloaded; with no song loaded it raises AttributeError and leaves the audio, the clock and the calls unchanged |
| PlaybackEngine.AudioPlaybackEngine.Play | controller/AudioPlaybackEngine.py:52-64 | as the controller's play, on the engine's clock |
| PlaybackEngine.AudioPlaybackEngine.Pause | controller/AudioPlaybackEngine.py:66-72 | as the controller's pause |
| PlaybackEngine.AudioPlaybackEngine.Reset | controller/AudioPlaybackEngine.py:74-90 | as the controller's reset |
| PlaybackEngine.AudioPlaybackEngine.Stop | controller/AudioPlaybackEngine.py:92-97 | STOPPED; player stop, clock stop and thread terminate, in that order |
| PlaybackEngine.ReloadLeavesInitialClock | controller/AudioPlaybackEngine.py:35-42 | a reload's calls leave the new clock exactly as constructed |
| OnsetPool.ItemFor | model/pool/OnsetPoolModel.py:24-30 | the item keeps its data and gets the given name or "onset_" + key |
| OnsetPool.NextKeyIsFresh | model/pool/OnsetPoolModel.py:19-21 | one above the highest numeric key is a key not yet in use |
| OnsetPool.OnsetPoolModel.constructor | model/pool/OnsetPoolModel.py:2-3 | an empty pool |
| OnsetPool.HighestKeyUnique | model/pool/OnsetPoolModel.py:20 | `max(int(key))` is a single number, so the next key is determined |
| OnsetPool.OnsetPoolModel.HighestPoolNumber | model/pool/OnsetPoolModel.py:20 | the loop finds the maximum of the keys read as integers, or fails exactly when some key is not a number |
| OnsetPool.OnsetPoolModel.Add | model/pool/OnsetPoolModel.py:5-30 | a text pool number in use raises ValueError; an int one replaces what is under its text; without one, "1" for an empty pool, a non-numeric key raises ValueError; otherwise the key is `str(max(int(key)) + 1)`, not yet in use, and only that entry is added |
| CustomAxis.IntRange | view/CustomAxis.py:39 | `np.arange(lo, hi + 1)` lists lo..hi in order |
| CustomAxis.TickValues | view/CustomAxis.py:35-44 | two levels, spacing 1.0 then 0.5 |
| CustomAxis.TickValuesMembers | view/CustomAxis.py:35-44 | exactly the whole numbers from floor(min) to ceil(max) and the halves from floor(2 min)/2 to ceil(2 max)/2 |
| CustomAxis.TickValuesSymmetric | view/CustomAxis.py:36 | the bounds may come in either order |
| CustomAxis.TicksCoverRange | view/CustomAxis.py:39-42 | every half and whole number in the visible range is ticked |
| CustomAxis.TruncHalf | view/CustomAxis.py:49 | `int(v)` of the half-unit tick truncates toward zero |
| CustomAxis.TickStrings | view/CustomAxis.py:46-54 | one label per tick, in order |
| CustomAxis.LabelledTicks | view/CustomAxis.py:46-54 | layer i's name sits at i + 0.5, -0.5 also shows layer 0's name, whole numbers and every other tick are blank |
| LayerPlot.PresentFrames | controller/LayerController.py:166 | the frames whose value is not None |
| LayerPlot.PlotPoints | controller/LayerController.py:166 | one point (frame, row i + 0.5) per present event and no other |
| LayerPlot.PlotData | controller/LayerController.py:160-169 | the named layer's points at its index; an unknown name raises |
| LayerPlot.PointCountIsTally | controller/LayerController.py:190-192 | the number of plotted points is `tally_events` |
| LayerPlot.PointsSitOnLabelledRow | controller/LayerController.py:166 | every plotted point lies on the tick the axis labels with its layer's name |
| LayerPlot.PlotHeight | controller/LayerController.py:123-131 | 50 pixels per layer plus 18 |
| LayerPlot.FirstAcceptable | controller/LayerController.py:71-73 | the prompt ends at the first answer of at most 20 characters, or at a cancel, after only too-long answers |
| LayerPlot.SetLayerPlotLimits | controller/LayerController.py:133-147 | a limit key is present exactly when its argument is not None, with that value |
| LayerPlot.PromptLayerName | controller/LayerController.py:71-73 | the re-prompt loop returns `FirstAcceptable` of the answers |
| LayerPlot.LayerController.constructor | controller/LayerController.py:21-27 | holds the model |
| LayerPlot.LayerController.AddLayer | controller/LayerController.py:68-90 | the accepted name is appended to the stack named after the loaded song, and `add_plot_layer` then raises AttributeError on `self.model.loaded_stack`; a cancel raises TypeError, no song AttributeError, a missing song or stack KeyError; no other stack's layers and no frame count change, and nothing changes while the dialog is still being answered |
| LayerPlot.LayerController.RemoveLayer | controller/LayerController.py:53-90 | removes the named layer from the loaded stack; the plot reload then raises AttributeError in `add_plot_layer` (`self.model.loaded_stack`) when any layer is left, and ends normally when none is; a missing stack raises KeyError, a cancelled or unknown name TypeError, both changing nothing; no other stack's layers and no frame count change |
| PlotClick.MatchClickToFrame | controller/PlotClickHandler.py:95-100 | `int(round(x))` is within 0.5 of the click |
| PlotClick.RowAt | controller/PlotClickHandler.py:52 | the clicked row is floor(y) |
| PlotClick.ClickFindsPlottedPoint | controller/PlotClickHandler.py:77-78 | a click within a plotted point's cell finds that point's layer and frame |
| PlotClick.RecordClick | controller/PlotClickHandler.py:49-64 | reading the row's layer raises IndexError for a row outside the list; otherwise that layer gets `add(frame)` |
| PlotClick.RecordBelowFirstRowHitsLastLayer | controller/PlotClickHandler.py:52-64 | a click just below row 0 passes the bounds check and records into the last layer |
| PlotClick.RecordAboveTopRowRaises | controller/PlotClickHandler.py:52-55 | a click above the top row raises before the bounds check meant for it |
| PlotClick.EditClick | controller/PlotClickHandler.py:74-93 | a bad row raises IndexError, a frame with no entry gives the error dialog, else the editor opens on the stored value |
| PlotClick.PlotClickHandler.constructor | controller/PlotClickHandler.py:28-30 | holds the model |
| PlotClick.PlotClickHandler.HandleClick | controller/PlotClickHandler.py:32-47 | "Record" records, "Edit" edits, any other mode changes no layers; no frame count changes |
| PlotClick.PlotClickHandler.RefreshPlotDataItem | controller/LayerController.py:152-166 | `refresh_plot_data_item` never ends normally: KeyError for a loaded song name with no stack, AttributeError or KeyError when the loaded song does not resolve, TypeError when its stack lacks the layer, and otherwise AttributeError at `set_event_plot_data_item`, which the stack revision's layer model does not define |
| PlotClick.PlotClickHandler.HandleRecordClick | controller/PlotClickHandler.py:49-72 | the loaded stack becomes `RecordClick` of its layers, and the refresh that follows then raises as `RefreshPlotDataItem` says; no loaded stack raises KeyError and a row out of range IndexError, both changing nothing; only the loaded stack's layers change and no frame count changes |
| PlotClick.PlotClickHandler.HandleEditClick | controller/PlotClickHandler.py:74-93 | `EditClick` on the loaded stack; a missing stack is the caught KeyError |
| ActionEngine.EventClickCalls | click/ActionEngine.py:33-44 | at most one call: select on plain left, add to selection on shift-left, edit on right, none otherwise |
| ActionEngine.LayerClickCalls | click/ActionEngine.py:80-87 | only a plain left click clears the selection; shift-left does nothing |
| ActionEngine.DragStep | click/ActionEngine.py:46-74 | non-left drags are ignored; a start grabs at the press; a finish ends with `end_drag`; the event is accepted when starting or grabbed |
| ActionEngine.DragHandled | click/ActionEngine.py:46-47 | an item outside the selection is left alone |
| ActionEngine.MoveDeltaFromPress | click/ActionEngine.py:52-65 | after a press at d on an item drawn at a, a move to p reports (p - d) + (a - d) |
| ActionEngine.MoveDeltasMembers | click/ActionEngine.py:60-65 | the deltas listed are exactly those of the `drag_selected_events` calls made |
| ActionEngine.MovesMeasuredFromPress | click/ActionEngine.py:60-65 | during a drag the grab is kept and every move's delta is measured from the press, not from the previous move |
| ActionEngine.EventPlotItem.constructor | click/ActionEngine.py:52-56 | a new item is not grabbed |
| ActionEngine.Drag | click/ActionEngine.py:46-74 | the item's drag fields, the calls and the response follow `DragHandled` |
| ActionEngine.RegionIgnoresDirection | click/ActionEngine.py:109-116 | dragging the region from a to b spans what dragging from b to a spans |
| ActionEngine.InRoi | click/ActionEngine.py:121-136 | exactly the layer items whose first point lies inside the rectangle as Qt 5 tests it: edges included, and nothing inside a rectangle of zero width or height |
| ActionEngine.FlatRegionContainsNothing | click/ActionEngine.py:122-133 | a region of zero width or zero height contains no point, not even its own corner |
| ActionEngine.ItemsInRoi | click/ActionEngine.py:121-139 | the loop collects `InRoi` in child order |
| ActionEngine.RoiStep | click/ActionEngine.py:89-119 | only shift-left acts; a finish selects the items in the region and clears it; a finish with no region raises AttributeError |
| ActionEngine.ShiftDragSelectsSpannedItems | click/ActionEngine.py:91-106 | press at d, move to p, release: exactly the items inside the region spanned by d and p are selected (none when d and p share a row or column) and no region is left |
| ActionEngine.StraightShiftDragSelectsNothing | click/ActionEngine.py:91-133 | a shift-drag whose last move lies on the horizontal or vertical line through its press selects no item, even items on that line |
| ActionEngine.OriginPressKeepsUnitRegion | click/ActionEngine.py:109 | a press at the view origin never resizes its region |
| ActionEngine.ViewBox.constructor | click/ActionEngine.py:97-100 | no region and no drag start |
| ActionEngine.RoiDrag | click/ActionEngine.py:89-119 | the view box fields, the calls and the outcome follow `RoiStep` |
| SongIntake.ValidSongNameIsPattern | controller/SongController.py:43 | the name check equals the pattern read character by character, including Python's optional final newline |
| SongIntake.NameExamples | controller/SongController.py:43 | "My Song-2_b" and "track\n" pass; "", "\n" and "bad/name" fail |
| SongIntake.Without | controller/SongSelectController.py:44-46 | every song name except the loaded one |
| SongIntake.DropdownListsEachSongOnce | controller/SongSelectController.py:39-46 | with a loaded song the selector lists it first and every song exactly once |
| SongIntake.ProjectDropdownEntries | project.py:654-663 | the earlier selector lists any non-None loaded name first, else the names in order |
| SongIntake.DropdownRevisionsDifferOnlyOnEmptyName | project.py:654-663 | the two revisions list the same entries except for an empty loaded name |
| SongIntake.ItemText | controller/SongSelectController.py:56 | the text of an existing entry, "" for any other index |
| SongIntake.SongSelectController.constructor | controller/SongSelectController.py:20-27 | the constructor's own generate call only sets the flag |
| SongIntake.SongSelectController.GenerateDropdownItems | controller/SongSelectController.py:33-46 | first call only sets the flag; later calls append `DropdownEntries`, or raise KeyError for a missing loaded song |
| SongIntake.SongSelectController.Refresh | controller/SongSelectController.py:48-50 | the entries become exactly `DropdownEntries`, never accumulating |
| SongIntake.SongSelectController.OnSongSelected | controller/SongSelectController.py:52-61 | index -1 and the loaded song are ignored, no loaded song raises AttributeError, else the chosen text is requested |
| SongIntake.SongController.constructor | controller/SongController.py:26-29 | holds the model and the selector |
| SongIntake.RunSteps | controller/SongController.py:60-67 | the steps of `load_song` run in order up to the first call of a method that does not exist, which raises AttributeError; the run is complete exactly when it ends normally |
| SongIntake.LoadSongAsWrittenNeverLoads | controller/SongController.py:60-67 | as written, `load_song` raises AttributeError at its first call, so neither loaded name is set and the selector is not refreshed; without the undefined calls, both assignments and the refresh run |
| SongIntake.SongController.LoadSong | controller/SongController.py:57-67 | `load_song` as its docstring intends (see Findings): the loaded song and stack names both become the name and the selector lists that song first |
| SongIntake.SongController.SelectSong | controller/SongSelectController.py:52-61 | a requested song is loaded by the intended `load_song`; otherwise the loaded names stay |
| SongIntake.SongController.AddSong | controller/SongController.py:37-55 | no file or a refused name changes nothing; an accepted name adds the song and a stack with its frame count; every other stack is kept; only the first song is loaded, through the intended `load_song` (see Findings), and the selector then lists it first; otherwise the selector is refreshed, and a missing loaded song makes that refresh raise KeyError after the song was added; no file, a cancelled name or a refused name change nothing, selector included |

## Left out

- Threads: `run`'s endless loop, the Condition wait and notify, `QThread.start` and `terminate`, and `time.sleep` are not modelled. Time is an explicit `now` argument, and one `Tick` stands for one pass of the loop. The sleep is PROJECT_FPS/1000 = 0.03 s, not 1/FPS.
- `pause_clock` reads the performance counter twice; the model uses one reading.
- The media player, the `soundfile` temporary file and librosa decoding are not modelled. The player is a log of commands, and a song's length in milliseconds is an argument.
- Floating point: real numbers are exact here, so `length_ms / 1000 * 30`, `round`, `int` and `% 1` are exact.
- CustomAxis.TickLabel: tick values are modelled as half-units only, which are all that `tickValues` produces.
- LayerPlot.PlotData: the numpy array becomes a set of points, so the dictionary order of the points is not kept.
- Layers are records in a list. A layer object reachable from elsewhere and changed there (aliasing) is not modelled. The event-store class is modelled on its own.
- View updates are not modelled: plot refreshes, `update_layer_names`, `setLimits`/`setRange` and `setFixedHeight`. Error dialogs, popups and printing are left out too.
- EventStore.EventModel.NudgeEvent: the event's plot item (model/stack/EventModel.py:38-39) is taken to exist and to accept both calls. The event item has no `plot_data_item` and no class defines `nudge_x_position`, so as written the nudge raises (Findings, EventStore.NudgeAsWritten).
- `get_layer_raw_data`, `create_layer_plot_data_item`, `set_event_plot_data_item`, `init_plot`, `generate_plot_layer_data_items` and `get_plot_layer_data` are left out. They only feed the plot. Of `reload_layer_plot` only the outcome is modelled, in RemoveLayer: its per-layer `add_plot_layer` raises AttributeError.
- LayerPlot.LayerController.RemoveLayer: `init_plot` passes the stack's frame count to numpy (controller/LayerController.py:38-41); what numpy does with a frame count that was never set (None) is not modelled, and the reload is taken to reach `add_plot_layer`.
- LayerPlot.TallyEvents: `tally_events` is declared without `self`, so an instance call would bind the controller to `event_data`. It is modelled as the counting function it is meant to be.
- `add_layer`'s test `self.model.stack.objects != None` is always true and is not modelled.
- LayerPlot.FirstAcceptable: the dialog answers are a finite list, and running out of them is `StillPrompting`.
- Qt signals are not modelled. In the real program, clearing or filling the selector fires `currentIndexChanged` and so calls `on_song_selected`. `SelectSong` wires a selection to `load_song` explicitly instead.
- SongIntake.SongController.AddSong: `add_new_song` is not part of this model's sources. It is modelled as `build_song_object` followed by `add_song_object_to_model`. The stack is made by `create_stack` plus `set_stack_frame_qty` (controller/StackController.py:21-43).
- SongIntake.SongController.LoadSong: the calls `clear_plot_waveforms`, `clear_plot_events` and the `refresh` of the overview, layer and audio controllers name methods those controllers do not define. As written they raise AttributeError at the first one (Findings). LoadSong, and AddSong and SelectSong through it, model the load without them.
- SongIntake.SongController.SelectSong: states only the loaded names and the outcome. The selector's entries after the load are stated on LoadSong.
- PlotClick.PlotClickHandler.HandleClick: states only the dispatch. The effect of each handler is stated on HandleRecordClick and HandleEditClick.
- PlotClick.PlotClickHandler.HandleEditClick: what `edit_event` does with the event is in an event controller that is not part of this model.
- `init_connections` and `update_time_label` of controller/AudioPlaybackEngine.py are dead code: they use `self.view` and `self.model`, which are never set.
- The event controller's `select_event`, `add_event_to_selection`, `edit_event`, `start_drag`, `drag_selected_events`, `end_drag`, `clear_selection` and `select_roi_events` are not part of this model. They are recorded as calls.
- ActionEngine.RoiDrag: `mapSceneToView` is taken as already applied, so events carry view coordinates. Resizing the region through its handles is not modelled.
- ActionEngine.RoiStep: a plot item without data, where `x_data[0]` fails, is not modelled. Every child has a first point.
- ActionEngine.PointTruthy: PyQt5 `QPointF` is false at (0, 0), and the update step tests `viewbox.dragStartPos` for truth.
- `ev.accept()` is not tracked for clicks; LayerAction's accepts are commented out in the source.
- OnsetPool.OnsetPoolModel.Add: `pool_number` may be any Python object; only int and str are modelled.
- Numerals.ParseInt: accepts only an optional '+' or '-' sign followed by ASCII decimal digits. Python's `int()` also accepts surrounding whitespace, underscores between digits and non-ASCII Unicode digits, so a key such as " 7" or "1_0" counts as non-numeric here.
- model.py's `LayerModel` and `EventModel` are an earlier revision that differs from the stack revision, which the stack table holds and LayerStore models. Its `get_layer_index` takes the first match and its `add` overwrites; both are in LegacyLayers. Its `add_layer_to_model` works, because its `EventModel` takes a name (model.py:184-185). It defines `set_event_plot_data_item` (model.py:138). Its other methods are not modelled separately.
- PlotClick.PlotClickHandler.HandleRecordClick: models the stack revision only. With model.py's layer classes, a record click would overwrite an occupied frame with a default item, and the refresh would succeed.
- Python integers are unbounded, and so are Dafny's; no width is involved.

## Findings

| source | as written | input that shows it | evidently intended | confidence | as-written member | corrected member |
|---|---|---|---|---|---|---|
| project.py:1262-1268 | `pause_clock` assigns `elapsed_time = paused_time - start_time`, dropping earlier segments | start at 0, pause at 1, resume at 2, pause at 3: elapsed 1.0 | add the segment to elapsed, as controller/TimeUpdateThread.py:75 does (2.0) | not executed | Clock.PauseAsWrittenDropsEarlierSegments | Clock.SegmentsAccumulate |
| model/stack/LayerModel.py:64-66 | the search subscripts each layer with `layer["layer_name"]`, which an EventModel object does not support | `move_layer_to_index("Kick", 0)` on any non-empty list | find the first layer whose `name` matches, then remove, insert and renumber | not executed | LayerStore.MoveAsWrittenNeverMoves | LayerStore.MovePermutes |
| model/stack/EventModel.py:37-39 | after deleting the frame, `nudge_event` uses `event.plot_data_item` and `nudge_x_position`; the event item has neither, and no class defines `nudge_x_position` | `nudge_event(5, 1)` on a store holding an event at 5: AttributeError, and frame 5 is gone with nothing at 6 | move the event to 6 with its frame number restamped and update its plot item | not executed | EventStore.NudgeAsWrittenLosesEvent | EventStore.NudgeAttempt |
| model/stack/EventModel.py:61-64 | `add` calls `set_parent_layer_name` and the other setters, which the event item does not define | `add(5)` on an empty store | store a new event stamped with the layer's name, number and the frame | not executed | EventStore.AddAsWrittenNeverStores | EventStore.Added |
| controller/SongController.py:60-66 | `load_song` first calls `clear_plot_waveforms`, which SongOverviewController does not define; `clear_plot_events` and the overview, layer and audio `refresh` calls are missing too | `add_song` with a file and the name "Intro" on an empty project: the song and stack are stored, then `load_song` raises AttributeError, `loaded_song` stays None and the selector stays empty | set the loaded song and stack names and refresh the selector, as the module docstring (lines 16-17) describes | not executed | SongIntake.LoadSongAsWrittenNeverLoads | SongIntake.SongController.LoadSong |
| model/stack/LayerModel.py:42 | `EventModel(layer_name)` passes an argument to a constructor that takes none (model/stack/EventModel.py:21) | `add_layer_to_model("Kick")` | create an empty layer named after the argument and append or insert it | not executed | LayerStore.AddLayerAsWrittenNeverAdds | LayerStore.LayerModel.AddLayerToModel |
