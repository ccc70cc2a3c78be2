# fprime-openmct, modelled in Dafny

fprime-openmct connects an F' flight-software deployment to the Open MCT
mission-control web application. The model covers the parts of that chain
that hold state or transform data:

- **Open MCT time contexts.** `TimeContext` holds the time system, the bounds,
  the clock and the clock offsets, and validates new bounds and offsets.
  `GlobalTimeContext` adds the time of interest. `IndependentTimeContext` is a
  per-view context: it either follows an upstream context (the global context,
  or the independent context of an object further up its object path) or acts
  on its own state. Modules `Time`, `GlobalTime`, `IndependentTime`.
- **Open MCT telemetry collection.** `TelemetryCollection` keeps a sorted,
  duplicate-free buffer of the telemetry inside the current time window. It
  keeps a future buffer of data that arrived after the window. It handles
  historical batches, real-time data, ticks, changes of bounds and changes of
  time system. The "latest" strategy and the greedy LAD (latest available
  datum) rule of the telemetry API are included. Module `Telemetry`.
- **The two telemetry servers.** `fprime-telem-listener.js` and `heli.js` each
  hold a state table. On each POST they update it from the received telemetry:
  the listener matches entries by name and skips faulty ones; heli matches
  them by position in the table and stops at the first fault. Every second
  they emit one point per key to their listeners, record it in a history and
  count the bytes sent in `comms.sent`. Modules `ServerState` (shared),
  `TelemListener`, `Heli`, with `Json` for `JSON.stringify` and its `length`.
- **The two telemetry pollers.** Both are `fprime_telem_poller.py` files that
  turn a batch of F' channel history items into the records they post, and
  fill the initial-state table:
  - the packaged one flattens struct values into one record per member and
    stores every record's value;
  - the script stores only the very first record ever.

  Modules `Gds` (shared), `TelemPoller`, `ScriptTelemPoller`, helped by
  `PyStrings` (Python `find`, negative slicing, `replace`) and `Decimal`
  (number formatting and Python `int()`).
- **The dictionary converter.** `TopAppDictXMLtoOpenMCTJSON.py` reads the
  sections of an F' topology dictionary, builds the enum table, and turns each
  telemetry channel into an Open MCT measurement descriptor. Module
  `DictConverter`.

Python exceptions (the `KeyError`, `ValueError` and `IndexError` the converter
can raise) are modelled as `Result` errors. The TypeScript declarations have no
bodies. For them the model follows the declared fields and their doc comments,
and leaves open what neither states.

## Model

| member | source | states |
|---|---|---|
| Time.ValidateBounds | src/fprime_openmct/javascript/dist/src/api/time/TimeContext.d.ts:55-83 | bounds are accepted exactly when the start does not lie after the end; a rejection carries the message |
| Time.ValidateOffsets | src/fprime_openmct/javascript/dist/src/api/time/TimeContext.d.ts:96-127 | offsets are accepted exactly when the start offset is negative and the end offset is not |
| Time.TickBoundsValid | src/fprime_openmct/javascript/dist/src/api/time/TimeContext.d.ts:16-36 | the bounds a tick derives from valid offsets are valid, keep the offsets' width, and contain the timestamp |
| Time.ResolveTimeSystem | src/fprime_openmct/javascript/dist/src/api/time/TimeContext.d.ts:37-46 | a time system resolves exactly when its key is registered: a key to the registered system, an object to itself |
| Time.ResolveClock | src/fprime_openmct/javascript/dist/src/api/time/TimeContext.d.ts:191-217 | a clock resolves exactly when its key is registered: a key to the registered clock, an object to itself |
| Time.TimeContext.constructor | src/fprime_openmct/javascript/dist/src/api/time/TimeContext.d.ts:7-30 | a new context has the registries, and no time system, bounds, clock or offsets |
| Time.TimeContext.IsRealTime | src/fprime_openmct/javascript/dist/src/api/time/TimeContext.d.ts:218-222 | the context is in real-time mode exactly when a clock is active |
| Time.TimeContext.Tick | src/fprime_openmct/javascript/dist/src/api/time/TimeContext.d.ts:31-36 | with offsets, the bounds become the timestamp shifted by the offsets and a tick bounds event fires; without offsets nothing changes |
| Time.TimeContext.SetBounds | src/fprime_openmct/javascript/dist/src/api/time/TimeContext.d.ts:84-95 | valid bounds are applied and announced; invalid bounds are an error that changes nothing |
| Time.TimeContext.SetTimeSystem | src/fprime_openmct/javascript/dist/src/api/time/TimeContext.d.ts:37-46 | a resolvable time system, with valid bounds if bounds are given, is applied and announced; otherwise an error that changes nothing |
| Time.TimeContext.SetClockOffsets | src/fprime_openmct/javascript/dist/src/api/time/TimeContext.d.ts:149-184 | valid offsets are applied and announced; with a clock running, the bounds are first recomputed from the clock's current value and announced; invalid offsets are an error that changes nothing |
| Time.TimeContext.StopClock | src/fprime_openmct/javascript/dist/src/api/time/TimeContext.d.ts:185-190 | the active clock is unset and a clock event fires; the time system, bounds and offsets stay, so views keep a fixed window |
| Time.TimeContext.SetClock | src/fprime_openmct/javascript/dist/src/api/time/TimeContext.d.ts:191-217 | a resolvable clock with valid offsets becomes active and is announced, then the offsets are applied and the bounds set at once from the clock's current value, a window containing it; otherwise an error that changes nothing |
| GlobalTime.GlobalTimeContext.constructor | src/fprime_openmct/javascript/dist/src/api/time/GlobalTimeContext.d.ts:6-7 | the global context starts with no time of interest and an empty time context |
| GlobalTime.GlobalTimeContext.SetTimeOfInterest | src/fprime_openmct/javascript/dist/src/api/time/GlobalTimeContext.d.ts:15-27 | the time of interest becomes the new value (unset by `undefined`), is announced, and is returned |
| GlobalTime.GlobalTimeContext.Tick | src/fprime_openmct/javascript/dist/src/api/time/GlobalTimeContext.d.ts:7-14 | a tick recomputes the bounds from the current offsets; a time of interest outside the new bounds is unset and announced after the bounds event, so afterwards any time of interest lies within the bounds; the time system, clock, offsets and registries stay |
| IndependentTime.FirstOwned | dist/src/api/time/IndependentTimeContext.d.ts:51 | the first position on the object path, from a given one, whose object has its own context; none before it has one |
| IndependentTime.UpstreamOf | dist/src/api/time/IndependentTimeContext.d.ts:51 | the upstream is the context of the nearest owning ancestor on the path, and the global context when no ancestor owns one |
| IndependentTime.IndependentTimeContext.constructor | dist/src/api/time/IndependentTimeContext.d.ts:7-12 | a new context follows the upstream of its object path, which is what `getUpstreamContext` then reports, and relays every time-context event |
| IndependentTime.IndependentTimeContext.HasOwnContext | dist/src/api/time/IndependentTimeContext.d.ts:50 | true exactly when the context follows nothing and so acts on its own state |
| IndependentTime.IndependentTimeContext.GetUpstreamContext | dist/src/api/time/IndependentTimeContext.d.ts:51 | nothing exactly when the context has its own state; otherwise the context of the nearest owning ancestor on the path, or the global context |
| IndependentTime.IndependentTimeContext.CurrentBounds | dist/src/api/time/IndependentTimeContext.d.ts:23 | while following, the bounds read are the upstream's; otherwise the own bounds |
| IndependentTime.IndependentTimeContext.CurrentClockOffsets | dist/src/api/time/IndependentTimeContext.d.ts:25 | while following, the offsets read are the upstream's; otherwise the own offsets |
| IndependentTime.IndependentTimeContext.CurrentClock | dist/src/api/time/IndependentTimeContext.d.ts:28-40 | while following, the clock read is the upstream's; otherwise the own clock |
| IndependentTime.IndependentTimeContext.CurrentTimeSystem | dist/src/api/time/IndependentTimeContext.d.ts:27 | while following, the time system read is the upstream's; otherwise the own one |
| IndependentTime.IndependentTimeContext.SetBounds | dist/src/api/time/IndependentTimeContext.d.ts:23 | setting bounds acts on the followed context (the own state when there is none): the same validation, the same new bounds and bounds event, and nothing else of that context changes |
| IndependentTime.IndependentTimeContext.Tick | dist/src/api/time/IndependentTimeContext.d.ts:24 | a tick moves the followed context's bounds to the timestamp shifted by its offsets and fires a tick event there; without offsets nothing changes; while the global context is followed, its own tick also unsets a time of interest left outside the new bounds and announces that after the bounds event, so any remaining time of interest lies within them; otherwise the time of interest stays |
| IndependentTime.IndependentTimeContext.SetClockOffsets | dist/src/api/time/IndependentTimeContext.d.ts:25 | setting offsets acts on the followed context: the same validation, the bounds recomputed when a clock runs there, and the same events in the same order |
| IndependentTime.IndependentTimeContext.SetTimeSystem | dist/src/api/time/IndependentTimeContext.d.ts:27 | setting the time system acts on the followed context, resolved against its registry, with the same bounds and events and nothing else changed |
| IndependentTime.IndependentTimeContext.SetClock | dist/src/api/time/IndependentTimeContext.d.ts:28-40 | setting the clock acts on the followed context: the clock becomes active with the given offsets and bounds from its current value, with the same events; the time system stays |
| IndependentTime.IndependentTimeContext.SetTimeOfInterest | dist/src/api/time/IndependentTimeContext.d.ts:26 | the time of interest is set on the global context and returned, and a time-of-interest event with the new value is appended to the global context's events |
| IndependentTime.IndependentTimeContext.Relay | dist/src/api/time/IndependentTimeContext.d.ts:41-45 | an upstream event is fired again by this context exactly when its name is subscribed |
| IndependentTime.IndependentTimeContext.FollowTimeContext | dist/src/api/time/IndependentTimeContext.d.ts:41-45 | with an upstream, every time-context event is subscribed; without one, none |
| IndependentTime.IndependentTimeContext.StopFollowingTimeContext | dist/src/api/time/IndependentTimeContext.d.ts:46-49 | no upstream event is relayed afterwards, and the context keeps the upstream's bounds, offsets, clock and time system as its own state, which later upstream changes do not reach |
| IndependentTime.IndependentTimeContext.ResetContext | dist/src/api/time/IndependentTimeContext.d.ts:17 | the context stops following and acts on its own state, which starts as the state it followed |
| IndependentTime.IndependentTimeContext.RefreshContext | dist/src/api/time/IndependentTimeContext.d.ts:13-16 | the context follows the upstream its object path now calls for, relays its events, and `getUpstreamContext` reports exactly that context |
| IndependentTime.IndependentTimeContext.RemoveIndependentContext | dist/src/api/time/IndependentTimeContext.d.ts:18-22 | with the view's own context gone, the context follows the remaining upstream, the global one by default |
| Telemetry.PastEndOf | dist/src/api/telemetry/TelemetryCollection.d.ts:50-58 | exactly the data after the window's end, all of them, none added |
| Telemetry.Difference | dist/src/api/telemetry/TelemetryCollection.d.ts:65-75 | the data of one buffer that are not in the other |
| Telemetry.SortedIndex | dist/src/api/telemetry/TelemetryCollection.d.ts:59-64 | the insertion point: every datum before it is earlier, none at or after it is |
| Telemetry.InsertKeepsSorted | dist/src/api/telemetry/TelemetryCollection.d.ts:59-64 | inserting at the sorted index keeps the buffer in time order |
| Telemetry.InsertSorted | dist/src/api/telemetry/TelemetryCollection.d.ts:50-64 | a new datum joins the buffer in order; a duplicate leaves it unchanged; order and distinctness are kept |
| Telemetry.SplitAt | dist/src/api/telemetry/TelemetryCollection.d.ts:65-75 | the buffer splits at a time into the earlier and the later data, each still sorted |
| Telemetry.LatestOf | dist/src/api/telemetry/TelemetryCollection.d.ts:23 | under "latest", at most one datum is kept: one of greatest time, and one exists whenever there is data |
| Telemetry.LastIsLatest | dist/src/api/telemetry/TelemetryCollection.d.ts:23 | the last datum of a sorted buffer is no earlier than any other |
| Telemetry.AdmittedStayInWindow | dist/src/api/telemetry/TelemetryCollection.d.ts:50-58 | admitted data never lie after the end, and lie before the start only when stale data are accepted |
| Telemetry.Merge | dist/src/api/telemetry/TelemetryCollection.d.ts:50-58 | the buffer gains exactly the admissible new data, in order and without duplicates; later data go to the future buffer; the announced data are those gained |
| Telemetry.MergeOne | dist/src/api/telemetry/TelemetryCollection.d.ts:50-58 | one datum of a batch is filed: admitted, deferred or dropped |
| Telemetry.Intake | src/fprime_openmct/javascript/dist/src/api/telemetry/TelemetryAPI.d.ts:83-96 | new data are merged; under "latest" only the latest admissible datum is kept, and stale data count only under greedy LAD in real time |
| Telemetry.Retime | dist/src/api/telemetry/TelemetryCollection.d.ts:65-75 | on a tick the buffer becomes the admissible data of the buffer and the future buffer; data after the new end wait in the future buffer |
| Telemetry.Rewindow | dist/src/api/telemetry/TelemetryCollection.d.ts:65-75 | under "all", the tick's buffer holds exactly the admissible data, sorted and distinct |
| Telemetry.TickElements | dist/src/api/telemetry/TelemetryCollection.d.ts:65-75 | evicting the early data and admitting the pending data yields exactly the admissible data |
| Telemetry.PastEndOfSplit | dist/src/api/telemetry/TelemetryCollection.d.ts:65-75 | the later part of a split at the end are exactly the data after the window |
| Telemetry.StaleIsFirst | dist/src/api/telemetry/TelemetryCollection.d.ts:76-77 | a sorted buffer holds stale data exactly when its first datum is before the start |
| Telemetry.OutsideBounds | dist/src/api/telemetry/TelemetryCollection.d.ts:76-77 | the outside-bounds flag is true exactly when some datum lies before the start |
| Telemetry.IntakeValid | dist/src/api/telemetry/TelemetryCollection.d.ts:50-58 | after new data are processed, the buffers agree with the window again |
| Telemetry.TelemetryCollection.constructor | dist/src/api/telemetry/TelemetryCollection.d.ts:3-24 | a new collection is not loaded, holds nothing, and has no request, subscription or watcher |
| Telemetry.TelemetryCollection.GetAll | dist/src/api/telemetry/TelemetryCollection.d.ts:35-39 | the held data, in time order, without duplicates, and none after the window |
| Telemetry.TelemetryCollection.UpdateOutsideBounds | dist/src/api/telemetry/TelemetryCollection.d.ts:76-77 | the flag records whether a held datum lies before the window |
| Telemetry.TelemetryCollection.RequestHistoricalTelemetry | dist/src/api/telemetry/TelemetryCollection.d.ts:40-44 | with a historical provider, one request for the current window supersedes the one in flight |
| Telemetry.TelemetryCollection.Load | dist/src/api/telemetry/TelemetryCollection.d.ts:25-29 | loading applies the time system and bounds, watches both, requests history and subscribes; loading twice is an error that changes nothing |
| Telemetry.TelemetryCollection.ProcessNewTelemetry | dist/src/api/telemetry/TelemetryCollection.d.ts:50-58 | the buffer gains the admissible new data (only the latest under "latest", stale data only under greedy LAD), later data go to the future buffer, and the gain is announced |
| Telemetry.TelemetryCollection.OnHistoricalData | dist/src/api/telemetry/TelemetryCollection.d.ts:40-44 | only the batch of the request in flight is processed, with the same buffer, future buffer and `add` event as `_processNewTelemetry` gives it under either strategy; the request is then done; a superseded batch changes nothing |
| Telemetry.TelemetryCollection.OnRealtimeDatum | dist/src/api/telemetry/TelemetryCollection.d.ts:45-49 | a subscribed datum is processed as a batch of one: the same buffer under either strategy, the same future buffer and the same `add` event |
| Telemetry.TelemetryCollection.Reset | dist/src/api/telemetry/TelemetryCollection.d.ts:89-96 | all data are dropped, a clear is announced, and history is requested again |
| Telemetry.TelemetryCollection.OnBounds | dist/src/api/telemetry/TelemetryCollection.d.ts:65-75 | a tick patches the buffers without a request; any other change of bounds resets the collection with a request for the new window |
| Telemetry.TelemetryCollection.ApplyTick | dist/src/api/telemetry/TelemetryCollection.d.ts:65-77 | a tick keeps exactly the admissible data, returns later data to the future buffer, and announces what left and what joined |
| Telemetry.TelemetryCollection.RetimeBuffers | dist/src/api/telemetry/TelemetryCollection.d.ts:65-77 | the buffers and the window after a tick, with the outside-bounds flag updated |
| Telemetry.TelemetryCollection.SetTimeSystem | dist/src/api/telemetry/TelemetryCollection.d.ts:78-88 | times are read under the new system's key and the collection is reset |
| Telemetry.TelemetryCollection.Destroy | dist/src/api/telemetry/TelemetryCollection.d.ts:30-34 | every watcher, subscription and request is dropped; destroying again changes nothing |
| Json.JsAdd | src/fprime_openmct/javascript/fprime-openmct-server/fprime-telem-listener.js:88 | ECMAScript's addition: a string operand concatenates the numeral; otherwise both operands are converted to numbers and added, and `NaN` stays `NaN`; the result is a string exactly when the operand was |
| Json.Escape | src/fprime_openmct/javascript/fprime-openmct-server/fprime-telem-listener.js:88 | a printable character other than a quote or backslash is written as itself; any other takes at most six characters |
| Json.Quote | src/fprime_openmct/javascript/fprime-openmct-server/fprime-telem-listener.js:88 | a string is written between quotes and is no shorter than itself |
| Json.Utf16Length | src/fprime_openmct/javascript/fprime-openmct-server/fprime-telem-listener.js:88 | a string's `length` counts between one and two code units per character |
| Json.Size | src/fprime_openmct/javascript/fprime-openmct-server/fprime-telem-listener.js:88 | the counted size of a point covers at least its framing and its id |
| Json.SizeIsJsonLength | src/fprime_openmct/javascript/fprime-openmct-server/fprime-telem-listener.js:88 | the size added to `comms.sent` is exactly the `length` of the point's JSON text |
| Json.ValueMemberLength | src/fprime_openmct/javascript/fprime-openmct-server/fprime-telem-listener.js:85-88 | the value member's length, zero when `undefined` drops it |
| Json.QuoteLength | src/fprime_openmct/javascript/fprime-openmct-server/fprime-telem-listener.js:88 | a quoted string's length is its escaped length plus two |
| Json.ShowLength | src/fprime_openmct/javascript/fprime-openmct-server/fprime-telem-listener.js:83-88 | a numeral (the timestamp) counts one code unit per character |
| Json.Utf16Concat | src/fprime_openmct/javascript/fprime-openmct-server/fprime-telem-listener.js:88 | `length` adds up over concatenation |
| Decimal.NatString | src/fprime_openmct/javascript/fprime-openmct-server/fprime-telem-listener.js:88 | a natural number is written as digits with no leading zero, and the digits denote it |
| Decimal.Show | src/fprime_openmct/javascript/fprime-openmct-server/fprime-telem-listener.js:88 | an integer's numeral starts with a minus exactly when it is negative |
| Decimal.ShowParses | fprime_scripts/TopAppDictXMLtoOpenMCTJSON.py:48 | `int()` reads any integer's numeral back as that integer |
| Decimal.TrimStartRemovesLeadingSpace | fprime_scripts/TopAppDictXMLtoOpenMCTJSON.py:48 | exactly the leading run of the whitespace `int()` strips, ASCII and Unicode, is removed |
| Decimal.TrimEndRemovesTrailingSpace | fprime_scripts/TopAppDictXMLtoOpenMCTJSON.py:48 | exactly the trailing run of the whitespace `int()` strips, ASCII and Unicode, is removed |
| Decimal.UnsignedParses | fprime_scripts/TopAppDictXMLtoOpenMCTJSON.py:48 | a plain string of digits is read as its decimal value |
| Decimal.NegativeParses | fprime_scripts/TopAppDictXMLtoOpenMCTJSON.py:48 | a minus sign before digits negates their value |
| Decimal.DigitsAreGrouped | fprime_scripts/TopAppDictXMLtoOpenMCTJSON.py:48 | plain digits are a valid numeral with no underscore to drop |
| PyStrings.Find | src/fprime_openmct/fprime_telem_poller.py:62 | `find` gives -1 or a position where the pattern fits in the string |
| PyStrings.FindFirst | src/fprime_openmct/fprime_telem_poller.py:62 | `find` is -1 exactly when the pattern is absent, and otherwise its first occurrence |
| PyStrings.SliceFrom | src/fprime_openmct/fprime_telem_poller.py:62 | a slice from a non-negative start is the suffix from there; from a negative start it counts from the end |
| PyStrings.ReplaceAbsent | src/fprime_openmct/fprime_telem_poller.py:62 | `replace` changes nothing where the pattern does not occur |
| PyStrings.ReplaceSuffix | fprime_scripts/TopAppDictXMLtoOpenMCTJSON.py:89-90 | a pattern that occurs only as the suffix is the one occurrence replaced |
| PyStrings.RemoveColonsLeavesNone | src/fprime_openmct/fprime_telem_poller.py:62 | removing every `::` leaves no `::`, and keeps a first character that is not a colon |
| Gds.ChannelName | src/fprime_openmct/fprime_telem_poller.py:82 | a channel's name is its component name, a dot, and its own name |
| Gds.MaxSizeIsMaximum | src/fprime_openmct/fprime_telem_poller.py:45-49 | the running maximum bounds every batch size, and some batch reaches it |
| Gds.MaxSizeGrows | src/fprime_openmct/fprime_telem_poller.py:45-49 | the running maximum never goes down and covers the newest batch |
| TelemPoller.TypeSuffixQualified | src/fprime_openmct/fprime_telem_poller.py:62 | a qualified type name loses all up to its first `::`, and no `::` remains |
| TelemPoller.TypeSuffixUnqualified | src/fprime_openmct/fprime_telem_poller.py:62 | an unqualified type name contributes only its last character (the effect of `find` returning -1) |
| TelemPoller.MemberRecords | src/fprime_openmct/fprime_telem_poller.py:60-79 | a struct yields one record per member |
| TelemPoller.MemberRecordsInOrder | src/fprime_openmct/fprime_telem_poller.py:60-79 | member `i`'s record has the member's name and value, the item's id plus `i`, and the item's time |
| TelemPoller.MemberNamesDiffer | src/fprime_openmct/fprime_telem_poller.py:62 | members with different keys get different record names |
| TelemPoller.ItemRecords | src/fprime_openmct/fprime_telem_poller.py:58-96 | a scalar item yields its one record; a struct item yields one record per member |
| TelemPoller.SetAll | src/fprime_openmct/fprime_telem_poller.py:76-96 | storing records never removes a name from the initial-state table |
| TelemPoller.LastValue | src/fprime_openmct/fprime_telem_poller.py:76-96 | none exactly when no record has the name |
| TelemPoller.SetAllLastWins | src/fprime_openmct/fprime_telem_poller.py:53-96 | each name holds the value of its last record; a name with no record keeps its old entry or stays absent |
| TelemPoller.FlattenStruct | src/fprime_openmct/fprime_telem_poller.py:60-79 | the member loop appends the struct's records and stores each member's value |
| TelemPoller.ProcessHistory | src/fprime_openmct/fprime_telem_poller.py:52-96 | the batch loop produces every item's records in order, stores all of them, and sets the writeable flag once any item is seen |
| TelemPoller.TelemPipeline.constructor | src/fprime_openmct/fprime_telem_poller.py:35-40 | the pipeline starts with nothing retrieved, nothing stored and the flag clear |
| TelemPoller.TelemPipeline.GetTelemHist | src/fprime_openmct/fprime_telem_poller.py:42-43 | the batch retrieved last, none before the first retrieval, and no larger than the maximum count |
| TelemPoller.TelemPipeline.UpdateTelemHist | src/fprime_openmct/fprime_telem_poller.py:45-49 | the new batch replaces the old one, and the maximum count is the largest batch seen |
| TelemPoller.TelemPipeline.SetTelemJson | src/fprime_openmct/fprime_telem_poller.py:51-96 | the batch's records replace the previous ones, every record's value is stored, and the flag is set once any item is seen |
| ScriptTelemPoller.Records | fprime_scripts/fprime_telem_poller.py:49-67 | one record per item |
| ScriptTelemPoller.RecordsPerItem | fprime_scripts/fprime_telem_poller.py:52-61 | record `i` carries item `i`'s channel name, id, value and time, struct values included as they are |
| ScriptTelemPoller.FirstStateKeepsFirst | fprime_scripts/fprime_telem_poller.py:63-65 | the initial-state table holds exactly the first record ever processed, and a set flag stays set |
| ScriptTelemPoller.ProcessHistory | fprime_scripts/fprime_telem_poller.py:50-67 | the batch loop produces one record per item and stores the first item only when nothing was stored before |
| ScriptTelemPoller.TelemPipeline.constructor | fprime_scripts/fprime_telem_poller.py:34-39 | the pipeline starts with nothing retrieved, nothing stored and the flag clear |
| ScriptTelemPoller.TelemPipeline.GetTelemHist | fprime_scripts/fprime_telem_poller.py:41-42 | the batch retrieved last, none before the first retrieval, and no larger than the maximum count |
| ScriptTelemPoller.TelemPipeline.UpdateTelemHist | fprime_scripts/fprime_telem_poller.py:44-47 | the new batch replaces the old one, and the maximum count is the largest batch seen |
| ScriptTelemPoller.TelemPipeline.SetTelemJson | fprime_scripts/fprime_telem_poller.py:49-67 | the batch's records replace the previous ones, and the table keeps only the first record ever |
| ServerState.Broadcast | src/fprime_openmct/javascript/fprime-openmct-server/fprime-telem-listener.js:92-96 | each listener is called once with the point, in registration order |
| ServerState.Without | src/fprime_openmct/javascript/fprime-openmct-server/fprime-telem-listener.js:100-104 | the filter keeps every other listener in order and no copy of the removed one |
| ServerState.WithoutConcat | src/fprime_openmct/javascript/fprime-openmct-server/fprime-telem-listener.js:100-104 | filtering distributes over concatenation |
| ServerState.UnlistenedHearNothing | src/fprime_openmct/javascript/fprime-openmct-server/fprime-telem-listener.js:98-105 | after unsubscribing, a listener receives nothing, however often it had subscribed |
| ServerState.Generate | src/fprime_openmct/javascript/fprime-openmct-server/fprime-telem-listener.js:82-90 | one point per key is emitted, and `comms.sent` is the only entry that changes |
| ServerState.GeneratePoints | src/fprime_openmct/javascript/fprime-openmct-server/fprime-telem-listener.js:83-85 | point `j` carries key `j`, that key's value before the call (unless it is `comms.sent`), and the common timestamp |
| ServerState.GenerateCountsSent | src/fprime_openmct/javascript/fprime-openmct-server/fprime-telem-listener.js:88 | a numeric `comms.sent` grows by exactly the total JSON length of the points emitted |
| ServerState.Record | src/fprime_openmct/javascript/fprime-openmct-server/fprime-telem-listener.js:87 | recording keeps the history's keys |
| ServerState.RecordAppends | src/fprime_openmct/javascript/fprime-openmct-server/fprime-telem-listener.js:84-89 | with distinct keys, each key's history gains exactly its own point, and other histories stay unchanged |
| ServerState.InitialKeys | src/fprime_openmct/javascript/fprime-openmct-server/fprime-telem-listener.js:26-29 | the initial keys, followed by `comms.recd` and `comms.sent` when they are absent |
| ServerState.InitialKeysValid | src/fprime_openmct/javascript/fprime-openmct-server/fprime-telem-listener.js:25-34 | the extended key list is distinct and names exactly the keys of the table with both counters |
| ServerState.InitialTable | src/fprime_openmct/javascript/fprime-openmct-server/fprime-telem-listener.js:26-29 | setting both counters to 0 appends each one to the keys only when it is new, keeps the keys distinct, and makes them exactly the table's keys |
| ServerState.EmptyHistory | src/fprime_openmct/javascript/fprime-openmct-server/fprime-telem-listener.js:30-34 | every key starts with an empty history |
| ServerState.TelemetryServer.constructor | src/fprime_openmct/javascript/fprime-openmct-server/fprime-telem-listener.js:25-41 | the table is the initial states with both counters at 0, each key has an empty history, and there are no listeners |
| ServerState.TelemetryServer.Notify | src/fprime_openmct/javascript/fprime-openmct-server/fprime-telem-listener.js:92-96 | every listener is called with the point once, in order |
| ServerState.TelemetryServer.Listen | src/fprime_openmct/javascript/fprime-openmct-server/fprime-telem-listener.js:98-99 | the listener is appended |
| ServerState.TelemetryServer.Unlisten | src/fprime_openmct/javascript/fprime-openmct-server/fprime-telem-listener.js:100-104 | every registration of the listener is removed and the others keep their order |
| ServerState.TelemetryServer.GenerateTelemetry | src/fprime_openmct/javascript/fprime-openmct-server/fprime-telem-listener.js:82-90 | every key's point is delivered to the listeners and appended to its history, and `comms.sent` grows by the points' JSON length |
| ServerState.Deliver | src/fprime_openmct/javascript/fprime-openmct-server/fprime-telem-listener.js:93-95 | the listener loop appends one call per listener, in order |
| ServerState.GenerateRound | src/fprime_openmct/javascript/fprime-openmct-server/fprime-telem-listener.js:84-89 | the key loop emits, delivers, records and counts every key's point, in key order |
| TelemListener.ApplyEntry | src/fprime_openmct/javascript/fprime-openmct-server/fprime-telem-listener.js:55-69 | an entry with a known name and data sets that key; any other entry changes nothing; the keys stay |
| TelemListener.ApplyEntries | src/fprime_openmct/javascript/fprime-openmct-server/fprime-telem-listener.js:53-72 | processing a request keeps the table's keys |
| TelemListener.LastWrite | src/fprime_openmct/javascript/fprime-openmct-server/fprime-telem-listener.js:53-72 | none exactly when no entry of the request writes the key |
| TelemListener.LastWriterWins | src/fprime_openmct/javascript/fprime-openmct-server/fprime-telem-listener.js:53-72 | each key ends with the value of the last entry that wrote it, or keeps its value |
| TelemListener.ApplyEntriesConcat | src/fprime_openmct/javascript/fprime-openmct-server/fprime-telem-listener.js:53-72 | a request split in two has the same effect as the two parts one after the other |
| TelemListener.SkippedEntry | src/fprime_openmct/javascript/fprime-openmct-server/fprime-telem-listener.js:55-69 | a faulty or unknown entry (caught and logged) has no effect on the outcome |
| TelemListener.ProcessEntry | src/fprime_openmct/javascript/fprime-openmct-server/fprime-telem-listener.js:55-69 | the key loop for one entry has the entry's effect |
| TelemListener.ProcessRequest | src/fprime_openmct/javascript/fprime-openmct-server/fprime-telem-listener.js:51-72 | the entry loop has the request's effect |
| TelemListener.FPrimeTelemListener.constructor | src/fprime_openmct/javascript/fprime-openmct-server/fprime-telem-listener.js:25-41 | the listener starts with a valid server holding the initial states and both counters at 0 |
| TelemListener.FPrimeTelemListener.UpdateState | src/fprime_openmct/javascript/fprime-openmct-server/fprime-telem-listener.js:47-77 | a request with a `telem` array is processed and `done` is sent; one whose `telem` is missing or `null` throws before any change and before `done` is sent |
| Heli.Assigned | openmct/example-server/heli.js:50-61 | a position yields a value only when its step does not fail |
| Heli.FailureStops | openmct/example-server/heli.js:50-61 | after the first failing position, later positions change nothing |
| Heli.PositionalEffect | openmct/example-server/heli.js:50-61 | the request succeeds exactly when no position fails; each key takes the value at its position when assigned before the first failure, and keeps its value otherwise |
| Heli.UpdateByPosition | openmct/example-server/heli.js:49-61 | the key loop, which stops at the first throw, has the positional effect |
| Heli.Heli.constructor | openmct/example-server/heli.js:19-43 | heli starts with a valid server holding the initial states and both counters at 0 |
| Heli.Heli.UpdateState | openmct/example-server/heli.js:45-81 | the table takes the positional effect of the request, and `done` is sent exactly when nothing threw |
| DictConverter.CollectMap | fprime_scripts/TopAppDictXMLtoOpenMCTJSON.py:38-53 | when a loop over elements succeeds, it gives one result per element |
| DictConverter.CollectMapMeaning | fprime_scripts/TopAppDictXMLtoOpenMCTJSON.py:38-53 | a loop succeeds exactly when every element does; its values are theirs; a failure is the first element's error |
| DictConverter.CollectMapStops | fprime_scripts/TopAppDictXMLtoOpenMCTJSON.py:38-53 | after the first error, the rest of the elements are never reached |
| DictConverter.EnumTableMeaning | fprime_scripts/TopAppDictXMLtoOpenMCTJSON.py:38-53 | the enum table is built exactly when every enum is read, with one entry per enum in order |
| DictConverter.EnumEntryMeaning | fprime_scripts/TopAppDictXMLtoOpenMCTJSON.py:40-52 | an enum is read exactly when it has a type and all its enumerators are read, and the type is checked first |
| DictConverter.EnumValueMeaning | fprime_scripts/TopAppDictXMLtoOpenMCTJSON.py:45-50 | an enumerator is read exactly when it has a name and a value `int()` accepts, the name being checked first |
| DictConverter.EnumeratorReadsNumeral | fprime_scripts/TopAppDictXMLtoOpenMCTJSON.py:47-48 | an enumerator whose value is a numeral reads back the number written |
| DictConverter.TraverseLevel | fprime_scripts/TopAppDictXMLtoOpenMCTJSON.py:31-35 | the element's children, in document order |
| DictConverter.EnumValues | fprime_scripts/TopAppDictXMLtoOpenMCTJSON.py:44-51 | the enumerator loop reads every enumerator in order, or stops at the first error |
| DictConverter.FormulateEnum | fprime_scripts/TopAppDictXMLtoOpenMCTJSON.py:38-53 | the enum loop builds the enum table, or stops at the first error |
| DictConverter.IngestBySection | fprime_scripts/TopAppDictXMLtoOpenMCTJSON.py:21-29 | ingestion succeeds exactly when there are seven sections and the enum table can be read; each table is its section's children; sections are checked in order |
| DictConverter.SectionTwoUnused | fprime_scripts/TopAppDictXMLtoOpenMCTJSON.py:21-29 | section 2 is never read |
| DictConverter.NewIngester | fprime_scripts/TopAppDictXMLtoOpenMCTJSON.py:21-29 | the ingester's constructor, step by step, gives the ingestion result |
| DictConverter.ClassifyMeaning | fprime_scripts/TopAppDictXMLtoOpenMCTJSON.py:105-112 | float types are "float", integer types are "integer", framework types are skipped, and every other type is "enum" |
| DictConverter.LastEnum | fprime_scripts/TopAppDictXMLtoOpenMCTJSON.py:115-118 | none exactly when no enum has the channel's type |
| DictConverter.LastEnumIsLast | fprime_scripts/TopAppDictXMLtoOpenMCTJSON.py:115-118 | the enumerations come from the last enum of the channel's type |
| DictConverter.Kept | fprime_scripts/TopAppDictXMLtoOpenMCTJSON.py:109-110 | the channels kept are channels of the list and not of a framework type |
| DictConverter.MeasurementOfDescribes | fprime_scripts/TopAppDictXMLtoOpenMCTJSON.py:96-129 | a channel has a measurement exactly when its type is not a framework type, and the measurement describes it: name, key, value format, enumerations, hints and the timestamp value |
| DictConverter.MeasurementsOfKept | fprime_scripts/TopAppDictXMLtoOpenMCTJSON.py:94-131 | one measurement per kept channel, in channel order, each describing its channel |
| DictConverter.FindEnumerations | fprime_scripts/TopAppDictXMLtoOpenMCTJSON.py:115-118 | the loop over the enum table finds the enumerations of the last enum of the type |
| DictConverter.BuildMeasurements | fprime_scripts/TopAppDictXMLtoOpenMCTJSON.py:94-131 | the loop appends the measurements of the channels, with each framework-typed channel skipped |
| DictConverter.StemDropsExtension | fprime_scripts/TopAppDictXMLtoOpenMCTJSON.py:89-90 | a path whose only `.xml` is its extension loses exactly that extension |
| DictConverter.TopologyAppDictionaryJSONifier.constructor | fprime_scripts/TopAppDictXMLtoOpenMCTJSON.py:70-91 | the measurements are those of the channels, and the dictionary names the path without `.xml` |
| DictConverter.TopologyAppDictionaryJSONifier.LoadEntries | fprime_scripts/TopAppDictXMLtoOpenMCTJSON.py:94-131 | the measurements of the channels are appended to the list |
| DictConverter.Jsonify | fprime_scripts/TopAppDictXMLtoOpenMCTJSON.py:70-91 | conversion succeeds exactly when ingestion does, with ingestion's error otherwise; the result's dictionary holds the measurements of the channels under the path's stem |

## Left out

- Floating point: every numeric value is an integer. Formatting of fractional or very large numbers is not modelled.
- I/O and the outside world:
  - HTTP is not modelled: Express, `app.post`, `res.json` and `requests.post`. A request body is an input; whether `done` is sent is a result flag.
  - Files are not modelled: `initial_states.json`, `write_telem_json` and `writeJSON`. JSON writing with `json.dumps` is left out too.
  - Console output is not modelled.
  - `Date.now()` is a parameter.
- Timers: `setInterval` is left out. Each call of the handler is one step of the model.
- Route registration: `updateState` registers its POST handler again every second. The model keeps one handler, the first, which sends `done`.
- Listener functions: they are modelled as numeric ids, and a call as a delivery record.
- Loose equality: JavaScript `key == name` between a string key and a non-string name is not modelled; a name is a string or missing.
- JavaScript object key order: integer-like keys are not reordered. Keys stay in insertion order.
- ServerState.Generate: the `length` of the JSON text is a parameter of the generation functions. It is linked to `JSON.stringify` through `Json.SizeIsJsonLength`.
- The F' GDS connection: the pipeline setup, `retrieve_new()`, and the reading of the dictionary with `Dictionaries` are left out. The batch and the channel templates are inputs.
- Times: `time.to_readable()` is opaque text.
- The pollers' `main` loops, sleep and argument parsing are left out.
- TelemPoller.SetAll: the insertion order of the Python dict of initial states is not modelled; the table is a map.
- Nested values: `Json.Value` and `Gds.ChanValue` hold numbers, strings, booleans, `null`, `undefined` and `NaN`, and a channel value is a scalar or a struct of such members. JSON objects and arrays are not modelled: a struct member that is itself a struct or an array, and an F' array channel, cannot be represented, and neither can their place in the state table or in the length counted in `comms.sent`.
- ParseInt: only ASCII digits are read. Python's `int()` also accepts the other Unicode decimal digits (such as Arabic-Indic ones), which the model rejects as not an integer.
- EnumValueMeaning: an enumerator value written with non-ASCII decimal digits is rejected, where the converter would read it; the whitespace around it is stripped as `int()` strips it.
- Time.TimeContext.Tick: a timestamp older than the last one applied is not ignored; the declaration of `tick` states no such guard, so every tick moves the bounds.
- Time.TimeContext.SetClock: `clock(null)` or `clock(undefined)` standing for `stopClock()` is not modelled; `StopClock` is that operation. The order in which the clock event and the offsets' validation happen inside `clock` is not modelled: invalid offsets change nothing.
- Time.TimeContext.SetBounds: manual bounds are applied even while a clock is active. The declaration of `bounds` validates only the order of start and end, so the rule that a running clock rejects or ignores manual bounds is not modelled.
- Time.TimeContext.SetTimeSystem: with bounds given, two events fire, a time-system event and then a bounds event, as the declaration's `@fires` and the separate `bounds` setter suggest. A single combined notification is not modelled.
- GlobalTime.GlobalTimeContext.SetTimeOfInterest: a time of interest is not unset when manual bounds set on the global context leave it outside; the declaration overrides only the private `tick`, which `GlobalTime.GlobalTimeContext.Tick` models with that unset.
- Telemetry.TelemetryCollection.ProcessNewTelemetry: data after the window's end always go to the future buffer, as `Telemetry.Merge` defers them. Dropping them instead when the context is not in real-time mode is not modelled, because the declaration keeps `futureBuffer` without saying when it is bypassed.
- Telemetry.TelemetryCollection.Load: loading while the context's bounds are still unset is left out; its bounds must be valid.
- TelemListener.FPrimeTelemListener.UpdateState: a `telem` that is neither an array nor missing (a number or a plain object, for which the loop is skipped and `done` is sent) is not represented.
- Telemetry.TelemetryCollection.OnRealtimeDatum: real-time data arriving while a historical request is in flight are processed at once, not queued until the batch is merged.
- IndependentTime.IndependentTimeContext.RefreshContext: the `viewKey` argument is not modelled, since the declaration does not say what it selects; the context always refreshes.
- PyStrings.Replace: requires a non-empty pattern. Both callers pass `"::"` or `".xml"`.
- XML parsing (`ET.parse`) is left out: the dictionary arrives as an element tree.
- DictConverter.StemDropsExtension: proved only for paths whose one occurrence of `.xml` is the extension. `replace` removes every occurrence, so other paths can keep or lose text elsewhere.
- Asynchronous behaviour:
  - Async fetches, promises and the `AbortController` are modelled as sequential events.
  - A superseded request is identified by its position.
  - Open MCT event emitters become lists of fired events.
- TelemetryCollection:
  - paging (`pageState`) and the request options beyond strategy are left out;
  - the metadata lookup, `_warn` and `_error` are left out;
  - `parseTime` reads a numeric field, 0 when it is missing;
  - the placement among data with equal times is left open, as in the declaration.
- Other Open MCT declarations are not part of this model: the object, composition, menu, user and overlay APIs, and the rest.
- The telemetry API appears only through its greedy LAD rule. That rule is a flag passed to the collection's processing.
