# libsoundio core in Dafny

This project models the deterministic layer of libsoundio, a C/C++ library for cross-platform audio
input and output. The modelled layer sits under the glue that calls the native audio APIs:

- the mirrored ring buffer's offset arithmetic (`Ring`);
- channel ids, channel layouts (at most 32 channels), sample formats and the bytes-per-sample, -frame
  and -second arithmetic, plus layout matching and sorting (`Channels`);
- device snapshots (`DevicesInfo`), device reference counting and snapshot destruction (`Devices`);
- the publish/flush protocol that every backend uses to hand a new device snapshot to the user
  thread, through a `ready` and a `safe` slot (`Snapshot`);
- the context: which backends are compiled in, the fallback chain of `soundio_connect`, the guards of
  `soundio_connect_backend` and `soundio_disconnect` (`Context`);
- the dummy backend's stream protocol: begin/end write and read, one tick of the simulated playback
  and capture threads, pause/start, the once-only device-change event and the two dummy devices
  (`Dummy`);
- the per-backend translation tables, string helpers, device listing and default-device rules of
  ALSA (`Alsa`), PulseAudio (`PulseAudio`), CoreAudio (`CoreAudio`) and JACK (`Jack`);
- the small helpers of `util.hpp` (`Util`).

Common types live in `Common`: `Option`, `Result` and the library's `Error` codes.

Some modelling conventions:

- Everything is an immutable datatype with pure functions. The few loops (string comparison, layout
  search, the CoreAudio buffer walk, the JACK port scan) are methods.
- Native calls the model cannot see become parameters. Examples:
  - the mirrored-memory allocation result;
  - a backend's init outcome;
  - a thread-spawn error;
  - `frames_to_kill`;
  - `soundio_channel_layout_detect_builtin` and `soundio_channel_layout_get_default`;
  - the port, hint and HAL object lists.
- Assertions and `panic` calls that the source uses for programmer errors become `requires`. Real
  error returns become `Result`.
- Byte memory is `seq<bv8>`. Native-endian formats are fixed to little endian.
- Where the header `soundio.h` and the `.cpp` files disagree (the header is an older API), the
  `.cpp` enumerations are used. Only the layout record, the frame arithmetic and the documented
  contracts are taken from the header.

## Model

| member | source | states |
|---|---|---|
| Util.Min | src/util.hpp:117-120 | the result is one of the two arguments and at most both |
| Util.Max | src/util.hpp:112-115 | the result is one of the two arguments and at least both |
| Util.Clamp | src/util.hpp:122-125 | in `[lo, hi]` when `lo <= hi`; `v` unchanged inside the range; `lo` below it; `hi` above it; `lo` when the bounds cross |
| Util.StrEql | src/util.hpp:100-104 | true iff the lengths are equal and the first `len` characters match |
| Util.StrDupe | src/util.hpp:91-98 | length `len + 1`, the first `len` characters copied, then one NUL |
| Util.StrDupeRoundTrip | src/util.hpp:91-98 | reading the duplicate back as a C string gives exactly the copied prefix |
| Ring.Init | src/ring_buffer.cpp:77-89 | fails with `NoMem` iff the mirrored allocation fails; otherwise valid, empty, capacity at least the requested size |
| Ring.FillCount | src/ring_buffer.cpp:62-67 | the fill count lies in `[0, capacity]` |
| Ring.FreeCount | src/ring_buffer.cpp:69-71 | fill count plus free count equals the capacity |
| Ring.WriteIndex | src/ring_buffer.cpp:44-46 | the write index lies in `[0, capacity)`, and a write of the free count stays inside the mirrored window |
| Ring.ReadIndex | src/ring_buffer.cpp:53-55 | the read index lies in `[0, capacity)`, and a read of the fill count stays inside the mirrored window |
| Ring.Contents | src/ring_buffer.cpp:44-67 | the readable bytes number exactly the fill count |
| Ring.AdvanceWrite | src/ring_buffer.cpp:48-51 | for a count up to the free count: fill grows by the count, the read offset and memory are unchanged |
| Ring.AdvanceRead | src/ring_buffer.cpp:57-60 | for a count up to the fill count: fill shrinks by the count, the write offset and memory are unchanged |
| Ring.Clear | src/ring_buffer.cpp:73-75 | the buffer becomes empty with all space free, and the read offset is kept |
| Ring.Store | src/ring_buffer.cpp:44-46 | writing at the write pointer moves neither offset |
| Ring.WriteAppends | src/ring_buffer.cpp:44-51 | storing data then advancing the write pointer appends exactly that data to the readable contents |
| Ring.ReadDropsPrefix | src/ring_buffer.cpp:53-60 | advancing the read pointer drops exactly that many bytes from the front of the contents |
| Ring.EmptyRoundTrip | src/ring_buffer.cpp:44-67 | on an empty buffer, a write then a read returns the bytes written |
| Ring.WriteKeepsContents | src/ring_buffer.cpp:48-51 | committing bytes keeps the existing contents in front |
| Ring.CommittedByteReachesReadPointer | src/ring_buffer.cpp:44-67 | a byte committed at logical offset k is the byte under the read pointer once the read offset reaches k (FIFO) |
| Channels.BytesPerSample | src/soundio.cpp:48-73 | 1, 2, 4 or 8 bytes, the smallest that holds the format's bits |
| Channels.BytesPerSampleIsSmallestFit | src/soundio.cpp:48-73 | exactly `bits / 8` except for 24-bit formats, which take 4 bytes; never larger than any power-of-two fit |
| Channels.BytesPerFrame | src/soundio.h:226-228 | at least the channel count, and zero iff there are no channels |
| Channels.BytesPerSecond | src/soundio.h:230-234 | 0 for no channels; otherwise a whole number of frames, divisible by the frame size with quotient the sample rate |
| Channels.InterleavedSlotsDisjoint | src/dummy.cpp:203-218 | in an interleaved buffer, different (frame, channel) samples occupy disjoint byte ranges inside the buffer |
| Channels.LayoutContains | src/soundio.cpp:494-503 | true iff some available layout equals the target |
| Channels.BestMatchingChannelLayout | src/soundio.cpp:505-515 | the first preferred layout that is available, or none iff no preferred layout is available |
| Channels.CompareLayouts | src/soundio.cpp:517-526 | orders layouts by channel count, more channels first |
| Channels.InsertByChannelCount | src/soundio.cpp:528-533 | inserting into a sorted list keeps it sorted and adds exactly the new layout |
| Channels.SortChannelLayouts | src/soundio.cpp:528-533 | a null list stays null; otherwise the result is a permutation sorted by non-increasing channel count |
| Channels.CompareLayoutsAsWritten | src/soundio.cpp:517-526 | the comparator as written reads the layouts' names, fails on a layout without a name, and orders only by what the names point at |
| Channels.CompareAsWrittenIgnoresChannelCount | src/soundio.cpp:517-526 | two layouts with 1 and 2 channels compare equal as written, and a nameless layout cannot be compared |
| Devices.DeviceRef | src/soundio.cpp:311-313 | the device's count goes up by one and no other count changes |
| Devices.DeviceUnref | src/soundio.cpp:296-309 | no-op on null; otherwise the count drops by one and the device is freed exactly when its count reaches zero; no other device is touched |
| Devices.RefThenUnref | src/soundio.cpp:296-313 | a ref followed by an unref restores the counts and frees nothing |
| Devices.UnrefAll | src/soundio.cpp:452-462 | each device's count drops by the number of times it is listed |
| Devices.DestroyDevicesInfo | src/soundio.cpp:452-462 | every device in both lists is unreferenced exactly once per listing; a null snapshot changes nothing |
| Devices.DestroyFreesExactlyUnshared | src/soundio.cpp:452-462 | a device survives destruction iff it held more references than the snapshot's listings |
| Devices.GetInputDevice | src/soundio.cpp:262-270 | returns the listed input device with its count raised by one |
| Devices.GetOutputDevice | src/soundio.cpp:272-280 | returns the listed output device with its count raised by one |
| Devices.AcquiredDeviceOutlivesSnapshot | src/soundio.cpp:262-270 | a device the user fetched survives destruction of the snapshot it came from |
| Snapshot.DestroyOpt | src/soundio.cpp:452-462 | destroying a null snapshot emits nothing |
| Snapshot.Publish | src/alsa.cpp:683-684 | a publish replaces `ready`, leaves `safe`, and never fires the change callback |
| Snapshot.Flush | src/alsa.cpp:795-818 | with a ready snapshot: it moves into `safe`, `ready` clears, one change callback fires, then the old `safe` is destroyed; otherwise nothing happens |
| Snapshot.FlushIdempotent | src/alsa.cpp:795-818 | a second flush with nothing newly published does nothing |
| Snapshot.StepConserves | src/alsa.cpp:795-818 | in one step, every published snapshot is held or destroyed, and a change fires only when a flush swaps |
| Snapshot.RunConserves | src/alsa.cpp:795-818 | over any sequence of publishes and flushes, snapshots held plus published equal those held plus destroyed: none is leaked or destroyed twice |
| Snapshot.RunConservesPointwise | src/alsa.cpp:795-818 | the same conservation, counted per snapshot |
| Snapshot.ChangesOnlyFromFlush | src/soundio.h:192-194 | device-change callbacks fire only from flushes, at most one per flush |
| Snapshot.NewestIsLatestPublished | src/alsa.cpp:682-686 | after any run, the newest snapshot in `ready` or `safe` is the last one published |
| Context.HaveBackend | src/soundio.cpp:464-484 | the dummy backend is always compiled in, and `None` never is |
| Context.AvailableBackends | src/soundio.cpp:25-33 | the fallback list has no duplicates, never holds `None`, and ends with Dummy |
| Context.AvailableMeansCompiledIn | src/soundio.cpp:25-33 | a backend is on the fallback list iff it is compiled in, in the fixed order PulseAudio, ALSA, Dummy |
| Context.Disconnect | src/soundio.cpp:194-225 | the backend becomes `None`, every hook is cleared, the safe snapshot is released, and no error is reported |
| Context.DisconnectIdempotent | src/soundio.cpp:194-225 | disconnecting twice releases nothing the second time |
| Context.ConnectBackend | src/soundio.cpp:152-192 | `Invalid` when already connected or for `None`; `BackendUnavailable` when not compiled in; otherwise the init result, where failure disconnects |
| Context.ConnectBackendKeepsConsistent | src/soundio.cpp:152-192 | every outcome leaves a context whose backend and hooks agree |
| Context.Connect | src/soundio.cpp:137-150 | success comes from the first backend whose init succeeds after only `InitAudioBackend` failures; any other error stops the chain; `InitAudioBackend` iff every backend fails with it; the snapshots of every failed attempt are released, in order |
| Dummy.OpenStream | src/dummy.cpp:147-177 | fails with `NoMem` iff the ring allocation fails; otherwise an empty ring with no pending frames and no thread |
| Dummy.BufferFrameCount | src/dummy.cpp:164-165 | the largest whole number of frames that fits in the ring |
| Dummy.Areas | src/dummy.cpp:209-216 | one area per channel, each starting `ch × bytes_per_sample` past the base with a step of one frame |
| Dummy.BeginWrite | src/dummy.cpp:203-218 | areas at the ring's write pointer; `frames_left` frames, which fit in the free space |
| Dummy.WriteAreasStayInFreeSpace | src/dummy.cpp:203-218 | every sample slot the write areas expose lies inside the ring's free region |
| Dummy.EndWrite | src/dummy.cpp:220-227 | the fill grows by `frames_left` frames, `frames_left` becomes 0, and the read side is unchanged |
| Dummy.CommitAppends | src/dummy.cpp:203-227 | writing a whole begin/end cycle appends exactly the written bytes to the ring |
| Dummy.BeginRead | src/dummy.cpp:307-324 | areas at the ring's read pointer; `frames_left` frames, which are all filled |
| Dummy.EndRead | src/dummy.cpp:325-332 | the fill count drops by `frames_left` frames, and `frames_left` becomes 0 |
| Dummy.EndReadDropsFrames | src/dummy.cpp:307-332 | the frames the read callback was offered are exactly the ones dropped from the front of the ring |
| Dummy.ClearBuffer | src/dummy.cpp:229-233 | the output ring becomes empty with its capacity unchanged |
| Dummy.FillFrames | src/dummy.cpp:36-39 | whole filled frames, never more bytes than the fill count |
| Dummy.FreeFrames | src/dummy.cpp:20-24 | whole free frames, never more bytes than the free count |
| Dummy.PlaybackStart | src/dummy.cpp:20-24 | the first write callback is offered the maximal number of whole free frames |
| Dummy.FramesAreMaximal | src/dummy.cpp:20-24 | `bytes / bpf` whole frames fit in `bytes`, and one more would not |
| Dummy.PlaybackTick | src/dummy.cpp:36-58 | consumes `min(frames_to_kill, fill_frames)` frames; underflow fires iff more frames were due than filled, and then the consumed count resets; the write callback fires, with the free frame count, on underflow or when there is free space |
| Dummy.PlaybackTickDropsPlayed | src/dummy.cpp:36-58 | the frames one playback iteration consumes are the oldest bytes of the ring |
| Dummy.Play | src/dummy.cpp:41-45 | playing whole frames lowers the fill count by their size and never shrinks the free space |
| Dummy.PlayDropsFrames | src/dummy.cpp:41-45 | the frames played are dropped from the front of the ring |
| Dummy.CaptureTick | src/dummy.cpp:82-98 | produces `min(frames_to_kill, free_frames)` frames, resetting the consumed count when more were due; the read callback fires iff there are filled frames |
| Dummy.CaptureTickKeepsContents | src/dummy.cpp:82-98 | the unread contents stay at the front of the ring across a capture iteration |
| Dummy.Record | src/dummy.cpp:82-86 | recording whole frames raises the fill count by their size |
| Dummy.RecordKeepsContents | src/dummy.cpp:82-86 | recording keeps the existing contents in front |
| Dummy.Pause | src/dummy.cpp:178-198 | pause stops any thread; unpause with a running thread changes nothing; otherwise it spawns one or returns the spawn error |
| Dummy.Start | src/dummy.cpp:199-201 | start is unpause; on success the thread runs and the buffer is untouched |
| Dummy.PauseIdempotent | src/dummy.cpp:178-198 | repeating the same pause or start request changes nothing more |
| Dummy.FlushEvents | src/dummy.cpp:112-119 | fires the change callback iff it has not fired before, and records that it has |
| Dummy.FiresExactlyOnce | src/dummy.cpp:112-119 | over any number of flushes the callback fires once, or never if it already had |
| Dummy.AllDeviceFormatsComplete | src/dummy.cpp:334-360 | the dummy devices offer every format except `Invalid`, each exactly once (18 formats) |
| Dummy.DummyDevicesInfo | src/dummy.cpp:372-496 | one output device "dummy-out" and one input device "dummy-in", both defaults at index 0, with every format |
| Alsa.FromChmapPos | src/alsa.cpp:106-147 | Invalid exactly for UNKNOWN (0), NA (1) and values past BRC (36) |
| Alsa.ToChmapPos | src/alsa.cpp:149-188 | UNKNOWN or one of the positions FL (3) to BRC (36); never MONO or NA |
| Alsa.IdRoundTrip | src/alsa.cpp:106-188 | translating an id to a position and back returns it for every id ALSA names and for Invalid; others come back Invalid |
| Alsa.NamedIdRoundTrip | src/alsa.cpp:106-188 | every id with an ALSA position comes back unchanged from a trip to ALSA |
| Alsa.PosRoundTrip | src/alsa.cpp:106-188 | translating any position from FL to BRC to an id and back returns it |
| Alsa.FromChmapPosNamed | src/alsa.cpp:106-188 | every id that comes from ALSA is Invalid or one that ALSA has a position for |
| Alsa.FromChmapPosNotInjective | src/alsa.cpp:106-147 | MONO and FC both give FrontCenter; UNKNOWN, NA and every value past BRC give Invalid |
| Alsa.GetChannelLayout | src/alsa.cpp:190-197 | copies the first `min(32, n)` positions in order, translated, and names the layout by detection |
| Alsa.HandleChannelMaps | src/alsa.cpp:199-227 | no maps gives no layouts; otherwise at most 32 layouts, one per map in order |
| Alsa.PartitionOnChar | src/alsa.cpp:87-96 | cuts at the first `c`: head plus `c` plus remainder is the string; no remainder iff `c` does not occur |
| Alsa.Describe | src/alsa.cpp:487-531 | a one-line description is kept; a two-line one is joined as "first: second" |
| Alsa.AddHint | src/alsa.cpp:464-555 | hidden names add nothing; a hint is listed for playback and/or capture by its IOID and second line; a `default:` name becomes that list's default |
| Alsa.ListHints | src/alsa.cpp:456-560 | every listed device has a visible name and the right direction, and neither list outgrows the hints |
| Alsa.ListHintsDefaults | src/alsa.cpp:543-555 | each default index is the last listed device whose name starts with `default:`, or the initial value if none does |
| Alsa.AddedKeepsLast | src/alsa.cpp:543-555 | adding one device keeps the default equal to the last `default:` match |
| Alsa.RefreshHintsAsWritten | src/alsa.cpp:543-555 | as written, the default is the last `default:` match or else the 0 the zeroed info starts with |
| Alsa.DefaultWithoutDefaultName | src/alsa.cpp:543-555 | as written, an empty list and a list without a `default:` name both report default index 0 |
| Alsa.RefreshHints | src/alsa.cpp:450-573 | corrected: defaults are in range or −1, −1 iff no listed name starts with `default:`, otherwise the last match |
| Alsa.BeginWriteAreas | src/alsa.cpp:1089-1095 | `IncompatibleDevice` iff some channel's first or step is not byte aligned; otherwise ptr = addr + first/8 + (step/8) × offset for every channel |
| PulseAudio.FormatFromPa | src/pulseaudio.cpp:145-166 | every sample format maps to one of the nine supported formats or to Invalid |
| PulseAudio.ToPaFormat | src/pulseaudio.cpp:461-486 | Invalid exactly for formats outside the nine supported ones |
| PulseAudio.FormatRoundTrip | src/pulseaudio.cpp:145-166 | the two format mappings are inverse on the nine supported formats, in both directions |
| PulseAudio.ToPaPosition | src/pulseaudio.cpp:488-529 | INVALID exactly for ids outside the 18 listed ones |
| PulseAudio.PositionInjective | src/pulseaudio.cpp:488-529 | the 18 listed ids map to distinct positions |
| PulseAudio.ToPaChannelMap | src/pulseaudio.cpp:531-542 | keeps the channel count and maps channels positionally |
| PulseAudio.ChannelMapDistinct | src/pulseaudio.cpp:531-542 | a layout of distinct listed ids gives a map of distinct positions |
| PulseAudio.DefaultByName | src/pulseaudio.cpp:247-263 | −1 iff no device has the default name; otherwise the last device with that name |
| PulseAudio.FinishDeviceQuery | src/pulseaudio.cpp:236-271 | nothing happens until the sink list, source list and server info have all arrived; then the snapshot gets its defaults, replaces `ready` (the old one is destroyed) and `current` clears |
| PulseAudio.Answer | src/pulseaudio.cpp:273-360 | each answer sets its own flag; nothing is published while any flag is missing |
| PulseAudio.ScanDevices | src/pulseaudio.cpp:362-393 | clears all three flags, destroys any unfinished snapshot and starts an empty one |
| PulseAudio.AnswerAll | src/pulseaudio.cpp:273-360 | a sequence of answers never touches the scan-queued flag |
| PulseAudio.NothingPublishedUntilAllArrive | src/pulseaudio.cpp:236-245 | while some list or the server info is still missing, answers neither publish nor emit |
| PulseAudio.ScanAnswers | src/pulseaudio.cpp:273-360 | one answer per sink and source plus two list ends and the server info |
| PulseAudio.ScanPublishes | src/pulseaudio.cpp:236-393 | a complete scan publishes exactly the sinks as outputs and the sources as inputs, with defaults chosen by name |
| PulseAudio.Device | src/pulseaudio.cpp:281-300 | a sink or source becomes a device with its names and a current format that is one of the nine shared formats or Invalid, and that translates back to the server's format |
| PulseAudio.ListsArrive | src/pulseaudio.cpp:273-341 | the sink answers, the sources and both list ends build the two device lists in the order the server sent them |
| PulseAudio.ServerInfoPublishes | src/pulseaudio.cpp:236-271 | the server info completes a scan whose lists have arrived: the snapshot is published with defaults chosen by name |
| PulseAudio.AddSinks | src/pulseaudio.cpp:273-306 | adding sinks keeps the snapshot under construction |
| PulseAudio.AddSources | src/pulseaudio.cpp:308-341 | adding sources keeps the snapshot under construction |
| PulseAudio.AnswerAllSinks | src/pulseaudio.cpp:273-306 | the sink answers followed by the list end act as appending all sinks and setting the sink flag |
| PulseAudio.AnswerAllSources | src/pulseaudio.cpp:308-341 | the source answers followed by the list end act as appending all sources and setting the source flag |
| PulseAudio.FlushEvents | src/pulseaudio.cpp:417-448 | rescans only when queued and clears the queue; otherwise a plain swap; at most one change callback |
| PulseAudio.QueuedFlushPublishes | src/pulseaudio.cpp:423-445 | a queued rescan answered in full ends with the scanned snapshot safe, exactly one change callback, and the old safe snapshot destroyed after it |
| PulseAudio.ChangesInFlush | src/pulseaudio.cpp:428-445 | a flush adds at most one change callback to events that had none |
| PulseAudio.NoChangesWhileAnswering | src/pulseaudio.cpp:236-360 | answering queries never fires the change callback |
| CoreAudio.FromChannelDescr | src/coreaudio.cpp:143-216 | Invalid exactly for unlisted labels and discrete numbers outside 0..15 |
| CoreAudio.AuxNumber | src/coreaudio.cpp:196-211 | a number, when there is one, lies in 0..15 and names the channel back |
| CoreAudio.AuxNumbered | src/coreaudio.cpp:196-211 | aux channel n is numbered n, so numbering inverts the channel of a number |
| CoreAudio.AuxChannelInjective | src/coreaudio.cpp:196-211 | distinct numbers give distinct aux channels |
| CoreAudio.DiscreteLabelsAreAux | src/coreaudio.cpp:196-211 | discrete label m gives aux channel n exactly when m = n |
| CoreAudio.NamedLabelsAreNotAux | src/coreaudio.cpp:143-216 | a label with a channel of its own never gives a numbered aux channel |
| CoreAudio.FrontAliases | src/coreaudio.cpp:143-216 | left and right total share the ids of left and right, and mono shares center's |
| CoreAudio.SurroundAliases | src/coreaudio.cpp:143-216 | the rear surround labels share the ids of left and right surround, and center surround direct shares center surround's |
| CoreAudio.TagChannels | src/coreaudio.cpp:228-305 | every listed layout tag has a fixed channel sequence; unlisted tags have none |
| CoreAudio.TagChannelsWellFormed | src/coreaudio.cpp:228-305 | each tag's sequence has the tag's arity, at most 32 valid, distinct channels |
| CoreAudio.Translate | src/coreaudio.cpp:221-226 | descriptions are translated one by one, in order |
| CoreAudio.FromCoreAudioLayoutAsWritten | src/coreaudio.cpp:218-312 | as written: unlisted tags give `IncompatibleDevice`, and descriptions are copied with no cap on the count |
| CoreAudio.DescriptionsOverflowLayout | src/coreaudio.cpp:221-226 | as written, 33 channel descriptions produce a layout with more than 32 channels |
| CoreAudio.FromCoreAudioLayout | src/coreaudio.cpp:218-312 | corrected: unlisted tags give `IncompatibleDevice`; results always fit 32 channels; tags map to their sequences; descriptions are translated positionally and agree with the as-written code up to 32 |
| CoreAudio.AllChannelsInvalid | src/coreaudio.cpp:314-320 | true iff every channel is Invalid, vacuously for none |
| CoreAudio.Reported | src/coreaudio.cpp:524-546 | the translated preferred layout; the channel count of Invalid channels when it does not translate; the empty zeroed layout when there is none |
| CoreAudio.CurrentLayoutAsWritten | src/coreaudio.cpp:524-551 | as written: a layout with a known channel is kept; an all-Invalid one (including none at all) is replaced by the default for the count when there is one; with no preferred layout and no default the layout has no channels |
| CoreAudio.NoPreferredLayoutLosesChannels | src/coreaudio.cpp:542-551 | as written, a 9-channel device without a preferred layout or a default reports 0 channels |
| CoreAudio.CurrentLayout | src/coreaudio.cpp:524-551 | corrected: as written whenever there is a preferred layout or a default; otherwise the channel count of Invalid channels, never fewer |
| CoreAudio.CurrentLayoutKnowsChannels | src/coreaudio.cpp:542-551 | when defaults name their channels, the layout is all Invalid iff there is no default and the reported layout knows no channel |
| CoreAudio.ChannelSumPositive | src/coreaudio.cpp:492-498 | the channel count is positive iff some buffer has channels, and bounds each buffer's channels |
| CoreAudio.Ceil | src/coreaudio.cpp:591-600 | the ceiling of a real |
| CoreAudio.Smallest | src/coreaudio.cpp:591-600 | a member of the list that is at most every element |
| CoreAudio.Largest | src/coreaudio.cpp:591-600 | a member of the list that is at least every element |
| CoreAudio.FoldRatesIsRange | src/coreaudio.cpp:591-600 | for positive ranges the minimum rate is the smallest ceiling of the minimums and the maximum is the largest floor of the maximums; no ranges gives 0, 0 |
| CoreAudio.ZeroMinimumIsForgotten | src/coreaudio.cpp:596-597 | a range whose minimum rounds to 0 is overwritten, because 0 means unset |
| CoreAudio.MakeDevice | src/coreaudio.cpp:492-554 | no device iff the channel count is 0; otherwise the id, name, aim, formats and rates come from the HAL object, and the layout is CurrentLayoutAsWritten as written or the corrected CurrentLayout |
| CoreAudio.AddScopeKeepsShape | src/coreaudio.cpp:417-647 | adding one scope keeps the defaults equal to the last match of the default object id |
| CoreAudio.RefreshDevicesShape | src/coreaudio.cpp:417-647 | over all HAL objects, each default is the last device matching the default object id, or the initial value |
| CoreAudio.RefreshDevicesAsWritten | src/coreaudio.cpp:351-664 | as written: each default is the last match or else the 0 the zeroed info starts with, and every device has the as-written layout |
| CoreAudio.ZeroDefaultWithoutDefaultDevice | src/coreaudio.cpp:632-643 | as written, no devices, or a sole device that is not the system default, still report default index 0 |
| CoreAudio.RefreshDevices | src/coreaudio.cpp:351-664 | corrected: defaults are in range or −1, −1 iff no device has the default object id, otherwise a device with that id; the lists are the as-written lists, except that a device whose as-written layout is empty has a nameless layout of Invalid channels |
| CoreAudio.MakeDeviceCorrects | src/coreaudio.cpp:492-554 | a scope gives a corrected device iff it gives an as-written one, and the two differ at most in an empty as-written layout |
| CoreAudio.AddScopeCorrects | src/coreaudio.cpp:417-647 | adding one scope to both builds keeps the lists in that relation |
| CoreAudio.CorrectedLists | src/coreaudio.cpp:417-647 | over all HAL objects, the corrected lists are the as-written ones with only the empty layouts replaced |
| CoreAudio.RefreshKeepsChannelCount | src/coreaudio.cpp:542-551 | a 9-channel output with no preferred or default layout is listed with 0 channels as written and 9 corrected |
| CoreAudio.SameListsAnyInitial | src/coreaudio.cpp:417-647 | the initial default value does not affect the device lists |
| CoreAudio.FlushCa | src/coreaudio.cpp:682-711 | a pending, unreported shutdown error is reported once, marked emitted, and takes priority over a swap; otherwise a plain swap |
| CoreAudio.DisconnectsOfStep | src/coreaudio.cpp:666-711 | one step emits a disconnect iff it is a flush with an unreported shutdown error |
| CoreAudio.DisconnectAtMostOnce | src/coreaudio.cpp:666-711 | over any run the disconnect callback fires at most once, and never again once emitted |
| CoreAudio.ShutdownReportedByNextFlush | src/coreaudio.cpp:666-711 | after a shutdown, the next flush reports it and a later flush does not |
| CoreAudio.RenderStart | src/coreaudio.cpp:759-771 | each render callback restarts at buffer 0 |
| CoreAudio.BeginWrite | src/coreaudio.cpp:845-866 | while buffers remain: one buffer's frames (its byte size over the frame size) with per-channel areas; after the last: 0 frames and no areas |
| CoreAudio.EndWrite | src/coreaudio.cpp:868-873 | moves on to the next buffer |
| CoreAudio.WriteAllBuffers | src/coreaudio.cpp:759-873 | one begin and end write per buffer of the render call, in order, is offered exactly the frames of all buffers, and the write after the last buffer sees no areas |
| Jack.SplitStr | src/jack.cpp:215-228 | none iff `c` does not occur; otherwise the parts before and after the first `c`, with `len1 + 1 + len2` the input length |
| Jack.SplitStrRoundTrip | src/jack.cpp:215-228 | splitting `a + c + b` with `c` not in `a` gives back `a` and `b` |
| Jack.EqlStr | src/jack.cpp:230-234 | true iff the strings are equal |
| Jack.Parse | src/jack.cpp:288-311 | non-audio ports and names without ':' are skipped; otherwise the client name before ':', output aim iff the port is an input, physical flag kept |
| Jack.FindClient | src/jack.cpp:236-258 | −1 iff no client has the key; otherwise the first one that does |
| Jack.FindOrCreateClient | src/jack.cpp:236-258 | returns the existing client with the key, or appends a new empty one; keys stay unique |
| Jack.ScanStepAsWritten | src/jack.cpp:287-329 | as written, a skipped port leaves the loop state unchanged |
| Jack.SkippedPortStallsScan | src/jack.cpp:293-322 | as written, once a port is skipped the loop makes no progress however long it runs |
| Jack.MidiPortStallsScan | src/jack.cpp:293-328 | as written, a single MIDI port never lets the loop advance |
| Jack.ScanPorts | src/jack.cpp:285-329 | corrected: the loop visits every port once and groups the audio ports into clients faithfully |
| Jack.PortsOfHasPort | src/jack.cpp:285-329 | a key with ports comes from some parsed port |
| Jack.AddUsedPortJoins | src/jack.cpp:312-327 | an audio port joins its client, whose ports are then the first ports seen with that key |
| Jack.AddPortKeepsFaithful | src/jack.cpp:312-327 | adding one port keeps the clients faithful to the ports seen |
| Jack.CollectGroupsPorts | src/jack.cpp:285-329 | each client is a distinct key with its first at most 32 ports in order; every audio port's key has a client; each client has 1 to 32 ports |
| Jack.Describe | src/jack.cpp:342-384 | the description starts with the client name and ": " |
| Jack.JoinLength | src/jack.cpp:342-347 | the joined port names are their lengths plus 2 for each ", " |
| Jack.DescriptionFits | src/jack.cpp:342-384 | the allocated length is the written length plus 3, so the terminator fits |
| Jack.JackLayoutAsWritten | src/jack.cpp:386-392 | as written: the default layout for the port count, or else a layout with 0 channels |
| Jack.NoDefaultLayoutLosesChannels | src/jack.cpp:386-392 | as written, 9 ports with no default layout give 0 channels |
| Jack.JackLayout | src/jack.cpp:386-392 | corrected: the default layout, or else one Invalid channel per port |
| Jack.MakeDevice | src/jack.cpp:331-395 | corrected (JackLayout): one device per client, named by the client, described by Describe, one layout (the default, or one Invalid channel per port), one format Float32NE, one sample rate |
| Jack.OfAim | src/jack.cpp:331-336 | keeps only clients of that aim that have ports |
| Jack.FirstPhysical | src/jack.cpp:397-407 | −1 iff no client is physical; otherwise the first physical one |
| Jack.MakeDevices | src/jack.cpp:331-412 | one device per client, in order |
| Jack.BuildInfoLists | src/jack.cpp:331-412 | each list has one device per client of its aim, and its default is the first physical client's device or −1 |
| Jack.RefreshDevices | src/jack.cpp:269-426 | corrected (the Collect scan of ScanPorts, JackLayout): publishes into `ready` (the old one destroyed, `safe` kept); defaults are valid, and ≥ 0 iff some client of that aim is physical |

## Left out

- Native API calls: ALSA hw/sw params and probing, CoreAudio property queries, PulseAudio mainloop
  and stream calls, JACK client and port calls. Their results are parameters (hint, HAL-object, port
  and answer lists), because their semantics are not visible.
- Threads, condition variables, atomics, poll and pipe wakeups, and `wait_events`/`wakeup` in every
  backend. Only the sequential effect of publish and flush, and one iteration of each dummy thread,
  are modelled.
- Floating-point durations and timing: buffer, period and latency durations, the dummy thread's
  time-to-frames conversion (`frames_to_kill` is an input), and the PulseAudio buffer length.
- Mirrored virtual memory: the ring's storage is a byte sequence of `capacity` bytes, indexed modulo
  the capacity. The allocation result is a parameter.
- Allocation helpers and out-of-memory cleanup paths, apart from `NoMem` at ring-buffer init.
- Diagnostic string tables (`soundio_strerror`, `soundio_format_string`, `soundio_backend_name`).
- `panic("TODO")` stubs in the ALSA, CoreAudio and JACK stream functions.
- The example programs and the tests.
- src/wasapi.hpp: declarations only.
- channel_layout.cpp is not part of this model. `soundio_channel_layout_detect_builtin` and
  `soundio_channel_layout_get_default` are parameters, and layout equality is equality of the
  channel sequences.
- The older API declared in soundio.h (`SoundIoSampleFormat`, `purpose`): the `.cpp` enumerations
  are used instead.
- Integer widths: offsets, counts and sums are unbounded. C `int` overflow of the ring offsets or the
  CoreAudio channel sum is not modelled.
- Dummy.BeginWrite: returns `frames_left` as the source does; the caller's requested frame count
  does not cap it.
- PulseAudio.ScanPublishes: proved for the order sinks, sink-list end, sources, source-list end,
  server info. Other interleavings are covered by NothingPublishedUntilAllArrive and
  FinishDeviceQuery.
- CoreAudio.CurrentLayout: when the preferred layout does not translate (or, corrected, is
  missing) and there is no default layout for the count, the layout keeps the device's channel
  count with Invalid channels. The model does not cap that count at 32, and it does not state what
  the source's fixed 32-entry array holds beyond that.
- Alsa.RefreshHints: the raw-device loop of src/alsa.cpp:575-680 is not modelled. It walks the
  cards with `snd_card_next` and appends `hw:N,M` devices, marked raw, after the hint devices in
  each list whose direction the PCM supports, and it can fail with `SystemResources`,
  `OpeningDevice` or `NoMem`. Those names never start with `default:` and come after every hint
  device, so the default indices the model states are unchanged by them.
- Dummy.Areas: the stream's `bytes_per_sample` (src/dummy.cpp:211, 315) is taken to be
  Channels.BytesPerSample of the stream format. The files modelled set only `bytes_per_frame`
  (src/soundio.cpp:379, 423); where `bytes_per_sample` is assigned is not part of this model.
- CoreAudio: the nominal sample rate is taken as an integer input. A `UseChannelBitmap` tag, which
  the source panics on, is excluded by a `requires`.
- Jack.MakeDevice: builds with the corrected JackLayout, so a client with no default layout for
  its port count has one Invalid channel per port where src/jack.cpp:386-392 leaves 0 channels
  (JackLayoutAsWritten models that). MakeDevices, BuildInfoLists and RefreshDevices use it, and
  RefreshDevices also uses the corrected port scan; the as-written scan does not finish on a
  skipped port (SkippedPortStallsScan), so no as-written JACK refresh is modelled.
- JACK sample-rate and buffer-size callbacks: the sample rate is a parameter of RefreshDevices.
- JACK `flush_events_jack` and ALSA `flush_events` are the shared Snapshot.Flush with no
  backend-specific step.

## Findings

| source | as written | input that shows it | evidently intended | confidence | as-written member | corrected member |
|---|---|---|---|---|---|---|
| src/soundio.cpp:517-526 | `compare_layouts` casts its arguments to layout pointers-to-pointers, so it reads a layout's name field as a layout and compares whatever that points at | two layouts with 1 and 2 channels compare as equal; a layout with a null name is dereferenced | sort by channel count, descending | medium, not executed | Channels.CompareAsWrittenIgnoresChannelCount | Channels.SortChannelLayouts |
| src/alsa.cpp:454, 543-555 | the snapshot is zero-initialised and the default index is set only on a `default:` match | an empty hint list, or one hint `hw:CARD=PCH,DEV=0`, reports default index 0 | −1 when there is no default, as the JACK and PulseAudio backends set it (src/jack.cpp:277-278, src/pulseaudio.cpp:248-249) | high, not executed | Alsa.DefaultWithoutDefaultName | Alsa.RefreshHints |
| src/coreaudio.cpp:221-226 | the number of channel descriptions is copied into `channel_count` and the loop writes that many entries into a 32-slot array | a layout with 33 descriptions | cap at 32 channels (soundio.h:54-59) | high, not executed | CoreAudio.DescriptionsOverflowLayout | CoreAudio.FromCoreAudioLayout |
| src/coreaudio.cpp:360, 632-643 | the snapshot is zero-initialised and the default index is set only when the object id matches | no devices; or a sole output device that is not the system default | −1 when there is no default, as the JACK and PulseAudio backends set it (src/jack.cpp:277-278, src/pulseaudio.cpp:248-249) | high, not executed | CoreAudio.ZeroDefaultWithoutDefaultDevice | CoreAudio.RefreshDevices |
| src/jack.cpp:293-322, 328 | the skip paths `continue` before `port_name_ptr += 1` | one MIDI port `system:midi_capture_1` loops forever | advance past every skipped port | high, not executed | Jack.MidiPortStallsScan | Jack.ScanPorts |
| src/coreaudio.cpp:542-551 | with no preferred layout the layout stays zeroed, and it is replaced only when a default layout exists for the channel count | a 9-channel device without a preferred layout (no built-in 9-channel default) reports 0 channels | the channel count with Invalid channels, as the untranslatable case does | medium, not executed | CoreAudio.NoPreferredLayoutLosesChannels | CoreAudio.CurrentLayout |
| src/jack.cpp:386-392 | with no default layout for the port count, `channel_count` stays 0 from zero-initialisation while the channels are set to Invalid | 9 ports (no built-in 9-channel layout) give a 0-channel layout | one Invalid channel per port | medium, not executed | Jack.NoDefaultLayoutLosesChannels | Jack.JackLayout |
