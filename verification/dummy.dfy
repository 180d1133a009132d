/** The dummy backend: streams backed only by a ring buffer, drained or
    filled by a timer thread at the sample rate.

    The timer thread's clock arithmetic is floating point; the model takes
    the number of frames the clock says are due (`frames_to_kill`) as an
    input to one iteration of the thread's loop. Callbacks into the
    application are returned as events, in order.
 */
module Dummy {
  import opened Common
  import opened Channels
  import opened Devices
  import Ring
  import Util

  /** The state a dummy stream keeps: its ring buffer, its format, the
      frames offered to the application by the last callback (`frames_left`)
      and whether its thread exists. */
  datatype Stream = Stream(
    ring: Ring.RingBuffer,
    format: Format,
    channelCount: int,
    framesLeft: int,
    threadRunning: bool)

  predicate StreamShape(s: Stream)
  {
    && Ring.Valid(s.ring)
    && s.format != FormatInvalid
    && 0 < s.channelCount <= MaxChannels
    && s.framesLeft >= 0
  }

  /** The stream's frame size in bytes (`bytes_per_frame`). */
  function Bpf(s: Stream): (bpf: int)
    requires StreamShape(s)
    ensures bpf >= s.channelCount > 0
  {
    BytesPerFrame(s.format, s.channelCount)
  }

  /** An output stream never offers more frames than fit in the free part
      of its ring. */
  predicate OutValid(s: Stream)
  {
    StreamShape(s) && s.framesLeft * Bpf(s) <= Ring.FreeCount(s.ring)
  }

  /** An input stream never offers more frames than its ring holds. */
  predicate InValid(s: Stream)
  {
    StreamShape(s) && s.framesLeft * Bpf(s) <= Ring.FillCount(s.ring)
  }

  /** `outstream_open_dummy` / `instream_open_dummy` after the durations are
      settled: the ring is sized from the requested byte count; the mapping
      the system grants is a parameter. */
  function OpenStream(format: Format, channelCount: int, requestedBytes: int,
                      mirrored: Option<int>): (r: Result<Stream>)
    requires format != FormatInvalid && 0 < channelCount <= MaxChannels
    requires mirrored.Some? ==> mirrored.value > 0 && mirrored.value >= requestedBytes
    ensures mirrored.None? <==> r == Err(NoMem)
    ensures r.Ok? ==> OutValid(r.value) && InValid(r.value)
    ensures r.Ok? ==> r.value.framesLeft == 0 && !r.value.threadRunning
    ensures r.Ok? ==> Ring.FillCount(r.value.ring) == 0 && r.value.ring.capacity == mirrored.value
  {
    match Ring.Init(requestedBytes, mirrored)
    case Err(e) => Err(e)
    case Ok(rb) => Ok(Stream(rb, format, channelCount, 0, false))
  }

  /** `buffer_frame_count`: whole frames the ring can hold. */
  function BufferFrameCount(s: Stream): (n: int)
    requires StreamShape(s)
    ensures 0 <= n && n * Bpf(s) <= s.ring.capacity < (n + 1) * Bpf(s)
  {
    var bpf := Bpf(s);
    FramesAreMaximal(s.ring.capacity, bpf);
    s.ring.capacity / bpf
  }

  /** The areas `begin_write` and `begin_read` hand out: channel `ch` starts
      `ch * bytes_per_sample` bytes after the pointer, and every channel
      steps by a whole frame. */
  function Areas(base: int, s: Stream): (areas: seq<ChannelArea>)
    requires StreamShape(s)
    ensures |areas| == s.channelCount
    ensures forall ch :: 0 <= ch < |areas| ==>
              areas[ch].ptr == base + SampleOffset(s.format, s.channelCount, 0, ch)
              && areas[ch].step == Bpf(s)
  {
    seq(s.channelCount, ch => ChannelArea(base + BytesPerSample(s.format) * ch, Bpf(s)))
  }

  datatype Begin = Begin(areas: seq<ChannelArea>, frameCount: int)

  /** `outstream_begin_write_dummy`: areas at the write pointer and the
      `frames_left` offered by the last write callback. The requested frame
      count is not consulted. */
  function BeginWrite(s: Stream): (r: Begin)
    requires OutValid(s)
    ensures r.areas == Areas(Ring.WriteIndex(s.ring), s)
    ensures r.frameCount == s.framesLeft
    ensures r.frameCount * Bpf(s) <= Ring.FreeCount(s.ring)
  {
    Begin(Areas(Ring.WriteIndex(s.ring), s), s.framesLeft)
  }

  /** Every sample the application writes through the areas of `begin_write`
      lands in the free part of the ring, counted from the write pointer in
      the doubled mapping: the application never overwrites unread bytes. */
  lemma WriteAreasStayInFreeSpace(s: Stream, frame: int, ch: int)
    requires OutValid(s)
    requires 0 <= frame < BeginWrite(s).frameCount && 0 <= ch < s.channelCount
    ensures var a := BeginWrite(s).areas[ch];
            var rel := a.ptr + frame * a.step - Ring.WriteIndex(s.ring);
            0 <= rel && rel + BytesPerSample(s.format) <= Ring.FreeCount(s.ring)
  {
    var a := BeginWrite(s).areas[ch];
    var bps := BytesPerSample(s.format);
    assert a.ptr + frame * a.step - Ring.WriteIndex(s.ring) == ch * bps + frame * (bps * s.channelCount);
    SlotInside(bps, s.channelCount, s.framesLeft, frame, ch);
  }

  /** `outstream_end_write_dummy`: commits all `frames_left` frames. */
  function EndWrite(s: Stream): (r: Stream)
    requires OutValid(s)
    ensures OutValid(r) && r.framesLeft == 0
    ensures Ring.FillCount(r.ring) == Ring.FillCount(s.ring) + s.framesLeft * Bpf(s)
    ensures r.ring.readOffset == s.ring.readOffset && r.ring.mem == s.ring.mem
    ensures r.threadRunning == s.threadRunning
  {
    s.(ring := Ring.AdvanceWrite(s.ring, s.framesLeft * Bpf(s)), framesLeft := 0)
  }

  /** A write callback's frames, filled and committed, are appended to what
      the stream will play. */
  lemma {:induction false} CommitAppends(s: Stream, data: seq<bv8>)
    requires OutValid(s)
    requires |data| == s.framesLeft * Bpf(s)
    ensures var filled := s.(ring := Ring.Store(s.ring, data));
            OutValid(filled)
            && Ring.Contents(EndWrite(filled).ring) == Ring.Contents(s.ring) + data
  {
    Ring.WriteAppends(s.ring, data);
  }

  /** `instream_begin_read_dummy`: areas at the read pointer. */
  function BeginRead(s: Stream): (r: Begin)
    requires InValid(s)
    ensures r.areas == Areas(Ring.ReadIndex(s.ring), s)
    ensures r.frameCount == s.framesLeft
    ensures r.frameCount * Bpf(s) <= Ring.FillCount(s.ring)
  {
    Begin(Areas(Ring.ReadIndex(s.ring), s), s.framesLeft)
  }

  /** `instream_end_read_dummy`: releases all `frames_left` frames. */
  function EndRead(s: Stream): (r: Stream)
    requires InValid(s)
    ensures InValid(r) && r.framesLeft == 0
    ensures Ring.FillCount(r.ring) == Ring.FillCount(s.ring) - s.framesLeft * Bpf(s)
    ensures r.threadRunning == s.threadRunning
  {
    MulLe(0, s.framesLeft, Bpf(s));
    s.(ring := Ring.AdvanceRead(s.ring, s.framesLeft * Bpf(s)), framesLeft := 0)
  }

  /** The frames a read callback was offered are exactly the ones that
      leave the front of the ring when it ends the read. */
  lemma EndReadDropsFrames(s: Stream)
    requires InValid(s)
    ensures Ring.Contents(EndRead(s).ring) == Ring.Contents(s.ring)[s.framesLeft * Bpf(s)..]
  {
    MulLe(0, s.framesLeft, Bpf(s));
    Ring.ReadDropsPrefix(s.ring, s.framesLeft * Bpf(s));
  }

  /** `outstream_clear_buffer_dummy`: drops everything not yet played. */
  function ClearBuffer(s: Stream): (r: Stream)
    requires OutValid(s)
    ensures OutValid(r)
    ensures Ring.Contents(r.ring) == []
    ensures Ring.FreeCount(r.ring) == r.ring.capacity == s.ring.capacity
    ensures r.framesLeft == s.framesLeft && r.threadRunning == s.threadRunning
  {
    s.(ring := Ring.Clear(s.ring))
  }

  datatype StreamEvent = WriteCallback(frames: int) | ReadCallback(frames: int) | UnderflowCallback

  datatype Tick = Tick(stream: Stream, framesConsumed: int, events: seq<StreamEvent>)

  function FillFrames(s: Stream): (n: int)
    requires StreamShape(s)
    ensures 0 <= n && n * Bpf(s) <= Ring.FillCount(s.ring)
  {
    var bpf := Bpf(s);
    var fill := Ring.FillCount(s.ring);
    FramesAreMaximal(fill, bpf);
    fill / bpf
  }

  function FreeFrames(s: Stream): (n: int)
    requires StreamShape(s)
    ensures 0 <= n && n * Bpf(s) <= Ring.FreeCount(s.ring)
  {
    var bpf := Bpf(s);
    var free := Ring.FreeCount(s.ring);
    FramesAreMaximal(free, bpf);
    free / bpf
  }

  /** The start of `playback_thread_run`: the first write callback is offered
      the whole free space, in frames. */
  function PlaybackStart(s: Stream): (r: Tick)
    requires StreamShape(s)
    ensures OutValid(r.stream)
    ensures r.events == [WriteCallback(r.stream.framesLeft)]
    ensures (r.stream.framesLeft + 1) * Bpf(s) > Ring.FreeCount(s.ring)
    ensures r.framesConsumed == 0 && r.stream.ring == s.ring
  {
    var free := FreeFrames(s);
    FramesAreMaximal(Ring.FreeCount(s.ring), Bpf(s));
    Tick(s.(framesLeft := free), 0, [WriteCallback(free)])
  }

  /** Whole frames: `bytes / bpf` frames fit in `bytes`, and one more
      would not. */
  lemma FramesAreMaximal(bytes: int, bpf: int)
    requires bytes >= 0 && bpf > 0
    ensures 0 <= bytes / bpf
    ensures (bytes / bpf) * bpf <= bytes < (bytes / bpf + 1) * bpf
  {
    assert bytes == (bytes / bpf) * bpf + bytes % bpf;
  }

  /** One iteration of `playback_thread_run` once the wait is over: the
      device consumes up to `framesToKill` whole frames; running out of data
      is an underflow, which resets the consumed-frame count and re-offers the
      free space; otherwise the free space is offered when there is some. */
  function PlaybackTick(s: Stream, framesToKill: nat, framesConsumed: int): (r: Tick)
    requires OutValid(s)
    ensures OutValid(r.stream)
    ensures Ring.FillCount(r.stream.ring) == Ring.FillCount(s.ring) - Util.Min(framesToKill, FillFrames(s)) * Bpf(s)
    ensures (UnderflowCallback in r.events) <==> framesToKill > FillFrames(s)
    ensures framesToKill > FillFrames(s) ==>
              r.framesConsumed == 0 && r.events == [UnderflowCallback, WriteCallback(FreeFrames(s))]
    ensures framesToKill <= FillFrames(s) ==> r.framesConsumed == framesConsumed + framesToKill
    ensures r.events == [] <==> framesToKill <= FillFrames(s) && FreeFrames(s) == 0
    ensures r.events != [] ==>
              r.events[|r.events| - 1] == WriteCallback(FreeFrames(s)) && r.stream.framesLeft == FreeFrames(s)
    ensures r.events == [] ==> r.stream.framesLeft == s.framesLeft
    ensures r.stream.threadRunning == s.threadRunning
  {
    var fillFrames := FillFrames(s);
    var freeFrames := FreeFrames(s);
    var readCount := Util.Min(framesToKill, fillFrames);
    var played := Play(s, readCount);
    var consumed := framesConsumed + readCount;
    if framesToKill > fillFrames then
      Tick(played.(framesLeft := freeFrames), 0, [UnderflowCallback, WriteCallback(freeFrames)])
    else if freeFrames > 0 then
      Tick(played.(framesLeft := freeFrames), consumed, [WriteCallback(freeFrames)])
    else
      Tick(played, consumed, [])
  }

  /** What a playback iteration plays leaves the front of the ring, oldest
      bytes first. */
  lemma PlaybackTickDropsPlayed(s: Stream, framesToKill: nat, framesConsumed: int)
    requires OutValid(s)
    ensures var played := Util.Min(framesToKill, FillFrames(s)) * Bpf(s);
            Ring.Contents(PlaybackTick(s, framesToKill, framesConsumed).stream.ring)
              == Ring.Contents(s.ring)[played..]
  {
    PlayDropsFrames(s, Util.Min(framesToKill, FillFrames(s)));
  }

  /** The device plays `frames` whole frames: the fill count drops by their
      size, and the free space only grows. */
  function Play(s: Stream, frames: int): (r: Stream)
    requires OutValid(s) && 0 <= frames <= FillFrames(s)
    ensures OutValid(r) && r == s.(ring := r.ring)
    ensures Ring.FillCount(r.ring) == Ring.FillCount(s.ring) - frames * Bpf(s)
    ensures Ring.FreeCount(r.ring) >= Ring.FreeCount(s.ring)
  {
    var bpf := Bpf(s);
    MulLe(0, frames, bpf);
    MulLe(frames, FillFrames(s), bpf);
    s.(ring := Ring.AdvanceRead(s.ring, frames * bpf))
  }

  /** The frames played are the oldest ones in the ring. */
  lemma PlayDropsFrames(s: Stream, frames: int)
    requires OutValid(s) && 0 <= frames <= FillFrames(s)
    ensures Ring.Contents(Play(s, frames).ring) == Ring.Contents(s.ring)[frames * Bpf(s)..]
  {
    MulLe(0, frames, Bpf(s));
    MulLe(frames, FillFrames(s), Bpf(s));
    Ring.ReadDropsPrefix(s.ring, frames * Bpf(s));
  }

  /** One iteration of `capture_thread_run`: the device produces up to
      `framesToKill` frames into the free space (running out of room resets
      the consumed count, with no callback yet); the read callback is offered
      the frames that were already there, if any. */
  function CaptureTick(s: Stream, framesToKill: nat, framesConsumed: int): (r: Tick)
    requires InValid(s)
    ensures InValid(r.stream)
    ensures Ring.FillCount(r.stream.ring) == Ring.FillCount(s.ring) + Util.Min(framesToKill, FreeFrames(s)) * Bpf(s)
    ensures framesToKill > FreeFrames(s) ==> r.framesConsumed == 0
    ensures framesToKill <= FreeFrames(s) ==> r.framesConsumed == framesConsumed + framesToKill
    ensures FillFrames(s) > 0 <==> r.events == [ReadCallback(FillFrames(s))]
    ensures FillFrames(s) > 0 ==> r.stream.framesLeft == FillFrames(s)
    ensures FillFrames(s) == 0 ==> r.events == [] && r.stream.framesLeft == s.framesLeft
    ensures r.stream.threadRunning == s.threadRunning
  {
    var fillFrames := FillFrames(s);
    var freeFrames := FreeFrames(s);
    var writeCount := Util.Min(framesToKill, freeFrames);
    var recorded := Record(s, writeCount);
    var consumed := if framesToKill > freeFrames then 0 else framesConsumed + writeCount;
    var framesLeft := if fillFrames > 0 then fillFrames else s.framesLeft;
    var events := if fillFrames > 0 then [ReadCallback(fillFrames)] else [];
    Tick(recorded.(framesLeft := framesLeft), consumed, events)
  }

  /** What the application has not read yet stays at the front of the ring
      across a capture iteration. */
  lemma CaptureTickKeepsContents(s: Stream, framesToKill: nat, framesConsumed: int)
    requires InValid(s)
    ensures var r := CaptureTick(s, framesToKill, framesConsumed);
            Ring.Contents(r.stream.ring)[..Ring.FillCount(s.ring)] == Ring.Contents(s.ring)
  {
    RecordKeepsContents(s, Util.Min(framesToKill, FreeFrames(s)));
  }

  /** The device records `frames` whole frames into the free space: the
      fill count grows by their size. */
  function Record(s: Stream, frames: int): (r: Stream)
    requires InValid(s) && 0 <= frames <= FreeFrames(s)
    ensures InValid(r) && r == s.(ring := r.ring)
    ensures Ring.FillCount(r.ring) == Ring.FillCount(s.ring) + frames * Bpf(s)
    ensures Ring.FillCount(r.ring) >= Ring.FillCount(s.ring)
  {
    var bpf := Bpf(s);
    MulLe(0, frames, bpf);
    MulLe(frames, FreeFrames(s), bpf);
    s.(ring := Ring.AdvanceWrite(s.ring, frames * bpf))
  }

  /** Recording appends: the contents already there stay in front. */
  lemma RecordKeepsContents(s: Stream, frames: int)
    requires InValid(s) && 0 <= frames <= FreeFrames(s)
    ensures Ring.Contents(Record(s, frames).ring)[..Ring.FillCount(s.ring)] == Ring.Contents(s.ring)
  {
    MulLe(0, frames, Bpf(s));
    MulLe(frames, FreeFrames(s), Bpf(s));
    Ring.WriteKeepsContents(s.ring, frames * Bpf(s));
  }

  /** `outstream_pause_dummy` / `instream_pause_dummy`. Pausing stops the
      thread if there is one; resuming creates one only if there is none,
      and `spawn` is what creating the thread would return. */
  function Pause(s: Stream, pause: bool, spawn: Error): (r: Result<Stream>)
    ensures pause ==> r == Ok(s.(threadRunning := false))
    ensures !pause && s.threadRunning ==> r == Ok(s)
    ensures !pause && !s.threadRunning && spawn != NoError ==> r == Err(spawn)
    ensures !pause && !s.threadRunning && spawn == NoError ==> r == Ok(s.(threadRunning := true))
  {
    if pause then Ok(s.(threadRunning := false))
    else if s.threadRunning then Ok(s)
    else if spawn != NoError then Err(spawn)
    else Ok(s.(threadRunning := true))
  }

  /** `outstream_start_dummy` / `instream_start_dummy`. */
  function Start(s: Stream, spawn: Error): (r: Result<Stream>)
    ensures r == Pause(s, false, spawn)
    ensures r.Ok? ==> r.value.threadRunning && r.value.ring == s.ring && r.value.framesLeft == s.framesLeft
  {
    Pause(s, false, spawn)
  }

  /** Pausing and starting are idempotent: repeating a successful call
      changes nothing and cannot fail, whatever thread creation would do. */
  lemma PauseIdempotent(s: Stream, pause: bool, spawn: Error, spawnAgain: Error)
    requires Pause(s, pause, spawn).Ok?
    ensures Pause(Pause(s, pause, spawn).value, pause, spawnAgain) == Pause(s, pause, spawn)
  {
  }

  /** `flush_events` of the dummy backend: the devices-change callback fires
      on the first call only. Returns the new `devices_emitted` flag and
      whether the callback fired. */
  datatype Emit = Emit(emitted: bool, fired: bool)

  function FlushEvents(emitted: bool): (r: Emit)
    ensures r.emitted
    ensures r.fired <==> !emitted
  {
    if emitted then Emit(true, false) else Emit(true, true)
  }

  /** How many times the callback fires over `n` consecutive flushes. */
  function FiredOver(emitted: bool, n: nat): (count: nat)
    decreases n
  {
    if n == 0 then 0
    else
      var e := FlushEvents(emitted);
      (if e.fired then 1 else 0) + FiredOver(e.emitted, n - 1)
  }

  /** Over any number of flushes on a fresh context the devices-change
      callback fires exactly once (when there is at least one flush), and
      never once it has fired. */
  lemma {:induction false} FiresExactlyOnce(emitted: bool, n: nat)
    ensures FiredOver(emitted, n) == (if n > 0 && !emitted then 1 else 0)
    decreases n
  {
    if n > 0 {
      FiresExactlyOnce(true, n - 1);
    }
  }

  /** `set_all_device_formats`: the 18 formats the dummy devices offer. */
  const AllDeviceFormats: seq<Format> := [
    Float32NE, Float32FE, S32NE, S32FE, U32NE, U32FE,
    S24NE, S24FE, U24NE, U24FE, Float64NE, Float64FE,
    S16NE, S16FE, U16NE, U16FE, S8, U8]

  /** The dummy devices offer every valid format, each exactly once. */
  lemma AllDeviceFormatsComplete(f: Format)
    ensures f in AllDeviceFormats <==> f != FormatInvalid
    ensures |AllDeviceFormats| == 18
    ensures forall i, j :: 0 <= i < j < |AllDeviceFormats| ==> AllDeviceFormats[i] != AllDeviceFormats[j]
  {
  }

  /** One dummy device, as `soundio_dummy_init` fills it in; the layouts are
      all built-in layouts, which the model takes as a parameter. */
  function DummyDevice(id: string, name: string, aim: DeviceAim, builtins: seq<ChannelLayout>): Device
  {
    Device(id, name, aim, false, builtins, ChannelLayout(None, []), AllDeviceFormats, FormatInvalid,
           2, 5644800, 48000)
  }

  /** The snapshot `soundio_dummy_init` installs: one output and one input
      device, each the default of its list. */
  function DummyDevicesInfo(builtins: seq<ChannelLayout>): (info: DevicesInfo<Device>)
    ensures |info.outputs| == 1 && |info.inputs| == 1
    ensures DefaultsOk(info) && info.defaultInput == 0 && info.defaultOutput == 0
    ensures info.outputs[0].aim == AimOutput && info.inputs[0].aim == AimInput
    ensures info.outputs[0].id == "dummy-out" && info.inputs[0].id == "dummy-in"
    ensures forall d :: d in info.inputs + info.outputs ==>
              d.sampleRateMin <= d.sampleRateCurrent <= d.sampleRateMax
              && (forall f :: f in d.formats <==> f != FormatInvalid)
  {
    var info := DevicesInfo(
      [DummyDevice("dummy-in", "Dummy Input Device", AimInput, builtins)],
      [DummyDevice("dummy-out", "Dummy Output Device", AimOutput, builtins)],
      0, 0);
    assert forall f :: f in AllDeviceFormats <==> f != FormatInvalid by {
      forall f
        ensures f in AllDeviceFormats <==> f != FormatInvalid
      {
        AllDeviceFormatsComplete(f);
      }
    }
    info
  }
}
