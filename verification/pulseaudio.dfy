/** The PulseAudio backend's pure logic: sample-format and channel-position
    translation, and the device scanner that builds a snapshot from the
    server's answers and publishes it once all of them have arrived.

    The server's answers arrive through callbacks on the PulseAudio main
    loop; the model takes them as a sequence of query events, applied one
    at a time.
 */
module PulseAudio {
  import opened Common
  import opened Channels
  import opened Devices
  import Snapshot

  /** `pa_sample_format_t`. */
  datatype SampleFormat =
    | SampleU8 | SampleALaw | SampleULaw
    | SampleS16LE | SampleS16BE | SampleFloat32LE | SampleFloat32BE
    | SampleS32LE | SampleS32BE | SampleS24LE | SampleS24BE
    | SampleS24in32LE | SampleS24in32BE
    | SampleMax | SampleInvalid

  /** The formats both libraries share. */
  predicate PaFormat(f: Format)
  {
    match f
    case U8 | S16LE | S16BE | S24LE | S24BE | S32LE | S32BE | Float32LE | Float32BE => true
    case _ => false
  }

  /** `format_from_pulseaudio`: packed 24-bit, A-law and mu-law samples have
      no counterpart; 24-bit samples in 32-bit words are the 24-bit formats. */
  function FormatFromPa(f: SampleFormat): (r: Format)
    ensures r == FormatInvalid || PaFormat(r)
  {
    match f
    case SampleU8 => U8
    case SampleS16LE => S16LE
    case SampleS16BE => S16BE
    case SampleFloat32LE => Float32LE
    case SampleFloat32BE => Float32BE
    case SampleS32LE => S32LE
    case SampleS32BE => S32BE
    case SampleS24in32LE => S24LE
    case SampleS24in32BE => S24BE
    case _ => FormatInvalid
  }

  /** `to_pulseaudio_format`. */
  function ToPaFormat(f: Format): (r: SampleFormat)
    ensures r == SampleInvalid <==> !PaFormat(f)
  {
    match f
    case U8 => SampleU8
    case S16LE => SampleS16LE
    case S16BE => SampleS16BE
    case S24LE => SampleS24in32LE
    case S24BE => SampleS24in32BE
    case S32LE => SampleS32LE
    case S32BE => SampleS32BE
    case Float32LE => SampleFloat32LE
    case Float32BE => SampleFloat32BE
    case _ => SampleInvalid
  }

  /** The nine shared formats survive a trip to PulseAudio and back, and a
      PulseAudio format with a counterpart survives the opposite trip. */
  lemma FormatRoundTrip(f: Format, p: SampleFormat)
    ensures PaFormat(f) ==> FormatFromPa(ToPaFormat(f)) == f
    ensures !PaFormat(f) ==> ToPaFormat(f) == SampleInvalid
    ensures FormatFromPa(p) != FormatInvalid ==> ToPaFormat(FormatFromPa(p)) == p
  {
  }

  /** `pa_channel_position_t`: the positions the translation produces. */
  datatype Position =
    | PosInvalid
    | PosFrontLeft | PosFrontRight | PosFrontCenter | PosLfe
    | PosRearLeft | PosRearRight | PosRearCenter
    | PosFrontLeftOfCenter | PosFrontRightOfCenter
    | PosSideLeft | PosSideRight
    | PosTopCenter | PosTopFrontLeft | PosTopFrontCenter | PosTopFrontRight
    | PosTopRearLeft | PosTopRearCenter | PosTopRearRight

  /** The 18 channel ids PulseAudio has a position for. */
  predicate PaChannel(id: ChannelId)
  {
    match id
    case FrontLeft | FrontRight | FrontCenter | Lfe | BackLeft | BackRight
       | FrontLeftCenter | FrontRightCenter | BackCenter | SideLeft | SideRight
       | TopCenter | TopFrontLeft | TopFrontCenter | TopFrontRight
       | TopBackLeft | TopBackCenter | TopBackRight => true
    case _ => false
  }

  /** `to_pulseaudio_channel_pos`. */
  function ToPaPosition(id: ChannelId): (p: Position)
    ensures p == PosInvalid <==> !PaChannel(id)
  {
    match id
    case FrontLeft => PosFrontLeft
    case FrontRight => PosFrontRight
    case FrontCenter => PosFrontCenter
    case Lfe => PosLfe
    case BackLeft => PosRearLeft
    case BackRight => PosRearRight
    case FrontLeftCenter => PosFrontLeftOfCenter
    case FrontRightCenter => PosFrontRightOfCenter
    case BackCenter => PosRearCenter
    case SideLeft => PosSideLeft
    case SideRight => PosSideRight
    case TopCenter => PosTopCenter
    case TopFrontLeft => PosTopFrontLeft
    case TopFrontCenter => PosTopFrontCenter
    case TopFrontRight => PosTopFrontRight
    case TopBackLeft => PosTopRearLeft
    case TopBackCenter => PosTopRearCenter
    case TopBackRight => PosTopRearRight
    case _ => PosInvalid
  }

  /** Distinct ids PulseAudio knows get distinct positions. */
  lemma PositionInjective(a: ChannelId, b: ChannelId)
    requires PaChannel(a) && PaChannel(b)
    ensures ToPaPosition(a) == ToPaPosition(b) <==> a == b
  {
  }

  /** `PA_CHANNELS_MAX`. */
  const PaChannelsMax: int := 32

  datatype ChannelMap = ChannelMap(channels: int, positions: seq<Position>)

  /** `to_pulseaudio_channel_map`: the source panics on a layout with more
      channels than PulseAudio supports. */
  function ToPaChannelMap(layout: ChannelLayout): (m: ChannelMap)
    requires |layout.channels| <= PaChannelsMax
    ensures m.channels == |layout.channels| == |m.positions|
    ensures forall i :: 0 <= i < |m.positions| ==> m.positions[i] == ToPaPosition(layout.channels[i])
  {
    ChannelMap(|layout.channels|, seq(|layout.channels|, i requires 0 <= i < |layout.channels| =>
      ToPaPosition(layout.channels[i])))
  }

  /** A layout of distinct channels PulseAudio knows becomes a map of
      distinct, valid positions. */
  lemma ChannelMapDistinct(layout: ChannelLayout)
    requires |layout.channels| <= PaChannelsMax
    requires forall i :: 0 <= i < |layout.channels| ==> PaChannel(layout.channels[i])
    requires forall i, j :: 0 <= i < j < |layout.channels| ==> layout.channels[i] != layout.channels[j]
    ensures var m := ToPaChannelMap(layout).positions;
            forall i, j :: 0 <= i < |m| && 0 <= j < |m| && i != j ==> m[i] != m[j] && m[i] != PosInvalid
  {
    var m := ToPaChannelMap(layout).positions;
    forall i, j | 0 <= i < |m| && 0 <= j < |m| && i != j
      ensures m[i] != m[j]
    {
      PositionInjective(layout.channels[i], layout.channels[j]);
    }
  }

  /** A device as the sink and source callbacks create it; supported
      formats, layouts and rates are not filled in by this backend. */
  datatype PaDevice = PaDevice(name: string, description: string, aim: DeviceAim, currentFormat: Format)

  /** The part of a `pa_sink_info` or `pa_source_info` the callbacks read:
      the name, the description and the format of the sample spec. */
  datatype PaInfo = PaInfo(name: string, description: string, sampleFormat: SampleFormat)

  /** The device a sink or source callback creates from the server's info:
      the names are copied and the current format is translated, so it is
      always one of the shared formats or Invalid. */
  function Device(info: PaInfo, aim: DeviceAim): (d: PaDevice)
    ensures d.name == info.name && d.description == info.description && d.aim == aim
    ensures d.currentFormat == FormatInvalid || PaFormat(d.currentFormat)
    ensures PaFormat(d.currentFormat) ==> ToPaFormat(d.currentFormat) == info.sampleFormat
  {
    FormatRoundTrip(FormatInvalid, info.sampleFormat);
    PaDevice(info.name, info.description, aim, FormatFromPa(info.sampleFormat))
  }

  type Info = DevicesInfo<PaDevice>

  /** The scanner's state: the snapshot under construction, the default
      names from the server, the ready/safe slots, the three completion
      flags, whether a first snapshot was published, and whether a rescan
      is queued. */
  datatype Scanner = Scanner(
    current: Option<Info>,
    defaultSinkName: Option<string>,
    defaultSourceName: Option<string>,
    slots: Snapshot.Slots<Info>,
    haveSinkList: bool,
    haveSourceList: bool,
    haveDefaultSink: bool,
    haveDevices: bool,
    scanQueued: bool)

  predicate AllArrived(s: Scanner)
  {
    s.haveSinkList && s.haveSourceList && s.haveDefaultSink
  }

  /** The last index of a device with the given name, or -1. */
  function DefaultByName(devices: seq<PaDevice>, name: string): (r: int)
    ensures -1 <= r < |devices|
    ensures r == -1 <==> forall i :: 0 <= i < |devices| ==> devices[i].name != name
    ensures r >= 0 ==> devices[r].name == name && forall j :: r < j < |devices| ==> devices[j].name != name
    decreases |devices|
  {
    if |devices| == 0 then -1
    else if devices[|devices| - 1].name == name then |devices| - 1
    else DefaultByName(devices[..|devices| - 1], name)
  }

  datatype Effect = Effect(scanner: Scanner, events: seq<Snapshot.Event<Info>>)

  /** `finish_device_query`: nothing until the sink list, the source list and
      the server info have all arrived; then the default indices are set by
      name, the snapshot replaces the ready one (which is destroyed), and
      the first-snapshot flag is set. */
  function FinishDeviceQuery(s: Scanner): (r: Effect)
    requires AllArrived(s) ==> s.current.Some? && s.defaultSinkName.Some? && s.defaultSourceName.Some?
    ensures !AllArrived(s) ==> r == Effect(s, [])
    ensures AllArrived(s) ==>
              var c := s.current.value;
              var published := c.(defaultInput := DefaultByName(c.inputs, s.defaultSourceName.value),
                                  defaultOutput := DefaultByName(c.outputs, s.defaultSinkName.value));
              && r.scanner.slots == Snapshot.Slots(Some(published), s.slots.safe)
              && r.events == Snapshot.DestroyOpt(s.slots.ready)
              && r.scanner.current.None? && r.scanner.haveDevices
              && DefaultsOk(published)
  {
    if !AllArrived(s) then Effect(s, [])
    else
      var c := s.current.value;
      var published := c.(defaultInput := DefaultByName(c.inputs, s.defaultSourceName.value),
                          defaultOutput := DefaultByName(c.outputs, s.defaultSinkName.value));
      var step := Snapshot.Publish(s.slots, published);
      Effect(s.(current := None, slots := step.slots, haveDevices := true), step.events)
  }

  /** What the server answers to the three queries of a scan. */
  datatype Query =
    | SinkInfo(sink: PaInfo)
    | SinkListEnd
    | SourceInfo(source: PaInfo)
    | SourceListEnd
    | ServerInfo(sinkName: string, sourceName: string)

  predicate Completes(q: Query)
  {
    q.SinkListEnd? || q.SourceListEnd? || q.ServerInfo?
  }

  /** The scanner's callbacks. They all work on the snapshot under
      construction, which exists only while a scan runs. */
  function Answer(s: Scanner, q: Query): (r: Effect)
    requires s.current.Some? && !AllArrived(s)
    requires s.haveDefaultSink ==> s.defaultSinkName.Some? && s.defaultSourceName.Some?
    ensures !Completes(q) ==> r.events == [] && r.scanner.slots == s.slots
    ensures r.scanner.haveSinkList == (s.haveSinkList || q.SinkListEnd?)
    ensures r.scanner.haveSourceList == (s.haveSourceList || q.SourceListEnd?)
    ensures r.scanner.haveDefaultSink == (s.haveDefaultSink || q.ServerInfo?)
    ensures r.scanner.current.Some? <==> !AllArrived(r.scanner)
    ensures r.scanner.current.Some? ==> r.events == [] && r.scanner.slots == s.slots
                                        && r.scanner.haveDevices == s.haveDevices
    ensures r.scanner.haveDefaultSink ==> r.scanner.defaultSinkName.Some? && r.scanner.defaultSourceName.Some?
    ensures r.scanner.scanQueued == s.scanQueued
  {
    match q
    case SinkInfo(d) =>
      var c := s.current.value;
      Effect(s.(current := Some(c.(outputs := c.outputs + [Device(d, AimOutput)]))), [])
    case SourceInfo(d) =>
      var c := s.current.value;
      Effect(s.(current := Some(c.(inputs := c.inputs + [Device(d, AimInput)]))), [])
    case SinkListEnd => FinishDeviceQuery(s.(haveSinkList := true))
    case SourceListEnd => FinishDeviceQuery(s.(haveSourceList := true))
    case ServerInfo(sink, source) =>
      FinishDeviceQuery(s.(defaultSinkName := Some(sink), defaultSourceName := Some(source), haveDefaultSink := true))
  }

  /** `scan_devices`: the three flags are cleared and a fresh, empty snapshot
      replaces the one under construction, which is destroyed. */
  function ScanDevices(s: Scanner): (r: Effect)
    ensures !r.scanner.haveSinkList && !r.scanner.haveSourceList && !r.scanner.haveDefaultSink
    ensures r.scanner.current == Some(DevicesInfo([], [], 0, 0))
    ensures r.events == Snapshot.DestroyOpt(s.current)
    ensures r.scanner.slots == s.slots && r.scanner.haveDevices == s.haveDevices
  {
    Effect(s.(haveSinkList := false, haveSourceList := false, haveDefaultSink := false,
              current := Some(DevicesInfo([], [], 0, 0))),
           Snapshot.DestroyOpt(s.current))
  }

  /** Applies the server's answers in order, stopping when the snapshot has
      been published. */
  function AnswerAll(s: Scanner, qs: seq<Query>): (r: Effect)
    requires s.current.Some? && !AllArrived(s)
    requires s.haveDefaultSink ==> s.defaultSinkName.Some? && s.defaultSourceName.Some?
    ensures r.scanner.scanQueued == s.scanQueued
    decreases |qs|
  {
    if |qs| == 0 then Effect(s, [])
    else
      var first := Answer(s, qs[0]);
      if first.scanner.current.None? then first
      else
        var rest := AnswerAll(first.scanner, qs[1..]);
        Effect(rest.scanner, first.events + rest.events)
  }

  /** Whatever the server answers, the ready slot is untouched and nothing is
      destroyed until the sink list, the source list and the server info
      have all arrived. */
  lemma {:induction false} NothingPublishedUntilAllArrive(s: Scanner, qs: seq<Query>)
    requires s.current.Some? && !AllArrived(s)
    requires s.haveDefaultSink ==> s.defaultSinkName.Some? && s.defaultSourceName.Some?
    requires !s.haveSinkList && forall i :: 0 <= i < |qs| ==> !qs[i].SinkListEnd?
    ensures AnswerAll(s, qs).scanner.slots == s.slots
    ensures AnswerAll(s, qs).events == []
    ensures AnswerAll(s, qs).scanner.current.Some?
    decreases |qs|
  {
    if |qs| > 0 {
      var first := Answer(s, qs[0]);
      NothingPublishedUntilAllArrive(first.scanner, qs[1..]);
    }
  }

  /** The answers to a scan in the order the scan asks for them: every sink,
      the end of the sink list, every source, the end of the source list,
      then the server info with the default names. */
  function ScanAnswers(sinks: seq<PaInfo>, sources: seq<PaInfo>, sinkName: string, sourceName: string)
    : (qs: seq<Query>)
    ensures |qs| == |sinks| + |sources| + 3
  {
    seq(|sinks|, i requires 0 <= i < |sinks| => SinkInfo(sinks[i])) + [SinkListEnd]
    + seq(|sources|, i requires 0 <= i < |sources| => SourceInfo(sources[i])) + [SourceListEnd]
    + [ServerInfo(sinkName, sourceName)]
  }

  /** The state right after a scan's reset. */
  predicate Fresh(s: Scanner)
  {
    s.current.Some? && !s.haveSinkList && !s.haveSourceList && !s.haveDefaultSink
  }

  /** A complete scan publishes exactly the sinks as outputs and the sources
      as inputs, in the order the server listed them, with the defaults
      chosen by name, and destroys only the snapshot that was ready. */
  lemma ScanPublishes(s: Scanner, sinks: seq<PaInfo>, sources: seq<PaInfo>,
                      sinkName: string, sourceName: string)
    requires Fresh(s) && s.current == Some(DevicesInfo([], [], 0, 0))
    ensures var r := AnswerAll(s, ScanAnswers(sinks, sources, sinkName, sourceName));
            var outs := Outputs(sinks);
            var ins := Inputs(sources);
            && r.scanner.slots.ready == Some(DevicesInfo(ins, outs, DefaultByName(ins, sourceName), DefaultByName(outs, sinkName)))
            && r.scanner.slots.safe == s.slots.safe
            && r.events == Snapshot.DestroyOpt(s.slots.ready)
            && r.scanner.haveDevices && r.scanner.current.None?
  {
    ListsArrive(s, sinks, sources, sinkName, sourceName);
    ServerInfoPublishes(Listed(s, sinks, sources), sinkName, sourceName);
  }

  /** The outputs a scan's sink answers create, in the server's order. */
  function Outputs(sinks: seq<PaInfo>): (d: seq<PaDevice>)
    ensures |d| == |sinks|
  {
    seq(|sinks|, i requires 0 <= i < |sinks| => Device(sinks[i], AimOutput))
  }

  /** The inputs a scan's source answers create, in the server's order. */
  function Inputs(sources: seq<PaInfo>): (d: seq<PaDevice>)
    ensures |d| == |sources|
  {
    seq(|sources|, i requires 0 <= i < |sources| => Device(sources[i], AimInput))
  }

  /** The scanner once both device lists have arrived. */
  function Listed(s: Scanner, sinks: seq<PaInfo>, sources: seq<PaInfo>): (r: Scanner)
    requires s.current.Some?
    ensures r.current.Some? && r.haveSinkList && r.haveSourceList
  {
    AddSources(AddSinks(s, sinks, |sinks|).(haveSinkList := true), sources, |sources|).(haveSourceList := true)
  }

  /** The sink and source answers of a scan, with the ends of both lists,
      build the two device lists in the order the server sent them. */
  lemma ListsArrive(s: Scanner, sinks: seq<PaInfo>, sources: seq<PaInfo>,
                    sinkName: string, sourceName: string)
    requires Fresh(s) && s.current == Some(DevicesInfo([], [], 0, 0))
    ensures AnswerAll(s, ScanAnswers(sinks, sources, sinkName, sourceName))
              == AnswerAll(Listed(s, sinks, sources), [ServerInfo(sinkName, sourceName)])
    ensures var outs := Outputs(sinks);
            var ins := Inputs(sources);
            && Listed(s, sinks, sources).current.value == DevicesInfo(ins, outs, 0, 0)
            && !Listed(s, sinks, sources).haveDefaultSink
            && Listed(s, sinks, sources).slots == s.slots
  {
    var sinkQs := seq(|sinks|, i requires 0 <= i < |sinks| => SinkInfo(sinks[i]));
    var sourceQs := seq(|sources|, i requires 0 <= i < |sources| => SourceInfo(sources[i]));
    var last := [ServerInfo(sinkName, sourceName)];
    var rest1 := sourceQs + [SourceListEnd] + last;
    assert ScanAnswers(sinks, sources, sinkName, sourceName) == sinkQs + ([SinkListEnd] + rest1);
    AnswerAllSinks(s, sinks, sinkQs, [SinkListEnd] + rest1);
    assert ([SinkListEnd] + rest1)[1..] == rest1;
    var s1 := AddSinks(s, sinks, |sinks|).(haveSinkList := true);
    assert rest1 == sourceQs + ([SourceListEnd] + last);
    AnswerAllSources(s1, sources, sourceQs, [SourceListEnd] + last);
    assert ([SourceListEnd] + last)[1..] == last;
    var outs := Outputs(sinks);
    var ins := Inputs(sources);
    assert [] + outs == outs && [] + ins == ins;
  }

  /** The server info completes a scan whose lists have arrived: the
      snapshot is published with its defaults chosen by name. */
  lemma ServerInfoPublishes(s: Scanner, sinkName: string, sourceName: string)
    requires s.current.Some? && s.haveSinkList && s.haveSourceList && !s.haveDefaultSink
    ensures var r := AnswerAll(s, [ServerInfo(sinkName, sourceName)]);
            var c := s.current.value;
            && r.scanner.slots.ready == Some(c.(defaultInput := DefaultByName(c.inputs, sourceName),
                                                defaultOutput := DefaultByName(c.outputs, sinkName)))
            && r.scanner.slots.safe == s.slots.safe
            && r.events == Snapshot.DestroyOpt(s.slots.ready)
            && r.scanner.haveDevices && r.scanner.current.None?
  {
    var last := [ServerInfo(sinkName, sourceName)];
    assert last[0] == ServerInfo(sinkName, sourceName);
  }

  /** The scanner after the first `n` sink answers. */
  function AddSinks(s: Scanner, sinks: seq<PaInfo>, n: nat): (r: Scanner)
    requires s.current.Some? && n <= |sinks|
    ensures r.current.Some?
  {
    var c := s.current.value;
    s.(current := Some(c.(outputs := c.outputs + seq(n, i requires 0 <= i < n => Device(sinks[i], AimOutput)))))
  }

  /** The scanner after the first `n` source answers. */
  function AddSources(s: Scanner, sources: seq<PaInfo>, n: nat): (r: Scanner)
    requires s.current.Some? && n <= |sources|
    ensures r.current.Some?
  {
    var c := s.current.value;
    s.(current := Some(c.(inputs := c.inputs + seq(n, i requires 0 <= i < n => Device(sources[i], AimInput)))))
  }

  /** Sink answers only append to the outputs under construction. */
  lemma {:induction false} AnswerAllSinks(s: Scanner, sinks: seq<PaInfo>, sinkQs: seq<Query>, rest: seq<Query>)
    requires Fresh(s)
    requires sinkQs == seq(|sinks|, i requires 0 <= i < |sinks| => SinkInfo(sinks[i]))
    requires |rest| > 0 && rest[0] == SinkListEnd
    ensures AnswerAll(s, sinkQs + rest) == AnswerAll(AddSinks(s, sinks, |sinks|).(haveSinkList := true), rest[1..])
    decreases |sinks|
  {
    if |sinks| == 0 {
      assert sinkQs + rest == [rest[0]] + rest[1..];
      AddNoSinks(s, sinks);
      AnswerAllInfo(s, rest[0], rest[1..]);
    } else {
      var q := SinkInfo(sinks[0]);
      var tail := sinks[1..];
      var tailQs := seq(|tail|, i requires 0 <= i < |tail| => SinkInfo(tail[i]));
      assert sinkQs == [q] + tailQs;
      assert sinkQs + rest == [q] + (tailQs + rest);
      AnswerAllInfo(s, q, tailQs + rest);
      AnswerAllSinks(Answer(s, q).scanner, tail, tailQs, rest);
      AddSinksStep(s, sinks);
    }
  }

  /** A sink or source answer, or the first completing answer before the
      last one, leaves the scan running: the rest of the answers are applied
      to the updated scanner. */
  lemma AnswerAllInfo(s: Scanner, q: Query, qs: seq<Query>)
    requires s.current.Some? && !AllArrived(s)
    requires s.haveDefaultSink ==> s.defaultSinkName.Some? && s.defaultSourceName.Some?
    requires Answer(s, q).scanner.current.Some? && Answer(s, q).events == []
    ensures AnswerAll(s, [q] + qs) == AnswerAll(Answer(s, q).scanner, qs)
  {
    assert ([q] + qs)[0] == q && ([q] + qs)[1..] == qs;
  }

  /** Adding no sinks changes nothing. */
  lemma AddNoSinks(s: Scanner, sinks: seq<PaInfo>)
    requires s.current.Some?
    ensures AddSinks(s, sinks, 0) == s
  {
    var c := s.current.value;
    assert AddSinks(s, sinks, 0).current.value.outputs == c.outputs;
    assert c.(outputs := c.outputs + []) == c;
    assert Some(c) == s.current;
    assert s.(current := s.current) == s;
  }

  /** Adding no sources changes nothing. */
  lemma AddNoSources(s: Scanner, sources: seq<PaInfo>)
    requires s.current.Some?
    ensures AddSources(s, sources, 0) == s
  {
    var c := s.current.value;
    assert AddSources(s, sources, 0).current.value.inputs == c.inputs;
    assert c.(inputs := c.inputs + []) == c;
    assert Some(c) == s.current;
    assert s.(current := s.current) == s;
  }

  /** One sink answer, then the rest of the sinks, adds all of them. */
  lemma AddSinksStep(s: Scanner, sinks: seq<PaInfo>)
    requires Fresh(s) && |sinks| > 0
    ensures AddSinks(Answer(s, SinkInfo(sinks[0])).scanner, sinks[1..], |sinks| - 1) == AddSinks(s, sinks, |sinks|)
  {
    var c := s.current.value;
    var tail := sinks[1..];
    var added := seq(|sinks|, i requires 0 <= i < |sinks| => Device(sinks[i], AimOutput));
    var addedTail := seq(|tail|, i requires 0 <= i < |tail| => Device(tail[i], AimOutput));
    assert added == [Device(sinks[0], AimOutput)] + addedTail;
    assert c.outputs + added == (c.outputs + [Device(sinks[0], AimOutput)]) + addedTail;
  }

  /** One source answer, then the rest of the sources, adds all of them. */
  lemma AddSourcesStep(s: Scanner, sources: seq<PaInfo>)
    requires s.current.Some? && s.haveSinkList && !s.haveSourceList && !s.haveDefaultSink
    requires |sources| > 0
    ensures AddSources(Answer(s, SourceInfo(sources[0])).scanner, sources[1..], |sources| - 1)
              == AddSources(s, sources, |sources|)
  {
    var c := s.current.value;
    var tail := sources[1..];
    var added := seq(|sources|, i requires 0 <= i < |sources| => Device(sources[i], AimInput));
    var addedTail := seq(|tail|, i requires 0 <= i < |tail| => Device(tail[i], AimInput));
    assert added == [Device(sources[0], AimInput)] + addedTail;
    assert c.inputs + added == (c.inputs + [Device(sources[0], AimInput)]) + addedTail;
  }

  /** Source answers only append to the inputs under construction. */
  lemma {:induction false} AnswerAllSources(s: Scanner, sources: seq<PaInfo>, sourceQs: seq<Query>, rest: seq<Query>)
    requires s.current.Some? && s.haveSinkList && !s.haveSourceList && !s.haveDefaultSink
    requires sourceQs == seq(|sources|, i requires 0 <= i < |sources| => SourceInfo(sources[i]))
    requires |rest| > 0 && rest[0] == SourceListEnd
    ensures AnswerAll(s, sourceQs + rest) == AnswerAll(AddSources(s, sources, |sources|).(haveSourceList := true), rest[1..])
    decreases |sources|
  {
    if |sources| == 0 {
      assert sourceQs + rest == [rest[0]] + rest[1..];
      AddNoSources(s, sources);
      AnswerAllInfo(s, rest[0], rest[1..]);
    } else {
      var q := SourceInfo(sources[0]);
      var tail := sources[1..];
      var tailQs := seq(|tail|, i requires 0 <= i < |tail| => SourceInfo(tail[i]));
      assert sourceQs == [q] + tailQs;
      assert sourceQs + rest == [q] + (tailQs + rest);
      AnswerAllInfo(s, q, tailQs + rest);
      AnswerAllSources(Answer(s, q).scanner, tail, tailQs, rest);
      AddSourcesStep(s, sources);
    }
  }

  /** `flush_events`: a queued rescan runs first (with the server's answers
      to it) and clears the queue; then the ready snapshot, if any, becomes
      the safe one with one change callback before the old safe snapshot is
      destroyed. */
  function FlushEvents(s: Scanner, answers: seq<Query>): (r: Effect)
    ensures !s.scanQueued ==> r.events == Snapshot.Flush(s.slots).events
                              && r.scanner == s.(slots := Snapshot.Flush(s.slots).slots)
    ensures !r.scanner.scanQueued
    ensures r.scanner.slots.ready.None?
    ensures Snapshot.ChangesIn(r.events) <= 1
  {
    if !s.scanQueued then
      var f := Snapshot.Flush(s.slots);
      ChangesInFlush(s.slots, []);
      assert [] + f.events == f.events;
      Effect(s.(slots := f.slots), f.events)
    else
      var scan := ScanDevices(s.(scanQueued := false));
      var answered := AnswerAll(scan.scanner, answers);
      Snapshot.DestroyOptCounts(s.current);
      NoChangesWhileAnswering(scan.scanner, answers);
      Snapshot.DestroyedInAppend(scan.events, answered.events);
      var f := Snapshot.Flush(answered.scanner.slots);
      ChangesInFlush(answered.scanner.slots, scan.events + answered.events);
      Effect(answered.scanner.(slots := f.slots), scan.events + answered.events + f.events)
  }

  /** A queued rescan answered in full: the snapshot under construction is
      destroyed, the fresh snapshot (sinks as outputs and sources as inputs,
      in the server's order, defaults by name) passes through `ready` into
      `safe`, the change callback fires exactly once, and only after it is
      the previously safe snapshot destroyed. */
  lemma QueuedFlushPublishes(s: Scanner, sinks: seq<PaInfo>, sources: seq<PaInfo>,
                             sinkName: string, sourceName: string)
    requires s.scanQueued
    ensures var r := FlushEvents(s, ScanAnswers(sinks, sources, sinkName, sourceName));
            var outs := Outputs(sinks);
            var ins := Inputs(sources);
            && r.scanner.slots.safe == Some(DevicesInfo(ins, outs, DefaultByName(ins, sourceName), DefaultByName(outs, sinkName)))
            && r.scanner.slots.ready.None?
            && r.events == Snapshot.DestroyOpt(s.current) + Snapshot.DestroyOpt(s.slots.ready)
                           + [Snapshot.DevicesChange] + Snapshot.DestroyOpt(s.slots.safe)
            && Snapshot.ChangesIn(r.events) == 1
            && !r.scanner.scanQueued && r.scanner.haveDevices
  {
    var answers := ScanAnswers(sinks, sources, sinkName, sourceName);
    var scan := ScanDevices(s.(scanQueued := false));
    QueuedFlushRescans(s, answers);
    ScanPublishes(scan.scanner, sinks, sources, sinkName, sourceName);
    OneChangeBetween(s.current, s.slots.ready, s.slots.safe);
  }

  /** A flush with a rescan queued: the scan, its answers, then the hand-off
      of whatever the answers published. */
  lemma QueuedFlushRescans(s: Scanner, answers: seq<Query>)
    requires s.scanQueued
    ensures var scan := ScanDevices(s.(scanQueued := false));
            var answered := AnswerAll(scan.scanner, answers);
            var f := Snapshot.Flush(answered.scanner.slots);
            FlushEvents(s, answers) == Effect(answered.scanner.(slots := f.slots), scan.events + answered.events + f.events)
  {
  }

  /** Destructions around a single change callback count one change. */
  lemma OneChangeBetween(x: Option<Info>, y: Option<Info>, z: Option<Info>)
    ensures Snapshot.ChangesIn(Snapshot.DestroyOpt(x) + Snapshot.DestroyOpt(y)
                               + [Snapshot.DevicesChange] + Snapshot.DestroyOpt(z)) == 1
  {
    var change: seq<Snapshot.Event<Info>> := [Snapshot.DevicesChange];
    assert Snapshot.ChangesIn(change) == 1 by {
      assert change[1..] == [];
    }
    Snapshot.DestroyOptCounts(x);
    Snapshot.DestroyOptCounts(y);
    Snapshot.DestroyOptCounts(z);
    Snapshot.DestroyedInAppend(Snapshot.DestroyOpt(x), Snapshot.DestroyOpt(y));
    Snapshot.DestroyedInAppend(Snapshot.DestroyOpt(x) + Snapshot.DestroyOpt(y), change);
    Snapshot.DestroyedInAppend(Snapshot.DestroyOpt(x) + Snapshot.DestroyOpt(y) + change, Snapshot.DestroyOpt(z));
  }

  lemma ChangesInFlush(slots: Snapshot.Slots<Info>, before: seq<Snapshot.Event<Info>>)
    requires Snapshot.ChangesIn(before) == 0
    ensures Snapshot.ChangesIn(before + Snapshot.Flush(slots).events) <= 1
  {
    Snapshot.StepConserves(slots, Snapshot.FlushOp);
    Snapshot.DestroyedInAppend(before, Snapshot.Flush(slots).events);
  }

  /** Answers never fire the change callback: they only publish. */
  lemma {:induction false} NoChangesWhileAnswering(s: Scanner, qs: seq<Query>)
    requires s.current.Some? && !AllArrived(s)
    requires s.haveDefaultSink ==> s.defaultSinkName.Some? && s.defaultSourceName.Some?
    ensures Snapshot.ChangesIn(AnswerAll(s, qs).events) == 0
    decreases |qs|
  {
    if |qs| > 0 {
      var first := Answer(s, qs[0]);
      Snapshot.DestroyOptCounts(s.slots.ready);
      assert Snapshot.ChangesIn(first.events) == 0;
      if first.scanner.current.Some? {
        NoChangesWhileAnswering(first.scanner, qs[1..]);
        Snapshot.DestroyedInAppend(first.events, AnswerAll(first.scanner, qs[1..]).events);
      }
    }
  }
}
