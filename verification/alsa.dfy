/** The ALSA backend's pure logic: channel-map translation, channel layouts
    from channel-map queries, the device list built from the PCM name hints,
    and the channel areas of an mmap'ed write.

    The hints, channel maps and mmap areas come from the ALSA library; the
    model takes them as inputs.
 */
module Alsa {
  import opened Common
  import opened Channels
  import opened Devices
  import opened Util

  /** Values of `enum snd_pcm_chmap_position`, which the backend passes
      around as plain integers: UNKNOWN is 0, NA is 1, MONO is 2, and FL
      (3) through BRC (36) follow in the enumeration's order. */
  const ChmapUnknown: int := 0
  const ChmapNA: int := 1
  const ChmapMono: int := 2
  const ChmapFC: int := 7
  /** `SND_CHMAP_LAST`, the highest position ALSA names (BRC). */
  const ChmapLast: int := 36

  /** The positions from FL to BRC: each names exactly one channel id. */
  predicate NamedPos(pos: int)
  {
    3 <= pos <= ChmapLast
  }

  /** The channel ids ALSA has a position for. */
  predicate AlsaNamed(id: ChannelId)
  {
    ToChmapPos(id) != ChmapUnknown
  }

  /** `from_alsa_chmap_pos`; the position is an `unsigned int`. */
  function FromChmapPos(pos: nat): (id: ChannelId)
    ensures id == ChannelId.Invalid <==> pos == ChmapUnknown || pos == ChmapNA || pos > ChmapLast
  {
    match pos
    case 2 => FrontCenter  // MONO
    case 3 => FrontLeft  // FL
    case 4 => FrontRight  // FR
    case 5 => BackLeft  // RL
    case 6 => BackRight  // RR
    case 7 => FrontCenter  // FC
    case 8 => Lfe  // LFE
    case 9 => SideLeft  // SL
    case 10 => SideRight  // SR
    case 11 => BackCenter  // RC
    case 12 => FrontLeftCenter  // FLC
    case 13 => FrontRightCenter  // FRC
    case 14 => BackLeftCenter  // RLC
    case 15 => BackRightCenter  // RRC
    case 16 => FrontLeftWide  // FLW
    case 17 => FrontRightWide  // FRW
    case 18 => FrontLeftHigh  // FLH
    case 19 => FrontCenterHigh  // FCH
    case 20 => FrontRightHigh  // FRH
    case 21 => TopCenter  // TC
    case 22 => TopFrontLeft  // TFL
    case 23 => TopFrontRight  // TFR
    case 24 => TopFrontCenter  // TFC
    case 25 => TopBackLeft  // TRL
    case 26 => TopBackRight  // TRR
    case 27 => TopBackCenter  // TRC
    case 28 => TopFrontLeftCenter  // TFLC
    case 29 => TopFrontRightCenter  // TFRC
    case 30 => TopSideLeft  // TSL
    case 31 => TopSideRight  // TSR
    case 32 => LeftLfe  // LLFE
    case 33 => RightLfe  // RLFE
    case 34 => BottomCenter  // BC
    case 35 => BottomLeftCenter  // BLC
    case 36 => BottomRightCenter  // BRC
    case _ => ChannelId.Invalid  // UNKNOWN, NA and values ALSA does not name
  }

  /** `to_alsa_chmap_pos`: ids without an ALSA position become UNKNOWN. */
  function ToChmapPos(id: ChannelId): (pos: int)
    ensures pos == ChmapUnknown || NamedPos(pos)
  {
    match id
    case FrontLeft => 3  // FL
    case FrontRight => 4  // FR
    case BackLeft => 5  // RL
    case BackRight => 6  // RR
    case FrontCenter => 7  // FC
    case Lfe => 8  // LFE
    case SideLeft => 9  // SL
    case SideRight => 10  // SR
    case BackCenter => 11  // RC
    case FrontLeftCenter => 12  // FLC
    case FrontRightCenter => 13  // FRC
    case BackLeftCenter => 14  // RLC
    case BackRightCenter => 15  // RRC
    case FrontLeftWide => 16  // FLW
    case FrontRightWide => 17  // FRW
    case FrontLeftHigh => 18  // FLH
    case FrontCenterHigh => 19  // FCH
    case FrontRightHigh => 20  // FRH
    case TopCenter => 21  // TC
    case TopFrontLeft => 22  // TFL
    case TopFrontRight => 23  // TFR
    case TopFrontCenter => 24  // TFC
    case TopBackLeft => 25  // TRL
    case TopBackRight => 26  // TRR
    case TopBackCenter => 27  // TRC
    case TopFrontLeftCenter => 28  // TFLC
    case TopFrontRightCenter => 29  // TFRC
    case TopSideLeft => 30  // TSL
    case TopSideRight => 31  // TSR
    case LeftLfe => 32  // LLFE
    case RightLfe => 33  // RLFE
    case BottomCenter => 34  // BC
    case BottomLeftCenter => 35  // BLC
    case BottomRightCenter => 36  // BRC
    case _ => ChmapUnknown
  }

  /** Every id ALSA can name survives a trip to ALSA and back, `Invalid`
      included (as UNKNOWN); every other id goes out as UNKNOWN. */
  lemma IdRoundTrip(id: ChannelId)
    ensures AlsaNamed(id) || id == ChannelId.Invalid ==> FromChmapPos(ToChmapPos(id)) == id
    ensures !AlsaNamed(id) && id != ChannelId.Invalid ==>
              ToChmapPos(id) == ChmapUnknown && FromChmapPos(ToChmapPos(id)) == ChannelId.Invalid
  {
    if AlsaNamed(id) {
      NamedIdRoundTrip(id);
    }
  }

  /** The ids ALSA names come back unchanged from a trip through ALSA. */
  lemma NamedIdRoundTrip(id: ChannelId)
    requires AlsaNamed(id)
    ensures FromChmapPos(ToChmapPos(id)) == id
  {
    if ToChmapPos(id) <= 20 {
      LowerIdRoundTrip(id);
    } else {
      UpperIdRoundTrip(id);
    }
  }

  /** The round trip for the ids at FL (3) through FRH (20). */
  lemma LowerIdRoundTrip(id: ChannelId)
    requires 3 <= ToChmapPos(id) <= 20
    ensures FromChmapPos(ToChmapPos(id)) == id
  {
  }

  /** The round trip for the ids at TC (21) through BRC (36). */
  lemma UpperIdRoundTrip(id: ChannelId)
    requires 21 <= ToChmapPos(id)
    ensures FromChmapPos(ToChmapPos(id)) == id
  {
  }

  /** Every position from FL to BRC survives a trip to a channel id and
      back. */
  lemma PosRoundTrip(pos: nat)
    requires NamedPos(pos)
    ensures ToChmapPos(FromChmapPos(pos)) == pos
  {
    if pos <= 20 {
      LowerPosRoundTrip(pos);
    } else {
      UpperPosRoundTrip(pos);
    }
  }

  /** The round trip for FL (3) through FRH (20). */
  lemma LowerPosRoundTrip(pos: nat)
    requires 3 <= pos <= 20
    ensures ToChmapPos(FromChmapPos(pos)) == pos
  {
  }

  /** The round trip for TC (21) through BRC (36). */
  lemma UpperPosRoundTrip(pos: nat)
    requires 21 <= pos <= ChmapLast
    ensures ToChmapPos(FromChmapPos(pos)) == pos
  {
  }

  /** Every id that comes from ALSA is one ALSA names, or `Invalid`. */
  lemma FromChmapPosNamed(pos: nat)
    ensures FromChmapPos(pos) == ChannelId.Invalid || AlsaNamed(FromChmapPos(pos))
  {
    if NamedPos(pos) {
      PosRoundTrip(pos);
    }
  }

  /** The translation from ALSA loses information: MONO and FC both become
      the front centre, and UNKNOWN, NA and every value past BRC become
      `Invalid`. */
  lemma FromChmapPosNotInjective(pos: nat)
    requires pos > ChmapLast
    ensures FromChmapPos(ChmapMono) == FromChmapPos(ChmapFC) == FrontCenter
    ensures FromChmapPos(ChmapUnknown) == FromChmapPos(ChmapNA) == FromChmapPos(pos) == ChannelId.Invalid
  {
  }

  /** `get_channel_layout`: the first (at most 32) positions, translated in
      order. Naming a layout that matches a built-in one is done by code
      outside this model (`detect`). */
  function GetChannelLayout(positions: seq<nat>, detect: seq<ChannelId> -> Option<string>): (l: ChannelLayout)
    ensures LayoutFits(l)
    ensures |l.channels| == Min(MaxChannels, |positions|)
    ensures forall i :: 0 <= i < |l.channels| ==> l.channels[i] == FromChmapPos(positions[i])
    ensures l.name == detect(l.channels)
  {
    var n := Min(MaxChannels, |positions|);
    var channels := seq(n, i requires 0 <= i < n => FromChmapPos(positions[i]));
    ChannelLayout(detect(channels), channels)
  }

  /** `handle_channel_maps`: no query result means no layouts; otherwise
      one layout per map, for at most the first 32 maps. */
  function HandleChannelMaps(maps: Option<seq<seq<nat>>>, detect: seq<ChannelId> -> Option<string>)
    : (layouts: seq<ChannelLayout>)
    ensures maps.None? ==> layouts == []
    ensures maps.Some? ==> |layouts| == Min(MaxChannels, |maps.value|)
    ensures |layouts| <= MaxChannels
    ensures forall i :: 0 <= i < |layouts| ==>
              LayoutFits(layouts[i]) && layouts[i] == GetChannelLayout(maps.value[i], detect)
  {
    match maps
    case None => []
    case Some(ms) =>
      var n := Min(MaxChannels, |ms|);
      seq(n, i requires 0 <= i < n => GetChannelLayout(ms[i], detect))
  }

  datatype Partition = Partition(head: string, rest: Option<string>)

  /** `str_partition_on_char` on a C string: cut at the first `c`; the
      remainder after it, or nothing when `c` does not occur. */
  function PartitionOnChar(s: string, c: char): (r: Partition)
    requires NUL !in s
    ensures r.rest.None? <==> c !in s
    ensures r.rest.None? ==> r.head == s
    ensures r.rest.Some? ==> s == r.head + [c] + r.rest.value && c !in r.head
    decreases |s|
  {
    if |s| == 0 then Partition(s, None)
    else if s[0] == c then Partition([], Some(s[1..]))
    else
      var p := PartitionOnChar(s[1..], c);
      Partition([s[0]] + p.head, p.rest)
  }

  /** A PCM name hint. The IOID hint, when present, is "Input" or "Output";
      the source panics on anything else. */
  datatype Hint = Hint(name: string, descr: string, ioid: Option<string>)

  predicate HintOk(h: Hint)
  {
    NUL !in h.descr && (h.ioid.Some? ==> h.ioid.value == "Input" || h.ioid.value == "Output")
  }

  /** The name prefixes of surround and system-default PCMs, hidden as
      clutter. */
  const HiddenPrefixes: seq<string> := [
    "sysdefault:", "front:", "surround21:", "surround40:", "surround41:",
    "surround50:", "surround51:", "surround71:"]

  /** Names never listed: the null PCM and the hidden prefixes. */
  predicate Hidden(name: string)
  {
    name == "null" || exists i :: 0 <= i < |HiddenPrefixes| && StartsWith(name, HiddenPrefixes[i])
  }

  predicate IsDefaultName(name: string)
  {
    StartsWith(name, "default:")
  }

  /** A device as the hint scan creates it; the probe that fills in formats,
      layouts and rates talks to the device and is not part of this model. */
  datatype Listed = Listed(name: string, description: string, aim: DeviceAim)

  /** The description: the first line of the hint's description, then ": "
      and the second line when there is one. */
  function Describe(h: Hint): (d: string)
    requires HintOk(h)
    ensures PartitionOnChar(h.descr, '\n').rest.None? ==> d == h.descr
    ensures PartitionOnChar(h.descr, '\n').rest.Some? ==>
              d == PartitionOnChar(h.descr, '\n').head + ": " + PartitionOnChar(h.descr, '\n').rest.value
  {
    var p := PartitionOnChar(h.descr, '\n');
    if p.rest.Some? then p.head + ": " + p.rest.value else p.head
  }

  predicate Playback(h: Hint)
  {
    h.ioid != Some("Input")
  }

  /** Capture is offered unless the IOID says output only or the second
      description line speaks of output. */
  predicate Capture(h: Hint)
    requires HintOk(h)
  {
    && h.ioid != Some("Output")
    && !(var second := PartitionOnChar(h.descr, '\n').rest;
         second.Some? && (Contains(second.value, "Output") || Contains(second.value, "output")))
  }

  /** One iteration of the hint loop of `refresh_devices`. */
  function AddHint(info: DevicesInfo<Listed>, h: Hint): (r: DevicesInfo<Listed>)
    requires HintOk(h)
    ensures Hidden(h.name) ==> r == info
    ensures r.outputs == info.outputs + (if !Hidden(h.name) && Playback(h) then [Listed(h.name, Describe(h), AimOutput)] else [])
    ensures r.inputs == info.inputs + (if !Hidden(h.name) && Capture(h) then [Listed(h.name, Describe(h), AimInput)] else [])
    ensures r.defaultOutput == (if !Hidden(h.name) && Playback(h) && IsDefaultName(h.name) then |info.outputs| else info.defaultOutput)
    ensures r.defaultInput == (if !Hidden(h.name) && Capture(h) && IsDefaultName(h.name) then |info.inputs| else info.defaultInput)
  {
    if Hidden(h.name) then info
    else
      var d := Describe(h);
      var afterOut :=
        if Playback(h) then
          info.(outputs := info.outputs + [Listed(h.name, d, AimOutput)],
                defaultOutput := if IsDefaultName(h.name) then |info.outputs| else info.defaultOutput)
        else info;
      if Capture(h) then
        afterOut.(inputs := afterOut.inputs + [Listed(h.name, d, AimInput)],
                  defaultInput := if IsDefaultName(h.name) then |afterOut.inputs| else afterOut.defaultInput)
      else afterOut
  }

  /** The hint loop of `refresh_devices`, starting from default indices
      `initialDefault`. Hidden names are never listed and every device sits
      in the list of its direction. */
  function ListHints(hints: seq<Hint>, initialDefault: int): (info: DevicesInfo<Listed>)
    requires forall i :: 0 <= i < |hints| ==> HintOk(hints[i])
    ensures forall i :: 0 <= i < |info.outputs| ==> !Hidden(info.outputs[i].name) && info.outputs[i].aim == AimOutput
    ensures forall i :: 0 <= i < |info.inputs| ==> !Hidden(info.inputs[i].name) && info.inputs[i].aim == AimInput
    ensures |info.outputs| <= |hints| && |info.inputs| <= |hints|
    decreases |hints|
  {
    if |hints| == 0 then DevicesInfo([], [], initialDefault, initialDefault)
    else AddHint(ListHints(hints[..|hints| - 1], initialDefault), hints[|hints| - 1])
  }

  /** The default of a list is the last device named "default:…", and stays
      the starting value when there is none. */
  predicate DefaultIsLastDefaultName(devices: seq<Listed>, index: int, initial: int)
  {
    && ((exists i :: 0 <= i < |devices| && IsDefaultName(devices[i].name)) ==>
          0 <= index < |devices| && IsDefaultName(devices[index].name)
          && forall j :: index < j < |devices| ==> !IsDefaultName(devices[j].name))
    && ((forall i :: 0 <= i < |devices| ==> !IsDefaultName(devices[i].name)) ==> index == initial)
  }

  lemma {:induction false} ListHintsDefaults(hints: seq<Hint>, initialDefault: int)
    requires forall i :: 0 <= i < |hints| ==> HintOk(hints[i])
    ensures var info := ListHints(hints, initialDefault);
            DefaultIsLastDefaultName(info.outputs, info.defaultOutput, initialDefault)
            && DefaultIsLastDefaultName(info.inputs, info.defaultInput, initialDefault)
    decreases |hints|
  {
    if |hints| > 0 {
      var prev := ListHints(hints[..|hints| - 1], initialDefault);
      ListHintsDefaults(hints[..|hints| - 1], initialDefault);
      var info := ListHints(hints, initialDefault);
      AddedKeepsLast(prev.outputs, prev.defaultOutput, initialDefault, info.outputs, info.defaultOutput);
      AddedKeepsLast(prev.inputs, prev.defaultInput, initialDefault, info.inputs, info.defaultInput);
    }
  }

  /** Appending at most one device keeps "last default name" true, when the
      index moves to the new device exactly when its name is a default one. */
  lemma AddedKeepsLast(before: seq<Listed>, index: int, initial: int, after: seq<Listed>, index': int)
    requires DefaultIsLastDefaultName(before, index, initial)
    requires after == before || (|after| == |before| + 1 && after[..|before|] == before)
    requires after == before ==> index' == index
    requires after != before ==>
               index' == (if IsDefaultName(after[|before|].name) then |before| else index)
    ensures DefaultIsLastDefaultName(after, index', initial)
  {
    if after != before {
      assert forall i :: 0 <= i < |before| ==> after[i] == before[i];
      if !IsDefaultName(after[|before|].name) {
        if exists i :: 0 <= i < |after| && IsDefaultName(after[i].name) {
          var i :| 0 <= i < |after| && IsDefaultName(after[i].name);
          assert i < |before| && IsDefaultName(before[i].name);
        }
      }
    }
  }

  /** The hint scan as `refresh_devices` writes it: the snapshot comes from
      a zero-filling allocation, so both default indices start at 0. */
  function RefreshHintsAsWritten(hints: seq<Hint>): (info: DevicesInfo<Listed>)
    requires forall i :: 0 <= i < |hints| ==> HintOk(hints[i])
    ensures DefaultIsLastDefaultName(info.outputs, info.defaultOutput, 0)
    ensures DefaultIsLastDefaultName(info.inputs, info.defaultInput, 0)
  {
    ListHintsDefaults(hints, 0);
    ListHints(hints, 0)
  }

  /** With no hints at all, or none named "default:…", the as-written scan
      still reports device 0 as the default: out of range for an empty list,
      and a device that is not the default one otherwise. */
  lemma DefaultWithoutDefaultName()
    ensures var info := RefreshHintsAsWritten([]);
            info.outputs == [] && info.defaultOutput == 0 && !DefaultsOk(info)
    ensures var h := Hint("hw:CARD=PCH,DEV=0", "HDA Intel PCH", None);
            var info := RefreshHintsAsWritten([h]);
            |info.outputs| == 1 && info.defaultOutput == 0 && !IsDefaultName(info.outputs[0].name)
  {
    var h := Hint("hw:CARD=PCH,DEV=0", "HDA Intel PCH", None);
    HardwareHintListed(h);
    assert [h][..0] == [];
    assert ListHints([h], 0) == AddHint(ListHints([], 0), h);
  }

  /** A hardware PCM's hint is listed for playback under its own name,
      which is not a default one. */
  lemma HardwareHintListed(h: Hint)
    requires h == Hint("hw:CARD=PCH,DEV=0", "HDA Intel PCH", None)
    ensures HintOk(h) && Playback(h) && !Hidden(h.name) && !IsDefaultName(h.name)
  {
    assert !IsDefaultName(h.name) by {
      assert h.name[..8][0] != "default:"[0];
    }
    assert !Hidden(h.name) by {
      assert h.name != "null";
      forall i | 0 <= i < |HiddenPrefixes|
        ensures !StartsWith(h.name, HiddenPrefixes[i])
      {
        assert HiddenPrefixes[i][0] != 'h';
      }
    }
  }

  /** The hint scan with the convention the JACK and PulseAudio backends follow: a list with no default
      device reports -1. The default index is then always valid, and it is
      the last device named "default:…". */
  function RefreshHints(hints: seq<Hint>): (info: DevicesInfo<Listed>)
    requires forall i :: 0 <= i < |hints| ==> HintOk(hints[i])
    ensures DefaultsOk(info)
    ensures DefaultIsLastDefaultName(info.outputs, info.defaultOutput, -1)
    ensures DefaultIsLastDefaultName(info.inputs, info.defaultInput, -1)
    ensures info.defaultOutput == -1 <==> forall i :: 0 <= i < |info.outputs| ==> !IsDefaultName(info.outputs[i].name)
    ensures info.defaultInput == -1 <==> forall i :: 0 <= i < |info.inputs| ==> !IsDefaultName(info.inputs[i].name)
  {
    ListHintsDefaults(hints, -1);
    ListHints(hints, -1)
  }

  /** An mmap area as ALSA describes it: a base address in bytes and the
      first sample's offset and the distance between samples, in bits. */
  datatype MmapArea = MmapArea(addr: int, first: int, step: int)

  predicate ByteAligned(a: MmapArea)
  {
    a.first % 8 == 0 && a.step % 8 == 0
  }

  /** The area computation of `outstream_begin_write_alsa`: each channel's
      pointer is its sample at frame `offset`, in bytes; an area that is not
      byte aligned makes the device incompatible. */
  method BeginWriteAreas(areas: seq<MmapArea>, channelCount: int, offset: int)
    returns (r: Result<seq<ChannelArea>>)
    requires 0 <= channelCount <= |areas| && offset >= 0
    requires forall ch :: 0 <= ch < |areas| ==> areas[ch].first >= 0 && areas[ch].step >= 0
    ensures r.Err? <==> exists ch :: 0 <= ch < channelCount && !ByteAligned(areas[ch])
    ensures r.Err? ==> r.error == IncompatibleDevice
    ensures r.Ok? ==> |r.value| == channelCount
    ensures r.Ok? ==> forall ch :: 0 <= ch < channelCount ==>
              8 * r.value[ch].ptr == 8 * areas[ch].addr + areas[ch].first + areas[ch].step * offset
              && 8 * r.value[ch].step == areas[ch].step
  {
    var out: seq<ChannelArea> := [];
    var ch := 0;
    while ch < channelCount
      invariant 0 <= ch <= channelCount && |out| == ch
      invariant forall k :: 0 <= k < ch ==> ByteAligned(areas[k])
      invariant forall k :: 0 <= k < ch ==>
                  8 * out[k].ptr == 8 * areas[k].addr + areas[k].first + areas[k].step * offset
                  && 8 * out[k].step == areas[k].step
    {
      var a := areas[ch];
      if a.first % 8 != 0 || a.step % 8 != 0 {
        return Err(IncompatibleDevice);
      }
      var step := a.step / 8;
      var area := ChannelArea(a.addr + a.first / 8 + step * offset, step);
      assert 8 * area.ptr == 8 * a.addr + a.first + a.step * offset by {
        assert 8 * (a.first / 8) == a.first;
        assert 8 * step == a.step;
        assert 8 * (step * offset) == (8 * step) * offset;
      }
      out := out + [area];
      ch := ch + 1;
    }
    return Ok(out);
  }
}
