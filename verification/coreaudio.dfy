/** The CoreAudio backend's pure logic: channel labels and layout tags, the
    channel count and sample-rate range of a device, the event flush with
    its disconnect notification, and the buffer-by-buffer write protocol.

    Property queries go to the CoreAudio HAL; the model takes their answers
    (buffer lists, preferred layouts, rate ranges) as inputs.
 */
module CoreAudio {
  import opened Common
  import opened Channels
  import Snapshot
  import Util
  import Devices

  /** `AudioChannelLabel`, as far as the translation reaches. Numbered
      discrete labels carry their number; `LabelOther` is any other value. */
  datatype ChannelLabel =
    | LabelLeft | LabelRight | LabelCenter | LabelLFEScreen
    | LabelLeftSurround | LabelRightSurround | LabelLeftCenter | LabelRightCenter
    | LabelCenterSurround | LabelLeftSurroundDirect | LabelRightSurroundDirect
    | LabelTopCenterSurround | LabelVerticalHeightLeft | LabelVerticalHeightCenter
    | LabelVerticalHeightRight | LabelTopBackLeft | LabelTopBackCenter | LabelTopBackRight
    | LabelRearSurroundLeft | LabelRearSurroundRight | LabelLeftWide | LabelRightWide
    | LabelLFE2 | LabelLeftTotal | LabelRightTotal | LabelHearingImpaired
    | LabelNarration | LabelMono | LabelDialogCentricMix | LabelCenterSurroundDirect
    | LabelHaptic
    | LabelAmbisonicW | LabelAmbisonicX | LabelAmbisonicY | LabelAmbisonicZ
    | LabelMsMid | LabelMsSide | LabelXyX | LabelXyY
    | LabelHeadphonesLeft | LabelHeadphonesRight | LabelClickTrack | LabelForeignLanguage
    | LabelDiscrete
    | LabelDiscreteNumbered(n: int)
    | LabelOther(code: int)

  /** The auxiliary channel with number `n`. */
  function AuxChannel(n: int): ChannelId
    requires 0 <= n < 16
  {
    match n
    case 0 => Aux0
    case 1 => Aux1
    case 2 => Aux2
    case 3 => Aux3
    case 4 => Aux4
    case 5 => Aux5
    case 6 => Aux6
    case 7 => Aux7
    case 8 => Aux8
    case 9 => Aux9
    case 10 => Aux10
    case 11 => Aux11
    case 12 => Aux12
    case 13 => Aux13
    case 14 => Aux14
    case _ => Aux15
  }

  /** The auxiliary channels carrying a number. */
  predicate NumberedAux(id: ChannelId)
  {
    AuxNumber(id).Some?
  }

  /** The channels of the labels that have one of their own: every label
      except the numbered discrete ones and the values the backend does not
      know. */
  function NamedLabel(descr: ChannelLabel): (id: ChannelId)
    requires !descr.LabelDiscreteNumbered? && !descr.LabelOther?
  {
    match descr
    case LabelLeft => FrontLeft
    case LabelRight => FrontRight
    case LabelCenter => FrontCenter
    case LabelLFEScreen => Lfe
    case LabelLeftSurround => BackLeft
    case LabelRightSurround => BackRight
    case LabelLeftCenter => FrontLeftCenter
    case LabelRightCenter => FrontRightCenter
    case LabelCenterSurround => BackCenter
    case LabelLeftSurroundDirect => SideLeft
    case LabelRightSurroundDirect => SideRight
    case LabelTopCenterSurround => TopCenter
    case LabelVerticalHeightLeft => TopFrontLeft
    case LabelVerticalHeightCenter => TopFrontCenter
    case LabelVerticalHeightRight => TopFrontRight
    case LabelTopBackLeft => TopBackLeft
    case LabelTopBackCenter => TopBackCenter
    case LabelTopBackRight => TopBackRight
    case LabelRearSurroundLeft => BackLeft
    case LabelRearSurroundRight => BackRight
    case LabelLeftWide => FrontLeftWide
    case LabelRightWide => FrontRightWide
    case LabelLFE2 => Lfe2
    case LabelLeftTotal => FrontLeft
    case LabelRightTotal => FrontRight
    case LabelHearingImpaired => HearingImpaired
    case LabelNarration => Narration
    case LabelMono => FrontCenter
    case LabelDialogCentricMix => DialogCentricMix
    case LabelCenterSurroundDirect => BackCenter
    case LabelHaptic => Haptic
    case LabelAmbisonicW => AmbisonicW
    case LabelAmbisonicX => AmbisonicX
    case LabelAmbisonicY => AmbisonicY
    case LabelAmbisonicZ => AmbisonicZ
    case LabelMsMid => MsMid
    case LabelMsSide => MsSide
    case LabelXyX => XyX
    case LabelXyY => XyY
    case LabelHeadphonesLeft => HeadphonesLeft
    case LabelHeadphonesRight => HeadphonesRight
    case LabelClickTrack => ClickTrack
    case LabelForeignLanguage => ForeignLanguage
    case LabelDiscrete => Aux
  }

  /** `from_channel_descr`. */
  function FromChannelDescr(descr: ChannelLabel): (id: ChannelId)
    ensures id == ChannelId.Invalid <==>
              descr.LabelOther? || (descr.LabelDiscreteNumbered? && !(0 <= descr.n < 16))
  {
    match descr
    case LabelDiscreteNumbered(n) => if 0 <= n < 16 then AuxChannel(n) else ChannelId.Invalid
    case LabelOther(_) => ChannelId.Invalid
    case _ => NamedLabel(descr)
  }

  /** The number of a numbered auxiliary channel. */
  function AuxNumber(id: ChannelId): (n: Option<int>)
    ensures n.Some? ==> 0 <= n.value < 16 && AuxChannel(n.value) == id
  {
    match id
    case Aux0 => Some(0)
    case Aux1 => Some(1)
    case Aux2 => Some(2)
    case Aux3 => Some(3)
    case Aux4 => Some(4)
    case Aux5 => Some(5)
    case Aux6 => Some(6)
    case Aux7 => Some(7)
    case Aux8 => Some(8)
    case Aux9 => Some(9)
    case Aux10 => Some(10)
    case Aux11 => Some(11)
    case Aux12 => Some(12)
    case Aux13 => Some(13)
    case Aux14 => Some(14)
    case Aux15 => Some(15)
    case _ => None
  }

  lemma AuxNumbered(n: int)
    requires 0 <= n < 16
    ensures AuxNumber(AuxChannel(n)) == Some(n)
  {
  }

  /** Discrete channel `n` becomes auxiliary channel `n`, for the first 16,
      and no two numbers share one. */
  lemma DiscreteLabelsAreAux(m: int, n: int)
    requires 0 <= n < 16
    ensures FromChannelDescr(LabelDiscreteNumbered(n)) == AuxChannel(n)
    ensures FromChannelDescr(LabelDiscreteNumbered(m)) == AuxChannel(n) <==> m == n
  {
    if 0 <= m < 16 {
      AuxChannelInjective(m, n);
    }
  }

  /** Distinct numbers name distinct auxiliary channels. */
  lemma AuxChannelInjective(m: int, n: int)
    requires 0 <= m < 16 && 0 <= n < 16
    ensures AuxChannel(m) == AuxChannel(n) <==> m == n
  {
    AuxNumbered(m);
    AuxNumbered(n);
  }

  /** The numbered auxiliary channels come from nowhere else: a label with
      a channel of its own never gives one. */
  lemma NamedLabelsAreNotAux(descr: ChannelLabel, n: int)
    requires !descr.LabelDiscreteNumbered? && !descr.LabelOther? && 0 <= n < 16
    ensures FromChannelDescr(descr) != AuxChannel(n)
  {
    AuxNumbered(n);
    assert FromChannelDescr(descr) == NamedLabel(descr);
  }

  /** CoreAudio's several names for one front position collapse: the left
      and right total labels alias left and right, and mono aliases center. */
  lemma FrontAliases()
    ensures FromChannelDescr(LabelLeftTotal) == FromChannelDescr(LabelLeft) == FrontLeft
    ensures FromChannelDescr(LabelRightTotal) == FromChannelDescr(LabelRight) == FrontRight
    ensures FromChannelDescr(LabelMono) == FromChannelDescr(LabelCenter) == FrontCenter
  {
    assert NamedLabel(LabelLeftTotal) == NamedLabel(LabelLeft) == FrontLeft;
    assert NamedLabel(LabelRightTotal) == NamedLabel(LabelRight) == FrontRight;
    assert NamedLabel(LabelMono) == NamedLabel(LabelCenter) == FrontCenter;
  }

  /** The same for the back positions: the rear surround labels alias the
      left and right surround labels, and center surround direct aliases
      center surround. */
  lemma SurroundAliases()
    ensures FromChannelDescr(LabelRearSurroundLeft) == FromChannelDescr(LabelLeftSurround) == BackLeft
    ensures FromChannelDescr(LabelRearSurroundRight) == FromChannelDescr(LabelRightSurround) == BackRight
    ensures FromChannelDescr(LabelCenterSurroundDirect) == FromChannelDescr(LabelCenterSurround) == BackCenter
  {
    assert NamedLabel(LabelRearSurroundLeft) == NamedLabel(LabelLeftSurround) == BackLeft;
    assert NamedLabel(LabelRearSurroundRight) == NamedLabel(LabelRightSurround) == BackRight;
    assert NamedLabel(LabelCenterSurroundDirect) == NamedLabel(LabelCenterSurround) == BackCenter;
  }

  /** `AudioChannelLayoutTag`, as far as the translation reaches. */
  datatype LayoutTag =
    | TagUseChannelDescriptions | TagUseChannelBitmap
    | TagMono | TagStereo | TagStereoHeadphones | TagMatrixStereo | TagBinaural
    | TagXY | TagMidSide | TagAmbisonicBFormat
    | TagQuadraphonic | TagPentagonal | TagHexagonal | TagOctagonal | TagCube
    | TagOther(code: int)

  /** `AudioChannelLayout`: a tag, and the channel descriptions that count
      when the tag says to use them. */
  datatype CaLayout = CaLayout(tag: LayoutTag, descriptions: seq<ChannelLabel>)

  /** The channels of the layout tags the backend knows. */
  function TagChannels(tag: LayoutTag): (r: Option<seq<ChannelId>>)
    requires !tag.TagUseChannelDescriptions? && !tag.TagUseChannelBitmap?
    ensures r.None? <==> tag.TagOther?
  {
    match tag
    case TagMono => Some([FrontCenter])
    case TagStereo => Some([FrontLeft, FrontRight])
    case TagStereoHeadphones => Some([FrontLeft, FrontRight])
    case TagMatrixStereo => Some([FrontLeft, FrontRight])
    case TagBinaural => Some([FrontLeft, FrontRight])
    case TagXY => Some([XyX, XyY])
    case TagMidSide => Some([MsMid, MsSide])
    case TagAmbisonicBFormat => Some([AmbisonicW, AmbisonicX, AmbisonicY, AmbisonicZ])
    case TagQuadraphonic => Some([FrontLeft, FrontRight, BackLeft, BackRight])
    case TagPentagonal => Some([SideLeft, SideRight, BackLeft, BackRight, FrontCenter])
    case TagHexagonal => Some([FrontLeft, FrontRight, BackLeft, BackRight, FrontCenter, BackCenter])
    case TagOctagonal => Some([FrontLeft, FrontRight, BackLeft, BackRight, FrontCenter, BackCenter,
                               SideLeft, SideRight])
    case TagCube => Some([FrontLeft, FrontRight, BackLeft, BackRight, TopFrontLeft, TopFrontRight,
                          TopBackLeft, TopBackRight])
    case TagOther(_) => None
  }

  /** The channel count each known tag's name promises. */
  function TagArity(tag: LayoutTag): int
  {
    match tag
    case TagMono => 1
    case TagQuadraphonic => 4
    case TagAmbisonicBFormat => 4
    case TagPentagonal => 5
    case TagHexagonal => 6
    case TagOctagonal => 8
    case TagCube => 8
    case _ => 2
  }

  /** Every known tag lists as many channels as its name says, all of them
      valid and no two the same. */
  lemma TagChannelsWellFormed(tag: LayoutTag)
    requires !tag.TagUseChannelDescriptions? && !tag.TagUseChannelBitmap? && !tag.TagOther?
    ensures var cs := TagChannels(tag).value;
            && |cs| == TagArity(tag) <= MaxChannels
            && (forall i :: 0 <= i < |cs| ==> cs[i] != ChannelId.Invalid)
            && (forall i, j :: 0 <= i < j < |cs| ==> cs[i] != cs[j])
  {
    if tag.TagHexagonal? || tag.TagOctagonal? || tag.TagCube? {
      LargeTagsWellFormed(tag);
    }
  }

  /** The tags with six or more channels, on their own. */
  lemma LargeTagsWellFormed(tag: LayoutTag)
    requires tag.TagHexagonal? || tag.TagOctagonal? || tag.TagCube?
    ensures var cs := TagChannels(tag).value;
            && |cs| == TagArity(tag) <= MaxChannels
            && (forall i :: 0 <= i < |cs| ==> cs[i] != ChannelId.Invalid)
            && (forall i, j :: 0 <= i < j < |cs| ==> cs[i] != cs[j])
  {
  }

  /** Each channel description, translated on its own. */
  function Translate(descriptions: seq<ChannelLabel>): (r: seq<ChannelId>)
    ensures |r| == |descriptions|
    ensures forall i :: 0 <= i < |r| ==> r[i] == FromChannelDescr(descriptions[i])
  {
    seq(|descriptions|, i requires 0 <= i < |descriptions| => FromChannelDescr(descriptions[i]))
  }

  /** `from_coreaudio_layout` as written: the descriptions are copied
      without a bound, though a layout holds at most 32 channels. The tag
      that asks for a channel bitmap makes the source panic. */
  function FromCoreAudioLayoutAsWritten(ca: CaLayout, detect: seq<ChannelId> -> Option<string>)
    : (r: Result<ChannelLayout>)
    requires !ca.tag.TagUseChannelBitmap?
    ensures r.Err? <==> ca.tag.TagOther?
    ensures r.Err? ==> r.error == IncompatibleDevice
    ensures r.Ok? && ca.tag.TagUseChannelDescriptions? ==>
              |r.value.channels| == |ca.descriptions|
              && forall i :: 0 <= i < |ca.descriptions| ==> r.value.channels[i] == FromChannelDescr(ca.descriptions[i])
  {
    if ca.tag.TagUseChannelDescriptions? then
      var channels := Translate(ca.descriptions);
      Ok(ChannelLayout(detect(channels), channels))
    else
      match TagChannels(ca.tag)
      case None => Err(IncompatibleDevice)
      case Some(cs) => Ok(ChannelLayout(detect(cs), cs))
  }

  /** A device describing 33 channels overflows the 32-entry channel array
      of the layout the as-written translation fills in. */
  lemma DescriptionsOverflowLayout(detect: seq<ChannelId> -> Option<string>)
    ensures var ca := CaLayout(TagUseChannelDescriptions, seq(33, i => LabelDiscrete));
            var r := FromCoreAudioLayoutAsWritten(ca, detect);
            r.Ok? && !LayoutFits(r.value)
  {
  }

  /** `from_coreaudio_layout` with the descriptions bounded like every
      other backend bounds its channel lists: at most the first 32. */
  function FromCoreAudioLayout(ca: CaLayout, detect: seq<ChannelId> -> Option<string>)
    : (r: Result<ChannelLayout>)
    requires !ca.tag.TagUseChannelBitmap?
    ensures r.Err? <==> ca.tag.TagOther?
    ensures r.Err? ==> r.error == IncompatibleDevice
    ensures r.Ok? ==> LayoutFits(r.value) && r.value.name == detect(r.value.channels)
    ensures r.Ok? && ca.tag.TagUseChannelDescriptions? ==>
              |r.value.channels| == Util.Min(MaxChannels, |ca.descriptions|)
              && forall i :: 0 <= i < |r.value.channels| ==> r.value.channels[i] == FromChannelDescr(ca.descriptions[i])
    ensures r.Ok? && !ca.tag.TagUseChannelDescriptions? ==> r.value.channels == TagChannels(ca.tag).value
    ensures ca.tag.TagUseChannelDescriptions? && |ca.descriptions| <= MaxChannels ==>
              r == FromCoreAudioLayoutAsWritten(ca, detect)
  {
    if ca.tag.TagUseChannelDescriptions? then
      var n := Util.Min(MaxChannels, |ca.descriptions|);
      var channels := Translate(ca.descriptions[..n]);
      assert n == |ca.descriptions| ==> ca.descriptions[..n] == ca.descriptions;
      Ok(ChannelLayout(detect(channels), channels))
    else
      match TagChannels(ca.tag)
      case None => Err(IncompatibleDevice)
      case Some(cs) =>
        TagChannelsWellFormed(ca.tag);
        Ok(ChannelLayout(detect(cs), cs))
  }

  /** `all_channels_invalid`. */
  method AllChannelsInvalid(layout: ChannelLayout) returns (r: bool)
    ensures r <==> forall i :: 0 <= i < |layout.channels| ==> layout.channels[i] == ChannelId.Invalid
  {
    var i := 0;
    while i < |layout.channels|
      invariant 0 <= i <= |layout.channels|
      invariant forall k :: 0 <= k < i ==> layout.channels[k] == ChannelId.Invalid
    {
      if layout.channels[i] != ChannelId.Invalid {
        return false;
      }
      i := i + 1;
    }
    return true;
  }

  predicate AllInvalid(layout: ChannelLayout)
  {
    forall i :: 0 <= i < |layout.channels| ==> layout.channels[i] == ChannelId.Invalid
  }

  /** The layout `refresh_devices` reads before any fallback: the
      translated preferred layout; `channelCount` unknown channels when the
      translation fails; and the zeroed, empty layout when the device
      reports no preferred layout. */
  function Reported(preferred: Option<CaLayout>, channelCount: nat, detect: seq<ChannelId> -> Option<string>)
    : (l: ChannelLayout)
    requires preferred.Some? ==> !preferred.value.tag.TagUseChannelBitmap?
    ensures preferred.None? ==> l == ChannelLayout(None, [])
    ensures preferred.Some? && FromCoreAudioLayout(preferred.value, detect).Ok? ==>
              l == FromCoreAudioLayout(preferred.value, detect).value
    ensures preferred.Some? && FromCoreAudioLayout(preferred.value, detect).Err? ==>
              l.name.None? && |l.channels| == channelCount && AllInvalid(l)
  {
    match preferred
    case None => ChannelLayout(None, [])
    case Some(ca) =>
      match FromCoreAudioLayout(ca, detect)
      case Ok(layout) => layout
      case Err(_) => ChannelLayout(None, seq(channelCount, _ => ChannelId.Invalid))
  }

  /** A device's current layout in `refresh_devices` as written: the
      reported layout, replaced by the default layout for the channel count
      (`getDefault`, outside this model) when no channel of it is known.
      A device without a preferred layout and without a default for its
      count keeps the zeroed layout of no channels. */
  function CurrentLayoutAsWritten(preferred: Option<CaLayout>, channelCount: nat,
                                  detect: seq<ChannelId> -> Option<string>,
                                  getDefault: int -> Option<ChannelLayout>): (l: ChannelLayout)
    requires preferred.Some? ==> !preferred.value.tag.TagUseChannelBitmap?
    ensures preferred.Some? && FromCoreAudioLayout(preferred.value, detect).Ok?
            && !AllInvalid(FromCoreAudioLayout(preferred.value, detect).value) ==>
              l == FromCoreAudioLayout(preferred.value, detect).value
    ensures preferred.Some? && FromCoreAudioLayout(preferred.value, detect).Ok?
            && AllInvalid(FromCoreAudioLayout(preferred.value, detect).value) ==>
              l == if getDefault(channelCount).Some? then getDefault(channelCount).value
                   else FromCoreAudioLayout(preferred.value, detect).value
    ensures getDefault(channelCount).Some? && (preferred.None? || FromCoreAudioLayout(preferred.value, detect).Err?) ==>
              l == getDefault(channelCount).value
    ensures getDefault(channelCount).None? && preferred.Some? && FromCoreAudioLayout(preferred.value, detect).Err? ==>
              l.name.None? && |l.channels| == channelCount && AllInvalid(l)
    ensures getDefault(channelCount).None? && preferred.None? ==> l == ChannelLayout(None, [])
  {
    var reported := Reported(preferred, channelCount, detect);
    if AllInvalid(reported) && getDefault(channelCount).Some? then getDefault(channelCount).value
    else reported
  }

  /** A 9-channel device without a preferred layout, for a count that has no
      default layout, reports a current layout of no channels at all. */
  lemma NoPreferredLayoutLosesChannels(detect: seq<ChannelId> -> Option<string>,
                                       getDefault: int -> Option<ChannelLayout>)
    requires getDefault(9).None?
    ensures |CurrentLayoutAsWritten(None, 9, detect, getDefault).channels| == 0
  {
  }

  /** A device's current layout, corrected: a device without a preferred
      layout is treated like one whose layout does not translate, so it
      keeps its channel count with unknown channels when no default exists.
      Everything else is as written. */
  function CurrentLayout(preferred: Option<CaLayout>, channelCount: nat,
                         detect: seq<ChannelId> -> Option<string>,
                         getDefault: int -> Option<ChannelLayout>): (l: ChannelLayout)
    requires preferred.Some? ==> !preferred.value.tag.TagUseChannelBitmap?
    ensures preferred.Some? ==> l == CurrentLayoutAsWritten(preferred, channelCount, detect, getDefault)
    ensures getDefault(channelCount).Some? ==> l == CurrentLayoutAsWritten(preferred, channelCount, detect, getDefault)
    ensures (preferred.None? || FromCoreAudioLayout(preferred.value, detect).Err?) && getDefault(channelCount).None? ==>
              l.name.None? && |l.channels| == channelCount && AllInvalid(l)
  {
    if preferred.None? && getDefault(channelCount).None? then
      ChannelLayout(None, seq(channelCount, _ => ChannelId.Invalid))
    else CurrentLayoutAsWritten(preferred, channelCount, detect, getDefault)
  }

  /** The fallback exists to replace a layout of unknown channels: when
      every default layout names its channels, the current layout is all
      unknown exactly when neither the device nor the defaults know a
      channel. */
  lemma CurrentLayoutKnowsChannels(preferred: Option<CaLayout>, channelCount: nat,
                                   detect: seq<ChannelId> -> Option<string>,
                                   getDefault: int -> Option<ChannelLayout>)
    requires preferred.Some? ==> !preferred.value.tag.TagUseChannelBitmap?
    requires getDefault(channelCount).Some? ==> !AllInvalid(getDefault(channelCount).value)
    ensures AllInvalid(CurrentLayout(preferred, channelCount, detect, getDefault))
            <==> getDefault(channelCount).None? && AllInvalid(Reported(preferred, channelCount, detect))
  {
    var l := CurrentLayout(preferred, channelCount, detect, getDefault);
    var reported := Reported(preferred, channelCount, detect);
    if preferred.None? && getDefault(channelCount).None? {
      assert AllInvalid(l) && AllInvalid(reported);
    } else if AllInvalid(reported) && getDefault(channelCount).Some? {
      assert l == getDefault(channelCount).value;
    } else {
      assert l == reported;
    }
  }

  /** The channel count of a device: the channels of all its buffers. */
  function ChannelSum(buffers: seq<nat>): (n: nat)
    decreases |buffers|
  {
    if |buffers| == 0 then 0 else ChannelSum(buffers[..|buffers| - 1]) + buffers[|buffers| - 1]
  }

  /** A device is created for an aim exactly when one of its buffers for
      that aim carries a channel, and then it has at least as many channels
      as each buffer. */
  lemma {:induction false} ChannelSumPositive(buffers: seq<nat>)
    ensures ChannelSum(buffers) > 0 <==> exists i :: 0 <= i < |buffers| && buffers[i] > 0
    ensures forall i :: 0 <= i < |buffers| ==> buffers[i] <= ChannelSum(buffers)
    decreases |buffers|
  {
    if |buffers| > 0 {
      var init := buffers[..|buffers| - 1];
      ChannelSumPositive(init);
      assert forall i :: 0 <= i < |init| ==> init[i] == buffers[i];
      if ChannelSum(buffers) > 0 && ChannelSum(init) > 0 {
        var i :| 0 <= i < |init| && init[i] > 0;
        assert buffers[i] > 0;
      }
    }
  }

  /** `AudioValueRange`. */
  datatype ValueRange = ValueRange(minimum: real, maximum: real)

  function Ceil(x: real): (r: int)
    ensures x <= r as real < x + 1.0
  {
    if x.Floor as real == x then x.Floor else x.Floor + 1
  }

  /** The sample-rate range of a device: the smallest rounded-up range
      minimum and the largest rounded-down range maximum, with 0 meaning
      "not set yet". */
  datatype Rates = Rates(min: int, max: int)

  function FoldRates(ranges: seq<ValueRange>): Rates
    decreases |ranges|
  {
    if |ranges| == 0 then Rates(0, 0)
    else
      var acc := FoldRates(ranges[..|ranges| - 1]);
      var avr := ranges[|ranges| - 1];
      var minVal := Ceil(avr.minimum);
      var maxVal := avr.maximum.Floor;
      Rates(if acc.min == 0 || minVal < acc.min then minVal else acc.min,
            if acc.max == 0 || maxVal > acc.max then maxVal else acc.max)
  }

  /** The smallest and largest element of a non-empty list. */
  function Smallest(xs: seq<int>): (m: int)
    requires |xs| > 0
    ensures m in xs && forall i :: 0 <= i < |xs| ==> m <= xs[i]
    decreases |xs|
  {
    if |xs| == 1 then xs[0] else Util.Min(Smallest(xs[..|xs| - 1]), xs[|xs| - 1])
  }

  function Largest(xs: seq<int>): (m: int)
    requires |xs| > 0
    ensures m in xs && forall i :: 0 <= i < |xs| ==> m >= xs[i]
    decreases |xs|
  {
    if |xs| == 1 then xs[0] else Util.Max(Largest(xs[..|xs| - 1]), xs[|xs| - 1])
  }

  function Minima(ranges: seq<ValueRange>): (r: seq<int>)
    ensures |r| == |ranges|
  {
    seq(|ranges|, i requires 0 <= i < |ranges| => Ceil(ranges[i].minimum))
  }

  function Maxima(ranges: seq<ValueRange>): (r: seq<int>)
    ensures |r| == |ranges|
  {
    seq(|ranges|, i requires 0 <= i < |ranges| => ranges[i].maximum.Floor)
  }

  /** With positive rates the fold finds the true range: the minimum of the
      rounded-up minimums and the maximum of the rounded-down maximums; with
      no ranges both stay at the "not set" value 0. */
  lemma {:induction false} FoldRatesIsRange(ranges: seq<ValueRange>)
    requires forall i :: 0 <= i < |ranges| ==> ranges[i].minimum > 0.0 && ranges[i].maximum >= 1.0
    ensures |ranges| == 0 ==> FoldRates(ranges) == Rates(0, 0)
    ensures |ranges| > 0 ==> FoldRates(ranges) == Rates(Smallest(Minima(ranges)), Largest(Maxima(ranges)))
    decreases |ranges|
  {
    if |ranges| > 1 {
      var init := ranges[..|ranges| - 1];
      FoldRatesIsRange(init);
      assert Minima(ranges)[..|ranges| - 1] == Minima(init);
      assert Maxima(ranges)[..|ranges| - 1] == Maxima(init);
    }
  }

  /** The one thing the 0 sentinel costs: a range that starts at 0 Hz does
      not count as a minimum once another range follows. */
  lemma ZeroMinimumIsForgotten()
    ensures FoldRates([ValueRange(0.0, 10.0), ValueRange(5.0, 10.0)]).min == 5
  {
    var rs := [ValueRange(0.0, 10.0), ValueRange(5.0, 10.0)];
    assert rs[..1] == [ValueRange(0.0, 10.0)];
    assert rs[..1][..0] == [];
  }

  /** What the HAL reports about one scope (input or output) of a device:
      its stream configuration's buffers, its preferred channel layout if it
      has one, its available nominal sample-rate ranges and its nominal
      sample rate (rounded to an integer here). */
  datatype HalScope = HalScope(buffers: seq<nat>, preferred: Option<CaLayout>,
                               ranges: seq<ValueRange>, rateCurrent: int)

  /** One audio object of the HAL's device list. */
  datatype HalDevice = HalDevice(objectId: int, uid: string, name: string, input: HalScope, output: HalScope)

  /** A device of the snapshot together with the HAL object it came from
      (`SoundIoDeviceCoreAudio::device_id`). */
  datatype CaDevice = CaDevice(objectId: int, device: Devices.Device)

  type Info = Devices.DevicesInfo<CaDevice>

  predicate ScopeOk(scope: HalScope)
  {
    scope.preferred.Some? ==> !scope.preferred.value.tag.TagUseChannelBitmap?
  }

  function Scope(d: HalDevice, aim: Devices.DeviceAim): HalScope
  {
    if aim == Devices.AimInput then d.input else d.output
  }

  /** The layout `refresh_devices` gives a scope: the code's as written, or
      the corrected one that keeps the channel count when nothing names
      the channels. */
  function ScopeLayout(corrected: bool, preferred: Option<CaLayout>, channelCount: nat,
                       detect: seq<ChannelId> -> Option<string>,
                       getDefault: int -> Option<ChannelLayout>): ChannelLayout
    requires preferred.Some? ==> !preferred.value.tag.TagUseChannelBitmap?
  {
    if corrected then CurrentLayout(preferred, channelCount, detect, getDefault)
    else CurrentLayoutAsWritten(preferred, channelCount, detect, getDefault)
  }

  /** The device `refresh_devices` creates for one scope of a HAL object:
      none when the scope carries no channel; otherwise a device with its
      current layout (as written, or corrected) as its only layout and
      32-bit native float as its only format, and the sample-rate range
      folded from the HAL's ranges. */
  function MakeDevice(d: HalDevice, aim: Devices.DeviceAim, corrected: bool,
                      detect: seq<ChannelId> -> Option<string>,
                      getDefault: int -> Option<ChannelLayout>): (r: Option<Devices.Device>)
    requires ScopeOk(Scope(d, aim))
    ensures r.None? <==> ChannelSum(Scope(d, aim).buffers) == 0
    ensures r.Some? ==>
              var dev := r.value;
              && dev.aim == aim && dev.id == d.uid && dev.name == d.name && !dev.isRaw
              && dev.layouts == [dev.currentLayout]
              && (!corrected ==> dev.currentLayout == CurrentLayoutAsWritten(Scope(d, aim).preferred, ChannelSum(Scope(d, aim).buffers), detect, getDefault))
              && (corrected ==> dev.currentLayout == CurrentLayout(Scope(d, aim).preferred, ChannelSum(Scope(d, aim).buffers), detect, getDefault))
              && dev.formats == [Float32NE]
              && dev.sampleRateMin == FoldRates(Scope(d, aim).ranges).min
              && dev.sampleRateMax == FoldRates(Scope(d, aim).ranges).max
              && dev.sampleRateCurrent == Scope(d, aim).rateCurrent
  {
    var scope := Scope(d, aim);
    var count := ChannelSum(scope.buffers);
    if count == 0 then None
    else
      var layout := ScopeLayout(corrected, scope.preferred, count, detect, getDefault);
      var rates := FoldRates(scope.ranges);
      Some(Devices.Device(d.uid, d.name, aim, false, [layout], layout, [Float32NE], FormatInvalid,
                          rates.min, rates.max, scope.rateCurrent))
  }

  /** Appends the device of one scope, if any, to its list, and points the
      list's default index at it when it is the HAL's default device. */
  function AddScope(info: Info, d: HalDevice, aim: Devices.DeviceAim, defaultId: int, corrected: bool,
                    detect: seq<ChannelId> -> Option<string>,
                    getDefault: int -> Option<ChannelLayout>): (r: Info)
    requires ScopeOk(Scope(d, aim))
  {
    match MakeDevice(d, aim, corrected, detect, getDefault)
    case None => info
    case Some(dev) =>
      var cd := CaDevice(d.objectId, dev);
      if aim == Devices.AimInput then
        info.(inputs := info.inputs + [cd],
              defaultInput := if d.objectId == defaultId then |info.inputs| else info.defaultInput)
      else
        info.(outputs := info.outputs + [cd],
              defaultOutput := if d.objectId == defaultId then |info.outputs| else info.defaultOutput)
  }

  /** The device loop of `refresh_devices`: every HAL object in order, its
      input scope and then its output scope, starting from default indices
      `initial`. */
  function RefreshDevicesFrom(hal: seq<HalDevice>, defaultInputId: int, defaultOutputId: int, initial: int,
                              corrected: bool, detect: seq<ChannelId> -> Option<string>,
                              getDefault: int -> Option<ChannelLayout>): Info
    requires forall i :: 0 <= i < |hal| ==> ScopeOk(hal[i].input) && ScopeOk(hal[i].output)
    decreases |hal|
  {
    if |hal| == 0 then Devices.DevicesInfo([], [], initial, initial)
    else
      var acc := RefreshDevicesFrom(hal[..|hal| - 1], defaultInputId, defaultOutputId, initial, corrected, detect, getDefault);
      var d := hal[|hal| - 1];
      var withInput := AddScope(acc, d, Devices.AimInput, defaultInputId, corrected, detect, getDefault);
      AddScope(withInput, d, Devices.AimOutput, defaultOutputId, corrected, detect, getDefault)
  }

  /** A default index that is the last device of the list coming from the
      HAL's default object, or `initial` when no device does. */
  predicate DefaultIsLastMatch(list: seq<CaDevice>, index: int, id: int, initial: int)
  {
    || (index == initial && forall j :: 0 <= j < |list| ==> list[j].objectId != id)
    || (0 <= index < |list| && list[index].objectId == id
        && forall j :: index < j < |list| ==> list[j].objectId != id)
  }

  /** Every listed device sits in the list of its aim with the one format
      CoreAudio offers, and each default index is the HAL's default
      object's device, or `initial` when the HAL's default has none. */
  predicate ShapeOk(r: Info, defaultInputId: int, defaultOutputId: int, initial: int)
  {
    && (forall i :: 0 <= i < |r.inputs| ==>
          r.inputs[i].device.aim == Devices.AimInput && r.inputs[i].device.formats == [Float32NE])
    && (forall i :: 0 <= i < |r.outputs| ==>
          r.outputs[i].device.aim == Devices.AimOutput && r.outputs[i].device.formats == [Float32NE])
    && DefaultIsLastMatch(r.inputs, r.defaultInput, defaultInputId, initial)
    && DefaultIsLastMatch(r.outputs, r.defaultOutput, defaultOutputId, initial)
  }

  lemma AddScopeKeepsShape(info: Info, d: HalDevice, aim: Devices.DeviceAim, defaultInputId: int,
                           defaultOutputId: int, initial: int, corrected: bool,
                           detect: seq<ChannelId> -> Option<string>,
                           getDefault: int -> Option<ChannelLayout>)
    requires ScopeOk(Scope(d, aim))
    requires ShapeOk(info, defaultInputId, defaultOutputId, initial)
    ensures ShapeOk(AddScope(info, d, aim, if aim == Devices.AimInput then defaultInputId else defaultOutputId,
                             corrected, detect, getDefault),
                    defaultInputId, defaultOutputId, initial)
  {
  }

  /** The device loop keeps `ShapeOk` from the empty snapshot on. */
  lemma {:induction false} RefreshDevicesShape(hal: seq<HalDevice>, defaultInputId: int, defaultOutputId: int,
                                               initial: int, corrected: bool,
                                               detect: seq<ChannelId> -> Option<string>,
                                               getDefault: int -> Option<ChannelLayout>)
    requires forall i :: 0 <= i < |hal| ==> ScopeOk(hal[i].input) && ScopeOk(hal[i].output)
    ensures ShapeOk(RefreshDevicesFrom(hal, defaultInputId, defaultOutputId, initial, corrected, detect, getDefault),
                    defaultInputId, defaultOutputId, initial)
    decreases |hal|
  {
    if |hal| > 0 {
      var init := hal[..|hal| - 1];
      var d := hal[|hal| - 1];
      RefreshDevicesShape(init, defaultInputId, defaultOutputId, initial, corrected, detect, getDefault);
      var acc := RefreshDevicesFrom(init, defaultInputId, defaultOutputId, initial, corrected, detect, getDefault);
      AddScopeKeepsShape(acc, d, Devices.AimInput, defaultInputId, defaultOutputId, initial, corrected, detect, getDefault);
      var withInput := AddScope(acc, d, Devices.AimInput, defaultInputId, corrected, detect, getDefault);
      AddScopeKeepsShape(withInput, d, Devices.AimOutput, defaultInputId, defaultOutputId, initial, corrected, detect, getDefault);
    }
  }

  /** `refresh_devices` as written: the snapshot is zero-initialised, so both
      default indices start at 0, and each device has the as-written
      layout. */
  function RefreshDevicesAsWritten(hal: seq<HalDevice>, defaultInputId: int, defaultOutputId: int,
                                   detect: seq<ChannelId> -> Option<string>,
                                   getDefault: int -> Option<ChannelLayout>): (r: Info)
    requires forall i :: 0 <= i < |hal| ==> ScopeOk(hal[i].input) && ScopeOk(hal[i].output)
    ensures DefaultIsLastMatch(r.inputs, r.defaultInput, defaultInputId, 0)
    ensures DefaultIsLastMatch(r.outputs, r.defaultOutput, defaultOutputId, 0)
  {
    RefreshDevicesShape(hal, defaultInputId, defaultOutputId, 0, false, detect, getDefault);
    RefreshDevicesFrom(hal, defaultInputId, defaultOutputId, 0, false, detect, getDefault)
  }

  /** With no devices, or with a default object that has no output scope,
      the as-written snapshot still names device 0 as the default output:
      an index into an empty list, or a device that is not the default. */
  lemma ZeroDefaultWithoutDefaultDevice(detect: seq<ChannelId> -> Option<string>,
                                        getDefault: int -> Option<ChannelLayout>)
    ensures var r := RefreshDevicesAsWritten([], 1, 1, detect, getDefault);
            r.defaultOutput == 0 && |r.outputs| == 0 && !Devices.DefaultsOk(r)
    ensures var speaker := HalDevice(2, "spk", "Speaker", HalScope([], None, [], 0), HalScope([2], None, [], 0));
            var r := RefreshDevicesAsWritten([speaker], 1, 1, detect, getDefault);
            |r.outputs| == 1 && r.defaultOutput == 0 && r.outputs[0].objectId != 1
  {
    var speaker := HalDevice(2, "spk", "Speaker", HalScope([], None, [], 0), HalScope([2], None, [], 0));
    assert [speaker][..0] == [];
    assert ChannelSum(speaker.output.buffers) == 2 by {
      assert speaker.output.buffers[..0] == [];
    }
  }

  /** A corrected device against its as-written counterpart: the same, or
      the as-written one has the empty layout and the corrected one, alike
      in every other field, has a nameless layout of unknown channels. */
  predicate Corrects(fixed: CaDevice, written: CaDevice)
  {
    var layout := fixed.device.currentLayout;
    || fixed == written
    || (&& written.device.currentLayout == ChannelLayout(None, [])
        && layout.name.None? && |layout.channels| > 0 && AllInvalid(layout)
        && fixed == written.(device := written.device.(layouts := [layout], currentLayout := layout)))
  }

  /** Two device lists that agree position by position up to `Corrects`. */
  predicate ListCorrects(fixed: seq<CaDevice>, written: seq<CaDevice>)
  {
    |fixed| == |written| && forall i :: 0 <= i < |fixed| ==> Corrects(fixed[i], written[i])
  }

  /** `refresh_devices` corrected: both default indices start at -1, the
      value that means "no default", and a scope whose channels nothing
      names keeps its channel count. Every default index is then in range,
      and it is -1 exactly when the HAL's default object contributes no
      device to the list; the lists are the as-written ones, with only the
      empty layouts replaced. */
  function RefreshDevices(hal: seq<HalDevice>, defaultInputId: int, defaultOutputId: int,
                          detect: seq<ChannelId> -> Option<string>,
                          getDefault: int -> Option<ChannelLayout>): (r: Info)
    requires forall i :: 0 <= i < |hal| ==> ScopeOk(hal[i].input) && ScopeOk(hal[i].output)
    ensures Devices.DefaultsOk(r)
    ensures r.defaultInput == -1 <==> forall j :: 0 <= j < |r.inputs| ==> r.inputs[j].objectId != defaultInputId
    ensures r.defaultOutput == -1 <==> forall j :: 0 <= j < |r.outputs| ==> r.outputs[j].objectId != defaultOutputId
    ensures 0 <= r.defaultOutput ==> r.outputs[r.defaultOutput].objectId == defaultOutputId
    ensures 0 <= r.defaultInput ==> r.inputs[r.defaultInput].objectId == defaultInputId
    ensures ListCorrects(r.inputs, RefreshDevicesAsWritten(hal, defaultInputId, defaultOutputId, detect, getDefault).inputs)
    ensures ListCorrects(r.outputs, RefreshDevicesAsWritten(hal, defaultInputId, defaultOutputId, detect, getDefault).outputs)
  {
    RefreshDevicesShape(hal, defaultInputId, defaultOutputId, -1, true, detect, getDefault);
    CorrectedLists(hal, defaultInputId, defaultOutputId, -1, 0, detect, getDefault);
    RefreshDevicesFrom(hal, defaultInputId, defaultOutputId, -1, true, detect, getDefault)
  }

  /** The corrected device of a scope against the as-written one. */
  lemma MakeDeviceCorrects(d: HalDevice, aim: Devices.DeviceAim,
                           detect: seq<ChannelId> -> Option<string>,
                           getDefault: int -> Option<ChannelLayout>)
    requires ScopeOk(Scope(d, aim))
    ensures var fixed := MakeDevice(d, aim, true, detect, getDefault);
            var written := MakeDevice(d, aim, false, detect, getDefault);
            && fixed.None? == written.None?
            && (fixed.Some? ==> Corrects(CaDevice(d.objectId, fixed.value), CaDevice(d.objectId, written.value)))
  {
  }

  /** One scope added to lists that agree up to `Corrects` keeps them so. */
  lemma AddScopeCorrects(fixed: Info, written: Info, d: HalDevice, aim: Devices.DeviceAim, defaultId: int,
                         detect: seq<ChannelId> -> Option<string>,
                         getDefault: int -> Option<ChannelLayout>)
    requires ScopeOk(Scope(d, aim))
    requires ListCorrects(fixed.inputs, written.inputs) && ListCorrects(fixed.outputs, written.outputs)
    ensures var f := AddScope(fixed, d, aim, defaultId, true, detect, getDefault);
            var w := AddScope(written, d, aim, defaultId, false, detect, getDefault);
            ListCorrects(f.inputs, w.inputs) && ListCorrects(f.outputs, w.outputs)
  {
    MakeDeviceCorrects(d, aim, detect, getDefault);
  }

  /** Over all HAL objects, from any starting default indices, the
      corrected lists are the as-written ones with only the empty layouts
      replaced. */
  lemma {:induction false} CorrectedLists(hal: seq<HalDevice>, defaultInputId: int, defaultOutputId: int,
                                          a: int, b: int, detect: seq<ChannelId> -> Option<string>,
                                          getDefault: int -> Option<ChannelLayout>)
    requires forall i :: 0 <= i < |hal| ==> ScopeOk(hal[i].input) && ScopeOk(hal[i].output)
    ensures ListCorrects(RefreshDevicesFrom(hal, defaultInputId, defaultOutputId, a, true, detect, getDefault).inputs,
                         RefreshDevicesFrom(hal, defaultInputId, defaultOutputId, b, false, detect, getDefault).inputs)
    ensures ListCorrects(RefreshDevicesFrom(hal, defaultInputId, defaultOutputId, a, true, detect, getDefault).outputs,
                         RefreshDevicesFrom(hal, defaultInputId, defaultOutputId, b, false, detect, getDefault).outputs)
    decreases |hal|
  {
    if |hal| > 0 {
      var init := hal[..|hal| - 1];
      var d := hal[|hal| - 1];
      CorrectedLists(init, defaultInputId, defaultOutputId, a, b, detect, getDefault);
      var f := RefreshDevicesFrom(init, defaultInputId, defaultOutputId, a, true, detect, getDefault);
      var w := RefreshDevicesFrom(init, defaultInputId, defaultOutputId, b, false, detect, getDefault);
      AddScopeCorrects(f, w, d, Devices.AimInput, defaultInputId, detect, getDefault);
      AddScopeCorrects(AddScope(f, d, Devices.AimInput, defaultInputId, true, detect, getDefault),
                       AddScope(w, d, Devices.AimInput, defaultInputId, false, detect, getDefault),
                       d, Devices.AimOutput, defaultOutputId, detect, getDefault);
    }
  }

  /** A nine-channel output with no preferred layout and no default layout
      for nine channels: listed with no channels as written, and with nine
      unknown channels once corrected. */
  lemma RefreshKeepsChannelCount(detect: seq<ChannelId> -> Option<string>,
                                 getDefault: int -> Option<ChannelLayout>)
    requires getDefault(9).None?
    ensures var box := HalDevice(3, "box", "Box", HalScope([], None, [], 0), HalScope([9], None, [], 0));
            var written := RefreshDevicesAsWritten([box], 0, 3, detect, getDefault);
            var fixed := RefreshDevices([box], 0, 3, detect, getDefault);
            && |written.outputs| == |fixed.outputs| == 1
            && |written.outputs[0].device.currentLayout.channels| == 0
            && |fixed.outputs[0].device.currentLayout.channels| == 9
  {
    var box := HalDevice(3, "box", "Box", HalScope([], None, [], 0), HalScope([9], None, [], 0));
    assert [box][..0] == [];
    assert ChannelSum(box.output.buffers) == 9 by {
      assert box.output.buffers[..0] == [];
    }
    assert ChannelSum(box.input.buffers) == 0;
    assert MakeDevice(box, Devices.AimInput, false, detect, getDefault).None?;
    assert MakeDevice(box, Devices.AimInput, true, detect, getDefault).None?;
    assert CurrentLayoutAsWritten(None, 9, detect, getDefault) == ChannelLayout(None, []);
    assert |CurrentLayout(None, 9, detect, getDefault).channels| == 9;
    var empty := RefreshDevicesFrom([], 0, 3, 0, false, detect, getDefault);
    var written := RefreshDevicesFrom([box], 0, 3, 0, false, detect, getDefault);
    assert written == AddScope(AddScope(empty, box, Devices.AimInput, 0, false, detect, getDefault),
                               box, Devices.AimOutput, 3, false, detect, getDefault);
    assert |written.outputs| == 1;
    var emptyFixed := RefreshDevicesFrom([], 0, 3, -1, true, detect, getDefault);
    var fixed := RefreshDevicesFrom([box], 0, 3, -1, true, detect, getDefault);
    assert fixed == AddScope(AddScope(emptyFixed, box, Devices.AimInput, 0, true, detect, getDefault),
                             box, Devices.AimOutput, 3, true, detect, getDefault);
    assert |fixed.outputs| == 1;
  }

  /** The starting default index does not change which devices are listed. */
  lemma {:induction false} SameListsAnyInitial(hal: seq<HalDevice>, defaultInputId: int, defaultOutputId: int,
                                               a: int, b: int, corrected: bool,
                                               detect: seq<ChannelId> -> Option<string>,
                                               getDefault: int -> Option<ChannelLayout>)
    requires forall i :: 0 <= i < |hal| ==> ScopeOk(hal[i].input) && ScopeOk(hal[i].output)
    ensures RefreshDevicesFrom(hal, defaultInputId, defaultOutputId, a, corrected, detect, getDefault).inputs
         == RefreshDevicesFrom(hal, defaultInputId, defaultOutputId, b, corrected, detect, getDefault).inputs
    ensures RefreshDevicesFrom(hal, defaultInputId, defaultOutputId, a, corrected, detect, getDefault).outputs
         == RefreshDevicesFrom(hal, defaultInputId, defaultOutputId, b, corrected, detect, getDefault).outputs
    decreases |hal|
  {
    if |hal| > 0 {
      SameListsAnyInitial(hal[..|hal| - 1], defaultInputId, defaultOutputId, a, b, corrected, detect, getDefault);
    }
  }

  /** The flush state: the ready and safe snapshots, the error a shutdown of
      the HAL reported (`NoError` when none) and whether the disconnect
      callback has fired. */
  datatype FlushState<T> = FlushState(slots: Snapshot.Slots<T>, shutdownErr: Error, emittedShutdown: bool)

  datatype FlushStep<T> = FlushStep(state: FlushState<T>, events: seq<Snapshot.Event<T>>)

  /** `flush_events_ca`: a pending shutdown is reported once, and in that
      flush nothing is swapped or destroyed; otherwise a ready snapshot is
      swapped in as on every other backend. */
  function FlushCa<T>(s: FlushState<T>): (r: FlushStep<T>)
    ensures s.shutdownErr != NoError && !s.emittedShutdown ==>
              r == FlushStep(s.(emittedShutdown := true), [Snapshot.BackendDisconnect(s.shutdownErr)])
    ensures !(s.shutdownErr != NoError && !s.emittedShutdown) ==>
              r.state == s.(slots := Snapshot.Flush(s.slots).slots)
              && r.events == Snapshot.Flush(s.slots).events
    ensures r.state.shutdownErr == s.shutdownErr
    ensures s.emittedShutdown ==> r.state.emittedShutdown
  {
    if s.shutdownErr != NoError && !s.emittedShutdown then
      FlushStep(s.(emittedShutdown := true), [Snapshot.BackendDisconnect(s.shutdownErr)])
    else
      var f := Snapshot.Flush(s.slots);
      FlushStep(s.(slots := f.slots), f.events)
  }

  /** What happens between flushes: a device scan publishing a snapshot, or
      `shutdown_backend` recording an error. */
  datatype CaOp<T> = ScanOp(x: T) | ShutdownOp(err: Error) | FlushOp

  function ApplyCa<T>(s: FlushState<T>, op: CaOp<T>): FlushStep<T>
  {
    match op
    case ScanOp(x) =>
      var p := Snapshot.Publish(s.slots, x);
      FlushStep(s.(slots := p.slots), p.events)
    case ShutdownOp(err) => FlushStep(s.(shutdownErr := err), [])
    case FlushOp => FlushCa(s)
  }

  function RunCa<T>(s: FlushState<T>, ops: seq<CaOp<T>>): FlushStep<T>
    decreases |ops|
  {
    if |ops| == 0 then FlushStep(s, [])
    else
      var first := ApplyCa(s, ops[0]);
      var rest := RunCa(first.state, ops[1..]);
      FlushStep(rest.state, first.events + rest.events)
  }

  function Disconnects<T>(events: seq<Snapshot.Event<T>>): nat
    decreases |events|
  {
    if |events| == 0 then 0
    else (if events[0].BackendDisconnect? then 1 else 0) + Disconnects(events[1..])
  }

  lemma {:induction false} DisconnectsAppend<T>(a: seq<Snapshot.Event<T>>, b: seq<Snapshot.Event<T>>)
    ensures Disconnects(a + b) == Disconnects(a) + Disconnects(b)
    decreases |a|
  {
    if |a| == 0 {
      assert a + b == b;
    } else {
      assert (a + b)[1..] == a[1..] + b;
      DisconnectsAppend(a[1..], b);
    }
  }

  /** Destroying a snapshot never reports a disconnect. */
  lemma DestroyOptNoDisconnect<T>(x: Option<T>)
    ensures Disconnects(Snapshot.DestroyOpt(x)) == 0
  {
    if x.Some? {
      assert Snapshot.DestroyOpt(x)[1..] == [];
    }
  }

  lemma DisconnectsOfStep<T>(s: FlushState<T>, op: CaOp<T>)
    ensures Disconnects(ApplyCa(s, op).events) == (if op.FlushOp? && s.shutdownErr != NoError && !s.emittedShutdown then 1 else 0)
    ensures ApplyCa(s, op).state.emittedShutdown == (s.emittedShutdown || (op.FlushOp? && s.shutdownErr != NoError))
  {
    match op
    case ScanOp(_) =>
      DestroyOptNoDisconnect(s.slots.ready);
    case ShutdownOp(_) =>
    case FlushOp =>
      if s.shutdownErr != NoError && !s.emittedShutdown {
        assert ApplyCa(s, op).events[1..] == [];
      } else if s.slots.ready.Some? {
        var change: seq<Snapshot.Event<T>> := [Snapshot.DevicesChange];
        assert change[1..] == [];
        assert ApplyCa(s, op).events == change + Snapshot.DestroyOpt(s.slots.safe);
        DisconnectsAppend(change, Snapshot.DestroyOpt(s.slots.safe));
        DestroyOptNoDisconnect(s.slots.safe);
      }
  }

  /** Whatever the interleaving of scans, shutdowns and flushes, the
      disconnect callback fires at most once over the life of the backend,
      and not at all once it has fired. */
  lemma {:induction false} DisconnectAtMostOnce<T>(s: FlushState<T>, ops: seq<CaOp<T>>)
    ensures Disconnects(RunCa(s, ops).events) <= (if s.emittedShutdown then 0 else 1)
    ensures s.emittedShutdown ==> RunCa(s, ops).state.emittedShutdown
    decreases |ops|
  {
    if |ops| > 0 {
      var first := ApplyCa(s, ops[0]);
      DisconnectsOfStep(s, ops[0]);
      DisconnectAtMostOnce(first.state, ops[1..]);
      DisconnectsAppend(first.events, RunCa(first.state, ops[1..]).events);
    }
  }

  /** After a shutdown, the next flush reports it, and the flush after that
      goes back to swapping snapshots. */
  lemma ShutdownReportedByNextFlush<T>(s: FlushState<T>, err: Error)
    requires err != NoError && !s.emittedShutdown
    ensures var r := RunCa(s, [ShutdownOp(err), FlushOp]);
            r.events == [Snapshot.BackendDisconnect(err)] && r.state.slots == s.slots
    ensures var r := RunCa(s, [ShutdownOp(err), FlushOp, FlushOp]);
            r.events == [Snapshot.BackendDisconnect(err)] + Snapshot.Flush(s.slots).events
            && r.state.slots == Snapshot.Flush(s.slots).slots
  {
    var s1 := s.(shutdownErr := err);
    var s2 := s1.(emittedShutdown := true);
    var f := Snapshot.Flush(s.slots);
    var one: seq<CaOp<T>> := [FlushOp];
    assert one[1..] == [];
    assert RunCa(s2, one) == FlushStep(s2.(slots := f.slots), f.events + []);
    assert RunCa(s1, one) == FlushStep(s2, [Snapshot.BackendDisconnect(err)] + []);
    var two: seq<CaOp<T>> := [FlushOp, FlushOp];
    assert two[1..] == one;
    assert RunCa(s1, two) == FlushStep(s2.(slots := f.slots), [Snapshot.BackendDisconnect(err)] + (f.events + []));
    assert [ShutdownOp(err), FlushOp][1..] == one;
    assert [ShutdownOp(err), FlushOp, FlushOp][1..] == two;
  }

  /** One CoreAudio buffer of the render callback's buffer list. */
  datatype AudioBuffer = AudioBuffer(channels: int, byteSize: nat)

  /** The output stream's position in the buffer list of the current render
      callback (`buffer_index`). */
  datatype Writer = Writer(buffers: seq<AudioBuffer>, index: nat)

  /** The render callback hands a fresh buffer list to the write callback. */
  function RenderStart(buffers: seq<AudioBuffer>): (w: Writer)
    ensures w.index == 0 && w.buffers == buffers
  {
    Writer(buffers, 0)
  }

  predicate BuffersMatch(w: Writer, bytesPerFrame: int, channelCount: int)
  {
    bytesPerFrame > 0
    && forall i :: 0 <= i < |w.buffers| ==>
         w.buffers[i].channels == channelCount && w.buffers[i].byteSize % bytesPerFrame == 0
  }

  datatype Begin = Begin(areas: Option<seq<ChannelArea>>, frameCount: int)

  /** `outstream_begin_write_ca`: the current buffer's frames, with each
      channel's area at its sample in the buffer's first frame (pointers
      relative to the buffer); past the last buffer, no areas and 0 frames.
      The source asserts the buffer's channel count and whole frames. */
  function BeginWrite(w: Writer, bytesPerSample: int, bytesPerFrame: int, channelCount: nat): (r: Begin)
    requires BuffersMatch(w, bytesPerFrame, channelCount)
    ensures w.index >= |w.buffers| <==> r.areas.None?
    ensures w.index >= |w.buffers| ==> r.frameCount == 0
    ensures w.index < |w.buffers| ==>
              r.frameCount * bytesPerFrame == w.buffers[w.index].byteSize
              && |r.areas.value| == channelCount
              && forall ch :: 0 <= ch < channelCount ==>
                   r.areas.value[ch] == ChannelArea(bytesPerSample * ch, bytesPerFrame)
  {
    if w.index < |w.buffers| then
      var b := w.buffers[w.index];
      Util.DivModUnique(b.byteSize, bytesPerFrame, b.byteSize / bytesPerFrame, 0);
      Begin(Some(seq(channelCount, ch => ChannelArea(bytesPerSample * ch, bytesPerFrame))),
            b.byteSize / bytesPerFrame)
    else
      Begin(None, 0)
  }

  /** `outstream_end_write_ca`: on to the next buffer. */
  function EndWrite(w: Writer): (r: Writer)
    ensures r.buffers == w.buffers && r.index == w.index + 1
  {
    w.(index := w.index + 1)
  }

  function FramesIn(buffers: seq<AudioBuffer>, bytesPerFrame: int): int
    requires bytesPerFrame > 0
    decreases |buffers|
  {
    if |buffers| == 0 then 0
    else FramesIn(buffers[..|buffers| - 1], bytesPerFrame) + buffers[|buffers| - 1].byteSize / bytesPerFrame
  }

  /** A write callback that begins and ends one write per buffer is offered
      every frame of every buffer exactly once, and the write after the
      last buffer offers nothing. */
  method WriteAllBuffers(buffers: seq<AudioBuffer>, bytesPerSample: int, bytesPerFrame: int, channelCount: nat)
    returns (total: int, last: Begin)
    requires BuffersMatch(Writer(buffers, 0), bytesPerFrame, channelCount)
    ensures total == FramesIn(buffers, bytesPerFrame)
    ensures last == Begin(None, 0)
  {
    var w := RenderStart(buffers);
    total := 0;
    while w.index < |buffers|
      invariant w.buffers == buffers && w.index <= |buffers|
      invariant total == FramesIn(buffers[..w.index], bytesPerFrame)
      decreases |buffers| - w.index
    {
      var b := BeginWrite(w, bytesPerSample, bytesPerFrame, channelCount);
      assert buffers[..w.index + 1][..w.index] == buffers[..w.index];
      total := total + b.frameCount;
      w := EndWrite(w);
    }
    assert buffers[..w.index] == buffers;
    last := BeginWrite(w, bytesPerSample, bytesPerFrame, channelCount);
  }
}
