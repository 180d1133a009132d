/** Channel identifiers, channel layouts and sample formats, with the
    frame arithmetic and the layout helpers of the context layer
    (best match and sort).
 */
module Channels {
  import opened Common
  import Util

  /** The channel identifiers the backends translate to and from. */
  datatype ChannelId =
    | Invalid
    | FrontLeft | FrontRight | FrontCenter | Lfe
    | BackLeft | BackRight | FrontLeftCenter | FrontRightCenter
    | BackCenter | SideLeft | SideRight
    | TopCenter | TopFrontLeft | TopFrontCenter | TopFrontRight
    | TopBackLeft | TopBackCenter | TopBackRight
    | BackLeftCenter | BackRightCenter
    | FrontLeftWide | FrontRightWide
    | FrontLeftHigh | FrontCenterHigh | FrontRightHigh
    | TopFrontLeftCenter | TopFrontRightCenter
    | TopSideLeft | TopSideRight
    | LeftLfe | RightLfe | Lfe2
    | BottomCenter | BottomLeftCenter | BottomRightCenter
    | MsMid | MsSide
    | AmbisonicW | AmbisonicX | AmbisonicY | AmbisonicZ
    | XyX | XyY
    | HeadphonesLeft | HeadphonesRight
    | ClickTrack | ForeignLanguage | HearingImpaired | Narration | Haptic
    | DialogCentricMix
    | Aux
    | Aux0 | Aux1 | Aux2 | Aux3 | Aux4 | Aux5 | Aux6 | Aux7
    | Aux8 | Aux9 | Aux10 | Aux11 | Aux12 | Aux13 | Aux14 | Aux15

  /** `SOUNDIO_MAX_CHANNELS`: the capacity of a layout's channel array. */
  const MaxChannels: int := 32

  /** `struct SoundIoChannelLayout`. The channel count is the length of
      `channels`; `name` is null for a layout that is not a built-in one. */
  datatype ChannelLayout = ChannelLayout(name: Option<string>, channels: seq<ChannelId>)

  predicate LayoutFits(l: ChannelLayout)
  {
    |l.channels| <= MaxChannels
  }

  function ChannelCount(l: ChannelLayout): int
  {
    |l.channels|
  }

  /** `soundio_channel_layout_equal`: same channels in the same order. */
  predicate LayoutEqual(a: ChannelLayout, b: ChannelLayout)
  {
    a.channels == b.channels
  }

  /** `struct SoundIoChannelArea`: where a channel's first sample of a
      block is, as a byte address, and the distance in bytes between its
      consecutive samples. */
  datatype ChannelArea = ChannelArea(ptr: int, step: int)

  /** `enum SoundIoFormat`. */
  datatype Format =
    | FormatInvalid
    | S8 | U8
    | S16LE | S16BE | U16LE | U16BE
    | S24LE | S24BE | U24LE | U24BE
    | S32LE | S32BE | U32LE | U32BE
    | Float32LE | Float32BE
    | Float64LE | Float64BE

  // The model fixes a little-endian host: the native-endian (`NE`) aliases
  // are the little-endian formats and the foreign-endian (`FE`) aliases the
  // big-endian ones.
  const S16NE: Format := S16LE
  const S16FE: Format := S16BE
  const U16NE: Format := U16LE
  const U16FE: Format := U16BE
  const S24NE: Format := S24LE
  const S24FE: Format := S24BE
  const U24NE: Format := U24LE
  const U24FE: Format := U24BE
  const S32NE: Format := S32LE
  const S32FE: Format := S32BE
  const U32NE: Format := U32LE
  const U32FE: Format := U32BE
  const Float32NE: Format := Float32LE
  const Float32FE: Format := Float32BE
  const Float64NE: Format := Float64LE
  const Float64FE: Format := Float64BE

  /** The number of significant bits of one sample, independent of how the
      sample is stored. */
  function SampleBits(f: Format): (bits: int)
    requires f != FormatInvalid
  {
    match f
    case S8 | U8 => 8
    case S16LE | S16BE | U16LE | U16BE => 16
    case S24LE | S24BE | U24LE | U24BE => 24
    case S32LE | S32BE | U32LE | U32BE | Float32LE | Float32BE => 32
    case Float64LE | Float64BE => 64
  }

  /** `soundio_get_bytes_per_sample`. An invalid format is a panic in the
      source, hence the precondition. 24-bit samples are stored in 4 bytes. */
  function BytesPerSample(f: Format): (n: int)
    requires f != FormatInvalid
    ensures n == 1 || n == 2 || n == 4 || n == 8
    ensures SampleBits(f) <= 8 * n
    ensures 8 * n < 2 * SampleBits(f)
  {
    match f
    case S8 | U8 => 1
    case S16LE | S16BE | U16LE | U16BE => 2
    case S24LE | S24BE | U24LE | U24BE => 4
    case S32LE | S32BE | U32LE | U32BE | Float32LE | Float32BE => 4
    case Float64LE | Float64BE => 8
  }

  /** The storage size is the smallest power-of-two byte count that holds
      all significant bits; it is exact for every width except 24. */
  lemma BytesPerSampleIsSmallestFit(f: Format)
    requires f != FormatInvalid
    ensures SampleBits(f) != 24 ==> 8 * BytesPerSample(f) == SampleBits(f)
    ensures SampleBits(f) == 24 ==> BytesPerSample(f) == 4
    ensures forall n :: n in {1, 2, 4, 8} && SampleBits(f) <= 8 * n ==> BytesPerSample(f) <= n
  {
  }

  /** `soundio_get_bytes_per_frame`: one sample per channel, interleaved. */
  function BytesPerFrame(f: Format, channelCount: int): (n: int)
    requires f != FormatInvalid
    requires channelCount >= 0
    ensures n >= channelCount
    ensures n == 0 <==> channelCount == 0
  {
    BytesPerSample(f) * channelCount
  }

  /** `soundio_get_bytes_per_second`: one frame per sample-rate tick. With
      no channels there are no bytes; otherwise the result is a whole number
      of frames, as many as the sample rate. */
  function BytesPerSecond(f: Format, channelCount: int, sampleRate: int): (n: int)
    requires f != FormatInvalid
    requires channelCount >= 0
    ensures channelCount == 0 ==> n == 0
    ensures channelCount > 0 ==> n % BytesPerFrame(f, channelCount) == 0
    ensures channelCount > 0 ==> n / BytesPerFrame(f, channelCount) == sampleRate
  {
    var bpf := BytesPerFrame(f, channelCount);
    if bpf == 0 then 0
    else
      MulDiv(sampleRate, bpf);
      bpf * sampleRate
  }

  lemma MulDiv(a: int, b: int)
    requires b > 0
    ensures (b * a) % b == 0 && (b * a) / b == a
  {
    Util.DivModUnique(b * a, b, a, 0);
  }

  /** Byte offset of channel `ch` of frame `frame` in an interleaved buffer:
      what a channel area with pointer `base + ch * bytes_per_sample` and step
      `bytes_per_frame` addresses for that frame. */
  function SampleOffset(f: Format, channelCount: int, frame: int, ch: int): int
    requires f != FormatInvalid && channelCount >= 0
  {
    ch * BytesPerSample(f) + frame * BytesPerFrame(f, channelCount)
  }

  /** Interleaving is a bijection: distinct (frame, channel) pairs get
      disjoint sample slots, and every slot of `frames` frames lies inside the
      `frames * bytes_per_frame` bytes those frames occupy. */
  lemma InterleavedSlotsDisjoint(f: Format, channelCount: int, frames: int,
                                 f1: int, c1: int, f2: int, c2: int)
    requires f != FormatInvalid && channelCount > 0
    requires 0 <= f1 < frames && 0 <= c1 < channelCount
    requires 0 <= f2 < frames && 0 <= c2 < channelCount
    requires (f1, c1) != (f2, c2)
    ensures SampleOffset(f, channelCount, f1, c1) + BytesPerSample(f) <= SampleOffset(f, channelCount, f2, c2)
         || SampleOffset(f, channelCount, f2, c2) + BytesPerSample(f) <= SampleOffset(f, channelCount, f1, c1)
    ensures 0 <= SampleOffset(f, channelCount, f1, c1)
    ensures SampleOffset(f, channelCount, f1, c1) + BytesPerSample(f) <= frames * BytesPerFrame(f, channelCount)
  {
    var bps := BytesPerSample(f);
    SlotsDisjoint(bps, channelCount, frames, f1, c1, f2, c2);
    SlotInside(bps, channelCount, frames, f1, c1);
  }

  lemma {:induction false} SlotsDisjoint(bps: int, n: int, frames: int, f1: int, c1: int, f2: int, c2: int)
    requires bps > 0 && n > 0
    requires 0 <= c1 < n && 0 <= c2 < n
    requires (f1, c1) != (f2, c2)
    ensures c1 * bps + f1 * (bps * n) + bps <= c2 * bps + f2 * (bps * n)
         || c2 * bps + f2 * (bps * n) + bps <= c1 * bps + f1 * (bps * n)
  {
    var s1 := f1 * n + c1;
    var s2 := f2 * n + c2;
    SlotOffset(bps, n, f1, c1);
    SlotOffset(bps, n, f2, c2);
    SlotUnique(n, f1, c1, f2, c2);
    if s1 < s2 {
      MulLe(s1 + 1, s2, bps);
    } else {
      MulLe(s2 + 1, s1, bps);
    }
  }

  lemma {:induction false} SlotInside(bps: int, n: int, frames: int, fr: int, ch: int)
    requires bps > 0 && n > 0
    requires 0 <= fr < frames && 0 <= ch < n
    ensures 0 <= ch * bps + fr * (bps * n)
    ensures ch * bps + fr * (bps * n) + bps <= frames * (bps * n)
  {
    var s := fr * n + ch;
    SlotOffset(bps, n, fr, ch);
    MulLe(fr + 1, frames, n);
    assert s + 1 <= frames * n;
    MulLe(s + 1, frames * n, bps);
    MulLe(0, s, bps);
    assert (frames * n) * bps == frames * (bps * n);
  }

  lemma SlotOffset(bps: int, n: int, fr: int, ch: int)
    ensures ch * bps + fr * (bps * n) == (fr * n + ch) * bps
  {
  }

  lemma MulLe(a: int, b: int, c: int)
    requires a <= b && c >= 0
    ensures a * c <= b * c
  {
  }

  lemma SlotUnique(n: int, f1: int, c1: int, f2: int, c2: int)
    requires n > 0 && 0 <= c1 < n && 0 <= c2 < n
    requires (f1, c1) != (f2, c2)
    ensures f1 * n + c1 != f2 * n + c2
  {
    if f1 == f2 {
    } else if f1 < f2 {
      MulLe(f1 + 1, f2, n);
    } else {
      MulLe(f2 + 1, f1, n);
    }
  }

  /** `layout_contains`: whether some available layout equals `target`. */
  method LayoutContains(available: seq<ChannelLayout>, target: ChannelLayout) returns (found: bool)
    ensures found <==> exists i :: 0 <= i < |available| && LayoutEqual(target, available[i])
  {
    var i := 0;
    while i < |available|
      invariant 0 <= i <= |available|
      invariant forall j :: 0 <= j < i ==> !LayoutEqual(target, available[j])
    {
      if LayoutEqual(target, available[i]) {
        return true;
      }
      i := i + 1;
    }
    return false;
  }

  /** `soundio_best_matching_channel_layout`: the index of the first
      preferred layout that some available layout equals, or none. */
  method BestMatchingChannelLayout(preferred: seq<ChannelLayout>, available: seq<ChannelLayout>)
    returns (best: Option<int>)
    ensures best.Some? ==> 0 <= best.value < |preferred|
    ensures best.Some? ==> exists j :: 0 <= j < |available| && LayoutEqual(preferred[best.value], available[j])
    ensures best.Some? ==> forall i :: 0 <= i < best.value ==>
              !(exists j :: 0 <= j < |available| && LayoutEqual(preferred[i], available[j]))
    ensures best.None? <==> forall i :: 0 <= i < |preferred| ==> !(exists j :: 0 <= j < |available| && LayoutEqual(preferred[i], available[j]))
  {
    var i := 0;
    while i < |preferred|
      invariant 0 <= i <= |preferred|
      invariant forall k :: 0 <= k < i ==> !(exists j :: 0 <= j < |available| && LayoutEqual(preferred[k], available[j]))
    {
      var found := LayoutContains(available, preferred[i]);
      if found {
        return Some(i);
      }
      i := i + 1;
    }
    return None;
  }

  /** Non-increasing channel count: the order `soundio_sort_channel_layouts`
      establishes (most channels first). */
  predicate SortedByChannelCount(s: seq<ChannelLayout>)
  {
    forall i, j :: 0 <= i < j < |s| ==> ChannelCount(s[i]) >= ChannelCount(s[j])
  }

  /** `compare_layouts`, as the comparator is evidently meant to work:
      negative when `a` has more channels, positive when fewer. */
  function CompareLayouts(a: ChannelLayout, b: ChannelLayout): (c: int)
    ensures c < 0 <==> ChannelCount(a) > ChannelCount(b)
    ensures c > 0 <==> ChannelCount(a) < ChannelCount(b)
  {
    if ChannelCount(a) > ChannelCount(b) then -1
    else if ChannelCount(a) < ChannelCount(b) then 1
    else 0
  }

  /** Inserts `x` into a list already sorted by `CompareLayouts`. */
  function {:induction false} InsertByChannelCount(x: ChannelLayout, s: seq<ChannelLayout>): (r: seq<ChannelLayout>)
    requires SortedByChannelCount(s)
    ensures SortedByChannelCount(r)
    ensures multiset(r) == multiset(s) + multiset{x}
    decreases |s|
  {
    if |s| == 0 then [x]
    else if CompareLayouts(x, s[0]) <= 0 then [x] + s
    else
      var rest := InsertByChannelCount(x, s[1..]);
      assert s == [s[0]] + s[1..];
      BoundedPermutation(s[0], s[1..], x, rest);
      [s[0]] + rest
  }

  /** A layout with at least as many channels as `x` and as every layout of
      `s` has at least as many as every layout of any rearrangement of
      `s` with `x` added. */
  lemma BoundedPermutation(top: ChannelLayout, s: seq<ChannelLayout>, x: ChannelLayout, rest: seq<ChannelLayout>)
    requires multiset(rest) == multiset(s) + multiset{x}
    requires ChannelCount(top) >= ChannelCount(x)
    requires forall k :: 0 <= k < |s| ==> ChannelCount(top) >= ChannelCount(s[k])
    ensures forall k :: 0 <= k < |rest| ==> ChannelCount(top) >= ChannelCount(rest[k])
  {
    forall k | 0 <= k < |rest|
      ensures ChannelCount(top) >= ChannelCount(rest[k])
    {
      assert rest[k] in multiset(rest);
      assert rest[k] in multiset(s) || rest[k] == x;
      if rest[k] != x {
        var m :| 0 <= m < |s| && s[m] == rest[k];
      }
    }
  }

  /** `soundio_sort_channel_layouts`: a null array is left alone; otherwise
      the layouts are reordered so channel counts never increase. `qsort` is
      not stable, so the order among equal counts is not specified; this
      model picks the insertion order. */
  function {:induction false} SortChannelLayouts(layouts: Option<seq<ChannelLayout>>): (r: Option<seq<ChannelLayout>>)
    ensures layouts.None? <==> r.None?
    ensures r.Some? ==> SortedByChannelCount(r.value)
    ensures r.Some? ==> multiset(r.value) == multiset(layouts.value)
    decreases if layouts.Some? then |layouts.value| + 1 else 0
  {
    match layouts
    case None => None
    case Some(s) =>
      if |s| == 0 then Some([])
      else
        var tail := SortChannelLayouts(Some(s[1..]));
        assert s == [s[0]] + s[1..];
        Some(InsertByChannelCount(s[0], tail.value))
  }

  /** `compare_layouts` as written casts each element pointer `qsort` hands
      it to a pointer-to-pointer and dereferences it, so it reads the first
      field of the array element — the layout's `name` pointer — as the
      address of the layout whose channel count it compares. The model takes
      the memory such a read reaches as a parameter `countAt`, which maps a
      name pointer to the integer stored where the channel count would be;
      a null name is a null dereference. */
  function CompareLayoutsAsWritten(a: ChannelLayout, b: ChannelLayout,
                                   countAt: string -> int): (c: Result<int>)
    ensures (a.name.None? || b.name.None?) <==> c.Err?
    ensures c.Ok? ==> (c.value < 0 <==> countAt(a.name.value) > countAt(b.name.value))
  {
    if a.name.None? || b.name.None? then Err(Error.Invalid)
    else if countAt(a.name.value) > countAt(b.name.value) then Ok(-1)
    else if countAt(a.name.value) < countAt(b.name.value) then Ok(1)
    else Ok(0)
  }

  /** The comparator as written never looks at the channels: two layouts
      with the same name pointer compare equal whatever their channel counts,
      so `qsort` may leave [mono, stereo] as it is although the intended order
      is stereo first. Layouts built by a backend from its own channel map,
      whose name is null, make it dereference null. */
  lemma CompareAsWrittenIgnoresChannelCount(countAt: string -> int)
    ensures var mono := ChannelLayout(Some("layout"), [FrontCenter]);
            var stereo := ChannelLayout(Some("layout"), [FrontLeft, FrontRight]);
            CompareLayoutsAsWritten(mono, stereo, countAt) == Ok(0)
            && CompareLayouts(mono, stereo) > 0
            && !SortedByChannelCount([mono, stereo])
    ensures CompareLayoutsAsWritten(ChannelLayout(None, [FrontLeft]),
                                    ChannelLayout(None, [FrontLeft, FrontRight]), countAt).Err?
  {
    var mono := ChannelLayout(Some("layout"), [FrontCenter]);
    var stereo := ChannelLayout(Some("layout"), [FrontLeft, FrontRight]);
    assert ChannelCount([mono, stereo][0]) < ChannelCount([mono, stereo][1]);
  }
}
