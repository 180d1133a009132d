/** Devices, device snapshots and device reference counting.

    A snapshot (`struct SoundIoDevicesInfo`) lists input and output devices
    and the index of the default device in each list. Devices are shared
    between snapshots and streams through reference counts; the model names
    each allocated device by a handle and keeps the counts of the devices
    still allocated in a map.
 */
module Devices {
  import opened Common
  import opened Channels

  datatype DeviceAim = AimInput | AimOutput

  /** The part of `struct SoundIoDevice` the backends fill in without
      floating point. */
  datatype Device = Device(
    id: string,
    name: string,
    aim: DeviceAim,
    isRaw: bool,
    layouts: seq<ChannelLayout>,
    currentLayout: ChannelLayout,
    formats: seq<Format>,
    currentFormat: Format,
    sampleRateMin: int,
    sampleRateMax: int,
    sampleRateCurrent: int)

  /** `struct SoundIoDevicesInfo`, over any representation of a device. */
  datatype DevicesInfo<D> = DevicesInfo(
    inputs: seq<D>,
    outputs: seq<D>,
    defaultInput: int,
    defaultOutput: int)

  /** The meaning the JACK and PulseAudio backends give a default index: an index into its list, or
      -1 when there is no default (in particular when the list is empty). */
  predicate DefaultIndexOk(index: int, length: int)
  {
    -1 <= index < length
  }

  predicate DefaultsOk<D>(info: DevicesInfo<D>)
  {
    DefaultIndexOk(info.defaultInput, |info.inputs|) && DefaultIndexOk(info.defaultOutput, |info.outputs|)
  }

  type Handle = nat

  /** Reference counts of the devices that are still allocated. */
  type RefCounts = map<Handle, int>

  predicate Live(rc: RefCounts)
  {
    forall h :: h in rc ==> rc[h] >= 1
  }

  function Count(rc: RefCounts, h: Handle): int
  {
    if h in rc then rc[h] else 0
  }

  /** `soundio_device_ref`. */
  function DeviceRef(rc: RefCounts, h: Handle): (r: RefCounts)
    requires h in rc
    ensures Count(r, h) == Count(rc, h) + 1
    ensures forall g :: g != h ==> Count(r, g) == Count(rc, g)
    ensures r.Keys == rc.Keys
    ensures Live(rc) ==> Live(r)
  {
    rc[h := rc[h] + 1]
  }

  datatype Unref = Unref(counts: RefCounts, freed: bool)

  /** `soundio_device_unref`: null is ignored; otherwise the count drops by
      one, the source asserts it stays non-negative, and the device is freed
      exactly when it reaches zero. */
  function DeviceUnref(rc: RefCounts, h: Option<Handle>): (r: Unref)
    requires h.Some? ==> h.value in rc && rc[h.value] >= 1
    ensures h.None? ==> r == Unref(rc, false)
    ensures h.Some? ==> Count(r.counts, h.value) == Count(rc, h.value) - 1
    ensures r.freed <==> h.Some? && rc[h.value] == 1
    ensures h.Some? ==> (h.value in r.counts <==> !r.freed)
    ensures forall g: Handle :: h != Some(g) ==> Count(r.counts, g) == Count(rc, g)
    ensures forall g: Handle :: h != Some(g) ==> (g in r.counts <==> g in rc)
    ensures Live(rc) ==> Live(r.counts)
  {
    match h
    case None => Unref(rc, false)
    case Some(d) =>
      if rc[d] == 1 then Unref(rc - {d}, true)
      else Unref(rc[d := rc[d] - 1], false)
  }

  /** Taking a reference and dropping it again leaves the counts as they were
      and frees nothing. */
  lemma RefThenUnref(rc: RefCounts, h: Handle)
    requires h in rc && Live(rc)
    ensures DeviceUnref(DeviceRef(rc, h), Some(h)) == Unref(rc, false)
  {
    var r := DeviceUnref(DeviceRef(rc, h), Some(h)).counts;
    assert forall g :: Count(r, g) == Count(rc, g);
    assert r.Keys == rc.Keys;
    assert forall g :: g in r ==> r[g] == rc[g] by {
      forall g | g in r
        ensures r[g] == rc[g]
      {
        assert Count(r, g) == Count(rc, g);
      }
    }
  }

  /** Unreferences every handle of `hs`, in order. */
  function {:induction false} UnrefAll(rc: RefCounts, hs: seq<Handle>): (r: RefCounts)
    requires Live(rc)
    requires forall h :: multiset(hs)[h] <= Count(rc, h)
    ensures Live(r)
    ensures forall h :: Count(r, h) == Count(rc, h) - multiset(hs)[h]
    decreases |hs|
  {
    if |hs| == 0 then rc
    else
      assert hs == [hs[0]] + hs[1..];
      assert multiset(hs)[hs[0]] >= 1;
      assert Count(rc, hs[0]) >= 1;
      var step := DeviceUnref(rc, Some(hs[0])).counts;
      assert forall h :: multiset(hs[1..])[h] <= Count(step, h) by {
        forall h
          ensures multiset(hs[1..])[h] <= Count(step, h)
        {
          assert multiset(hs)[h] == multiset(hs[1..])[h] + (if h == hs[0] then 1 else 0);
        }
      }
      var r := UnrefAll(step, hs[1..]);
      assert forall h :: Count(r, h) == Count(rc, h) - multiset(hs)[h] by {
        forall h
          ensures Count(r, h) == Count(rc, h) - multiset(hs)[h]
        {
          assert multiset(hs)[h] == multiset(hs[1..])[h] + (if h == hs[0] then 1 else 0);
        }
      }
      r
  }

  /** A snapshot holds one reference per listing of a device. */
  ghost predicate HoldsReferences(rc: RefCounts, info: DevicesInfo<Handle>)
  {
    forall h :: multiset(info.inputs + info.outputs)[h] <= Count(rc, h)
  }

  /** `soundio_destroy_devices_info`: null is ignored; otherwise every input
      device and then every output device is unreferenced exactly once. */
  function DestroyDevicesInfo(rc: RefCounts, info: Option<DevicesInfo<Handle>>): (r: RefCounts)
    requires Live(rc)
    requires info.Some? ==> HoldsReferences(rc, info.value)
    ensures Live(r)
    ensures info.None? ==> r == rc
    ensures info.Some? ==> forall h ::
      Count(r, h) == Count(rc, h) - multiset(info.value.inputs)[h] - multiset(info.value.outputs)[h]
  {
    match info
    case None => rc
    case Some(di) =>
      assert forall h :: multiset(di.inputs + di.outputs)[h] == multiset(di.inputs)[h] + multiset(di.outputs)[h];
      var afterInputs := UnrefAll(rc, di.inputs);
      UnrefAll(afterInputs, di.outputs)
  }

  /** A device no snapshot or stream references any more is freed: the
      devices left allocated after destroying a snapshot are exactly those
      that had references beyond the snapshot's. */
  lemma DestroyFreesExactlyUnshared(rc: RefCounts, info: DevicesInfo<Handle>, h: Handle)
    requires Live(rc) && HoldsReferences(rc, info)
    ensures h in DestroyDevicesInfo(rc, Some(info)) <==>
            Count(rc, h) > multiset(info.inputs)[h] + multiset(info.outputs)[h]
  {
    var r := DestroyDevicesInfo(rc, Some(info));
    assert Count(r, h) == Count(rc, h) - multiset(info.inputs)[h] - multiset(info.outputs)[h];
  }

  datatype Acquired = Acquired(device: Handle, counts: RefCounts)

  /** `soundio_get_input_device`: the listed device, with one more reference
      for the caller. The source asserts the index is in range. */
  function GetInputDevice(rc: RefCounts, info: DevicesInfo<Handle>, index: int): (r: Acquired)
    requires 0 <= index < |info.inputs|
    requires info.inputs[index] in rc
    ensures r.device == info.inputs[index]
    ensures Count(r.counts, r.device) == Count(rc, r.device) + 1
    ensures forall g :: g != r.device ==> Count(r.counts, g) == Count(rc, g)
  {
    var h := info.inputs[index];
    Acquired(h, DeviceRef(rc, h))
  }

  /** `soundio_get_output_device`. */
  function GetOutputDevice(rc: RefCounts, info: DevicesInfo<Handle>, index: int): (r: Acquired)
    requires 0 <= index < |info.outputs|
    requires info.outputs[index] in rc
    ensures r.device == info.outputs[index]
    ensures Count(r.counts, r.device) == Count(rc, r.device) + 1
    ensures forall g :: g != r.device ==> Count(r.counts, g) == Count(rc, g)
  {
    var h := info.outputs[index];
    Acquired(h, DeviceRef(rc, h))
  }

  /** A device handed out by `soundio_get_input_device` stays allocated when
      its snapshot is destroyed, until the caller drops its reference. */
  lemma AcquiredDeviceOutlivesSnapshot(rc: RefCounts, info: DevicesInfo<Handle>, index: int)
    requires Live(rc) && HoldsReferences(rc, info)
    requires 0 <= index < |info.inputs|
    requires info.inputs[index] in rc
    ensures var a := GetInputDevice(rc, info, index);
            HoldsReferences(a.counts, info)
            && a.device in DestroyDevicesInfo(a.counts, Some(info))
  {
    var a := GetInputDevice(rc, info, index);
    var h := a.device;
    assert h in multiset(info.inputs + info.outputs) by {
      assert (info.inputs + info.outputs)[index] == h;
    }
    assert Live(a.counts);
    assert HoldsReferences(a.counts, info) by {
      forall g
        ensures multiset(info.inputs + info.outputs)[g] <= Count(a.counts, g)
      {
      }
    }
    assert multiset(info.inputs + info.outputs)[h] == multiset(info.inputs)[h] + multiset(info.outputs)[h];
    DestroyFreesExactlyUnshared(a.counts, info, h);
  }
}
