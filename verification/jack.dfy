/** The JACK backend's device scan: the ports the server lists are grouped
    into one device per client, aim and physical-ness, each device listing
    at most 32 ports, and the snapshot is published for the next flush.

    The server's port list, each port's type and flags, the sample rate and
    the default layouts (`getDefault`) are inputs. The JACK backend targets
    the older device API, where a device has a `name` (the identifier,
    `Device.id` here) and a `description` (`Device.name` here).
 */
module Jack {
  import opened Common
  import opened Channels
  import opened Devices
  import Snapshot
  import Util

  /** A port of `jack_get_ports`: its full `client:port` name, whether its
      type is the default audio type, and its `JackPortIsInput` and
      `JackPortIsPhysical` flags. */
  datatype Port = Port(fullName: string, isAudio: bool, isInput: bool, isPhysical: bool)

  /** What identifies a client (`find_or_create_client`). */
  datatype Key = Key(aim: DeviceAim, isPhysical: bool, name: string)

  /** `struct SoundIoJackClient`: the client's key and its port names. */
  datatype Client = Client(key: Key, ports: seq<string>)

  /** `split_str`: the text before and after the first `c`, or nothing
      when `c` does not occur. */
  function SplitStr(s: string, c: char): (r: Option<(string, string)>)
    ensures r.None? <==> c !in s
    ensures r.Some? ==> r.value.0 + [c] + r.value.1 == s && c !in r.value.0
    ensures r.Some? ==> |r.value.0| + 1 + |r.value.1| == |s|
    decreases |s|
  {
    if |s| == 0 then None
    else if s[0] == c then Some(([], s[1..]))
    else
      match SplitStr(s[1..], c)
      case None => None
      case Some(parts) => Some(([s[0]] + parts.0, parts.1))
  }

  /** Splitting a name put together around its first `c` gives the parts
      back. */
  lemma {:induction false} SplitStrRoundTrip(a: string, b: string, c: char)
    requires c !in a
    ensures SplitStr(a + [c] + b, c) == Some((a, b))
    decreases |a|
  {
    if |a| == 0 {
      assert a + [c] + b == [c] + b;
      assert ([c] + b)[1..] == b;
    } else {
      SplitStrRoundTrip(a[1..], b, c);
      assert (a + [c] + b)[1..] == a[1..] + [c] + b;
      assert [a[0]] + a[1..] == a;
    }
  }

  /** `eql_str`: lengths first, then the bytes. */
  function EqlStr(a: string, b: string): (r: bool)
    ensures r <==> a == b
  {
    |a| == |b| && forall i :: 0 <= i < |a| ==> a[i] == b[i]
  }

  /** A port feeds an output device when it takes input, an input device
      otherwise; ports of other types, and names without a colon, are not
      used. */
  datatype Parsed = Parsed(key: Key, port: string)

  function Parse(p: Port): (r: Option<Parsed>)
    ensures r.Some? ==> p.isAudio && r.value.key.isPhysical == p.isPhysical
    ensures r.Some? ==> (r.value.key.aim == AimOutput <==> p.isInput)
    ensures r.Some? ==> r.value.key.name + [':'] + r.value.port == p.fullName && ':' !in r.value.key.name
    ensures r.None? <==> !p.isAudio || ':' !in p.fullName
  {
    if !p.isAudio then None
    else
      match SplitStr(p.fullName, ':')
      case None => None
      case Some(parts) => Some(Parsed(Key(if p.isInput then AimOutput else AimInput, p.isPhysical, parts.0), parts.1))
  }

  predicate KeysUnique(clients: seq<Client>)
  {
    forall i, j :: 0 <= i < j < |clients| ==> clients[i].key != clients[j].key
  }

  predicate HasClient(clients: seq<Client>, k: Key)
  {
    exists i :: 0 <= i < |clients| && clients[i].key == k
  }

  /** The first client with key `k`, or -1. */
  function FindClient(clients: seq<Client>, k: Key): (i: int)
    ensures -1 <= i < |clients|
    ensures i == -1 <==> !HasClient(clients, k)
    ensures i >= 0 ==> clients[i].key == k && forall j :: 0 <= j < i ==> clients[j].key != k
    decreases |clients|
  {
    if |clients| == 0 then -1
    else if clients[0].key == k then 0
    else
      var j := FindClient(clients[1..], k);
      if j == -1 then
        assert forall m :: 1 <= m < |clients| ==> clients[m] == clients[1..][m - 1];
        -1
      else j + 1
  }

  /** `find_or_create_client`: the client with key `k` if there is one,
      otherwise a new client with no ports appended to the list. */
  function FindOrCreateClient(clients: seq<Client>, k: Key): (r: (seq<Client>, nat))
    ensures r.1 < |r.0| && r.0[r.1].key == k
    ensures HasClient(clients, k) ==> r.0 == clients
    ensures !HasClient(clients, k) ==> r.0 == clients + [Client(k, [])] && r.1 == |clients|
    ensures KeysUnique(clients) ==> KeysUnique(r.0)
  {
    var i := FindClient(clients, k);
    if i >= 0 then (clients, i) else (clients + [Client(k, [])], |clients|)
  }

  /** The client list after one port is taken in: a used port joins its
      client, unless the client already has the most ports a device can
      have. */
  function AddPort(clients: seq<Client>, p: Port): seq<Client>
  {
    match Parse(p)
    case None => clients
    case Some(parsed) =>
      var (cs, i) := FindOrCreateClient(clients, parsed.key);
      if |cs[i].ports| >= MaxChannels then cs
      else cs[i := cs[i].(ports := cs[i].ports + [parsed.port])]
  }

  /** The ports skipped by `refresh_devices`'s scan: other types, no colon,
      or a client already full. */
  predicate Skipped(clients: seq<Client>, p: Port)
  {
    match Parse(p)
    case None => true
    case Some(parsed) =>
      var (cs, i) := FindOrCreateClient(clients, parsed.key);
      |cs[i].ports| >= MaxChannels
  }

  /** The scan's position in the port list and the clients found so far. */
  datatype ScanState = ScanState(pos: nat, clients: seq<Client>)

  /** One pass of the scan loop as written: the three `continue`s skip to
      the next iteration without moving to the next port name. */
  function ScanStepAsWritten(st: ScanState, ports: seq<Port>): (r: ScanState)
    requires st.pos < |ports|
    ensures Skipped(st.clients, ports[st.pos]) ==> r == st
    ensures !Skipped(st.clients, ports[st.pos]) ==> r.pos == st.pos + 1
  {
    var p := ports[st.pos];
    if Skipped(st.clients, p) then st
    else ScanState(st.pos + 1, AddPort(st.clients, p))
  }

  /** The scan loop as written, for at most `fuel` passes. */
  function ScanAsWritten(st: ScanState, ports: seq<Port>, fuel: nat): ScanState
    decreases fuel
  {
    if fuel == 0 || st.pos >= |ports| then st
    else ScanAsWritten(ScanStepAsWritten(st, ports), ports, fuel - 1)
  }

  /** A skipped port is never left behind: however many passes the loop
      makes, it stays on that port, so the scan does not end. */
  lemma {:induction false} SkippedPortStallsScan(st: ScanState, ports: seq<Port>, fuel: nat)
    requires st.pos < |ports| && Skipped(st.clients, ports[st.pos])
    ensures ScanAsWritten(st, ports, fuel) == st
    decreases fuel
  {
    if fuel > 0 {
      SkippedPortStallsScan(st, ports, fuel - 1);
    }
  }

  /** A single MIDI port, as every JACK server with a MIDI device lists,
      is enough. */
  lemma MidiPortStallsScan(fuel: nat)
    ensures var ports := [Port("system:midi_capture_1", false, false, true)];
            ScanAsWritten(ScanState(0, []), ports, fuel) == ScanState(0, [])
  {
    SkippedPortStallsScan(ScanState(0, []), [Port("system:midi_capture_1", false, false, true)], fuel);
  }

  /** The scan with every port, skipped or not, advancing to the next. */
  function Collect(ports: seq<Port>): seq<Client>
    decreases |ports|
  {
    if |ports| == 0 then [] else AddPort(Collect(ports[..|ports| - 1]), ports[|ports| - 1])
  }

  /** The corrected scan loop, one port per pass. */
  method ScanPorts(ports: seq<Port>) returns (clients: seq<Client>)
    ensures clients == Collect(ports)
    ensures ClientsFaithful(clients, ports)
  {
    clients := [];
    var pos := 0;
    while pos < |ports|
      invariant 0 <= pos <= |ports|
      invariant clients == Collect(ports[..pos])
      invariant ClientsFaithful(clients, ports[..pos])
    {
      assert ports[..pos + 1][..pos] == ports[..pos];
      assert ports[..pos + 1] == ports[..pos] + [ports[pos]];
      AddPortKeepsFaithful(clients, ports[..pos], ports[pos]);
      clients := AddPort(clients, ports[pos]);
      pos := pos + 1;
    }
    assert ports[..pos] == ports;
  }

  /** The names, in listed order, of the ports that belong to client `k`. */
  function PortsOf(ports: seq<Port>, k: Key): seq<string>
    decreases |ports|
  {
    if |ports| == 0 then []
    else
      var last := Parse(ports[|ports| - 1]);
      PortsOf(ports[..|ports| - 1], k) + (if last.Some? && last.value.key == k then [last.value.port] else [])
  }

  lemma {:induction false} PortsOfHasPort(ports: seq<Port>, k: Key)
    requires PortsOf(ports, k) != []
    ensures exists j :: 0 <= j < |ports| && Parse(ports[j]).Some? && Parse(ports[j]).value.key == k
    decreases |ports|
  {
    var last := Parse(ports[|ports| - 1]);
    if !(last.Some? && last.value.key == k) {
      PortsOfHasPort(ports[..|ports| - 1], k);
      var j :| 0 <= j < |ports| - 1 && Parse(ports[..|ports| - 1][j]).Some? && Parse(ports[..|ports| - 1][j]).value.key == k;
      assert ports[..|ports| - 1][j] == ports[j];
    }
  }

  /** At most the first 32 of a list. */
  function Take(xs: seq<string>): seq<string>
  {
    xs[..Util.Min(MaxChannels, |xs|)]
  }

  /** The clients stand for the ports exactly: one client per key, every
      client holding the first 32 (at most) of its ports in listed order
      and at least one, and every used port's client present. */
  predicate ClientsFaithful(clients: seq<Client>, ports: seq<Port>)
  {
    && KeysUnique(clients)
    && (forall i :: 0 <= i < |clients| ==>
          clients[i].ports == Take(PortsOf(ports, clients[i].key)) && |clients[i].ports| > 0)
    && (forall j :: 0 <= j < |ports| && Parse(ports[j]).Some? ==> HasClient(clients, Parse(ports[j]).value.key))
  }

  lemma PortsOfSnoc(ports: seq<Port>, p: Port, k: Key)
    ensures PortsOf(ports + [p], k)
         == PortsOf(ports, k) + (if Parse(p).Some? && Parse(p).value.key == k then [Parse(p).value.port] else [])
  {
    assert (ports + [p])[..|ports|] == ports;
  }

  /** Taking in a port keeps the clients faithful to the ports seen. */
  lemma AddPortKeepsFaithful(clients: seq<Client>, ports: seq<Port>, p: Port)
    requires ClientsFaithful(clients, ports)
    ensures ClientsFaithful(AddPort(clients, p), ports + [p])
  {
    if Parse(p).None? {
      forall k | true
        ensures PortsOf(ports + [p], k) == PortsOf(ports, k)
      {
        PortsOfSnoc(ports, p, k);
      }
      assert forall j :: 0 <= j < |ports| ==> (ports + [p])[j] == ports[j];
    } else {
      AddUsedKeys(clients, p);
      AddUsedPorts(clients, ports, p);
      AddUsedCovers(clients, ports, p);
    }
  }

  /** A used port changes no key, and adds its own if it was missing. */
  lemma AddUsedKeys(clients: seq<Client>, p: Port)
    requires KeysUnique(clients) && Parse(p).Some?
    ensures var r := AddPort(clients, p);
            var (cs, i) := FindOrCreateClient(clients, Parse(p).value.key);
            && |r| == |cs| && KeysUnique(r) && r[i].key == Parse(p).value.key
            && (forall m :: 0 <= m < |r| ==> r[m].key == cs[m].key)
            && (forall m :: 0 <= m < |r| && m != i ==> r[m] == cs[m])
            && (forall m :: 0 <= m < |clients| ==> cs[m] == clients[m])
  {
  }

  lemma AddUsedPorts(clients: seq<Client>, ports: seq<Port>, p: Port)
    requires ClientsFaithful(clients, ports) && Parse(p).Some?
    ensures var r := AddPort(clients, p);
            forall m :: 0 <= m < |r| ==> r[m].ports == Take(PortsOf(ports + [p], r[m].key)) && |r[m].ports| > 0
  {
    var r := AddPort(clients, p);
    var (cs, i) := FindOrCreateClient(clients, Parse(p).value.key);
    AddUsedKeys(clients, p);
    AddUsedPortJoins(clients, ports, p);
    forall m | 0 <= m < |r| && m != i
      ensures r[m].ports == Take(PortsOf(ports + [p], r[m].key)) && |r[m].ports| > 0
    {
      PortsOfSnoc(ports, p, r[m].key);
    }
  }

  /** The client a used port joins lists it, unless the client was full. */
  lemma AddUsedPortJoins(clients: seq<Client>, ports: seq<Port>, p: Port)
    requires ClientsFaithful(clients, ports) && Parse(p).Some?
    ensures var r := AddPort(clients, p);
            var (cs, i) := FindOrCreateClient(clients, Parse(p).value.key);
            i < |r| && r[i].ports == Take(PortsOf(ports + [p], r[i].key)) && |r[i].ports| > 0
  {
    var parsed := Parse(p).value;
    var k := parsed.key;
    var (cs, i) := FindOrCreateClient(clients, k);
    PortsOfSnoc(ports, p, k);
    if !HasClient(clients, k) && PortsOf(ports, k) != [] {
      PortsOfHasPort(ports, k);
      assert false;
    }
    assert cs[i].ports == Take(PortsOf(ports, k));
    if |cs[i].ports| >= MaxChannels {
      assert Take(PortsOf(ports + [p], k)) == Take(PortsOf(ports, k));
    } else {
      assert Take(PortsOf(ports + [p], k)) == Take(PortsOf(ports, k)) + [parsed.port];
    }
  }

  lemma AddUsedCovers(clients: seq<Client>, ports: seq<Port>, p: Port)
    requires ClientsFaithful(clients, ports) && Parse(p).Some?
    ensures var r := AddPort(clients, p);
            forall j :: 0 <= j < |ports + [p]| && Parse((ports + [p])[j]).Some? ==>
              HasClient(r, Parse((ports + [p])[j]).value.key)
  {
    var r := AddPort(clients, p);
    var (cs, i) := FindOrCreateClient(clients, Parse(p).value.key);
    AddUsedKeys(clients, p);
    forall j | 0 <= j < |ports + [p]| && Parse((ports + [p])[j]).Some?
      ensures HasClient(r, Parse((ports + [p])[j]).value.key)
    {
      if j < |ports| {
        assert (ports + [p])[j] == ports[j];
        var m :| 0 <= m < |clients| && clients[m].key == Parse(ports[j]).value.key;
        assert r[m].key == clients[m].key;
      } else {
        assert r[i].key == Parse(p).value.key;
      }
    }
  }

  /** The corrected scan: each (client name, aim, physical) triple of the
      used ports becomes exactly one client, which lists the first 32 of
      its ports in the server's order. */
  lemma {:induction false} CollectGroupsPorts(ports: seq<Port>)
    ensures ClientsFaithful(Collect(ports), ports)
    ensures forall i :: 0 <= i < |Collect(ports)| ==> 1 <= |Collect(ports)[i].ports| <= MaxChannels
    decreases |ports|
  {
    if |ports| > 0 {
      var init := ports[..|ports| - 1];
      CollectGroupsPorts(init);
      assert init + [ports[|ports| - 1]] == ports;
      AddPortKeepsFaithful(Collect(init), init, ports[|ports| - 1]);
    }
  }

  /** The port names joined with ", ", as the description lists them. */
  function Join(names: seq<string>): seq<char>
    decreases |names|
  {
    if |names| == 0 then []
    else if |names| == 1 then names[0]
    else Join(names[..|names| - 1]) + ", " + names[|names| - 1]
  }

  function SumLens(names: seq<string>): nat
    decreases |names|
  {
    if |names| == 0 then 0 else SumLens(names[..|names| - 1]) + |names[|names| - 1]|
  }

  /** A device's description: the client name, ": ", then its ports. */
  function Describe(c: Client): (d: string)
    ensures Util.StartsWith(d, c.key.name + ": ")
  {
    c.key.name + ": " + Join(c.ports)
  }

  /** The size `refresh_devices` allocates for a description. */
  function DescriptionAlloc(c: Client): int
  {
    |c.key.name| + 3 + 2 * |c.ports| + SumLens(c.ports)
  }

  lemma {:induction false} JoinLength(names: seq<string>)
    requires |names| > 0
    ensures |Join(names)| == SumLens(names) + 2 * (|names| - 1)
    decreases |names|
  {
    if |names| > 1 {
      JoinLength(names[..|names| - 1]);
    } else {
      assert names[..0] == [];
    }
  }

  /** The allocation for the description is three bytes longer than the
      text written into it: room for the terminating NUL, with two bytes to
      spare. */
  lemma DescriptionFits(c: Client)
    requires |c.ports| > 0
    ensures |Describe(c)| + 3 == DescriptionAlloc(c)
  {
    JoinLength(c.ports);
  }

  /** The current layout as written: the default layout for the port count
      if there is one; otherwise the unknown channels are written, but the
      layout's channel count stays at the zero it was created with. */
  function JackLayoutAsWritten(portCount: nat, getDefault: int -> Option<ChannelLayout>): (l: ChannelLayout)
    ensures getDefault(portCount).Some? ==> l == getDefault(portCount).value
    ensures getDefault(portCount).None? ==> |l.channels| == 0
  {
    if getDefault(portCount).Some? then getDefault(portCount).value else ChannelLayout(None, [])
  }

  /** A client with nine ports and no default layout for nine channels gets
      a layout with no channels. */
  lemma NoDefaultLayoutLosesChannels(getDefault: int -> Option<ChannelLayout>)
    requires getDefault(9).None?
    ensures |JackLayoutAsWritten(9, getDefault).channels| == 0 != 9
  {
  }

  /** The current layout with the channel count set to the port count, one
      unknown channel per port, when no default layout fits. */
  function JackLayout(portCount: nat, getDefault: int -> Option<ChannelLayout>): (l: ChannelLayout)
    ensures getDefault(portCount).Some? ==> l == getDefault(portCount).value
    ensures getDefault(portCount).None? ==>
              l.name.None? && |l.channels| == portCount
              && forall i :: 0 <= i < portCount ==> l.channels[i] == ChannelId.Invalid
  {
    if getDefault(portCount).Some? then getDefault(portCount).value
    else ChannelLayout(None, seq(portCount, _ => ChannelId.Invalid))
  }

  /** The device of a client, with the corrected layout: its single layout
      and format, 32-bit native float, and the server's sample rate as its
      whole range. */
  function MakeDevice(c: Client, sampleRate: int, getDefault: int -> Option<ChannelLayout>): (d: Device)
    ensures d.id == c.key.name && d.name == Describe(c) && d.aim == c.key.aim && !d.isRaw
    ensures d.layouts == [d.currentLayout] && d.currentLayout == JackLayout(|c.ports|, getDefault)
    ensures d.formats == [d.currentFormat] && d.currentFormat == Float32NE
    ensures d.sampleRateMin == d.sampleRateMax == d.sampleRateCurrent == sampleRate
  {
    var layout := JackLayout(|c.ports|, getDefault);
    Device(c.key.name, Describe(c), c.key.aim, false, [layout], layout, [Float32NE], Float32NE,
           sampleRate, sampleRate, sampleRate)
  }

  /** The clients of one aim that have ports, in list order. */
  function OfAim(clients: seq<Client>, aim: DeviceAim): (r: seq<Client>)
    ensures forall i :: 0 <= i < |r| ==> r[i].key.aim == aim && |r[i].ports| > 0
    decreases |clients|
  {
    if |clients| == 0 then []
    else
      var c := clients[|clients| - 1];
      OfAim(clients[..|clients| - 1], aim) + (if c.key.aim == aim && |c.ports| > 0 then [c] else [])
  }

  /** The index of the first physical client, or -1. */
  function FirstPhysical(clients: seq<Client>): (i: int)
    ensures -1 <= i < |clients|
    ensures i == -1 <==> forall j :: 0 <= j < |clients| ==> !clients[j].key.isPhysical
    ensures i >= 0 ==> clients[i].key.isPhysical && forall j :: 0 <= j < i ==> !clients[j].key.isPhysical
    decreases |clients|
  {
    if |clients| == 0 then -1
    else
      var i := FirstPhysical(clients[..|clients| - 1]);
      if i >= 0 then i
      else if clients[|clients| - 1].key.isPhysical then |clients| - 1
      else -1
  }

  function MakeDevices(clients: seq<Client>, sampleRate: int, getDefault: int -> Option<ChannelLayout>)
    : (r: seq<Device>)
    ensures |r| == |clients|
    ensures forall i :: 0 <= i < |r| ==> r[i] == MakeDevice(clients[i], sampleRate, getDefault)
  {
    seq(|clients|, i requires 0 <= i < |clients| => MakeDevice(clients[i], sampleRate, getDefault))
  }

  /** The device loop of `refresh_devices`: clients without ports are
      skipped, each other client's device goes to the list of its aim, and
      the first physical device of each list becomes its default. */
  function BuildInfo(clients: seq<Client>, sampleRate: int, getDefault: int -> Option<ChannelLayout>)
    : DevicesInfo<Device>
    decreases |clients|
  {
    if |clients| == 0 then DevicesInfo([], [], -1, -1)
    else
      var acc := BuildInfo(clients[..|clients| - 1], sampleRate, getDefault);
      var c := clients[|clients| - 1];
      if |c.ports| <= 0 then acc
      else
        var d := MakeDevice(c, sampleRate, getDefault);
        if c.key.aim == AimOutput then
          acc.(outputs := acc.outputs + [d],
               defaultOutput := if acc.defaultOutput < 0 && c.key.isPhysical then |acc.outputs| else acc.defaultOutput)
        else
          acc.(inputs := acc.inputs + [d],
               defaultInput := if acc.defaultInput < 0 && c.key.isPhysical then |acc.inputs| else acc.defaultInput)
  }

  /** Each list holds the devices of that aim's clients, in client order,
      and its default is the first physical one, or -1 when none is. */
  function ListOf(info: DevicesInfo<Device>, aim: DeviceAim): seq<Device>
  {
    if aim == AimOutput then info.outputs else info.inputs
  }

  function DefaultOf(info: DevicesInfo<Device>, aim: DeviceAim): int
  {
    if aim == AimOutput then info.defaultOutput else info.defaultInput
  }

  lemma MakeDevicesSnoc(cs: seq<Client>, c: Client, sampleRate: int, getDefault: int -> Option<ChannelLayout>)
    ensures MakeDevices(cs + [c], sampleRate, getDefault)
         == MakeDevices(cs, sampleRate, getDefault) + [MakeDevice(c, sampleRate, getDefault)]
  {
  }

  lemma FirstPhysicalSnoc(cs: seq<Client>, c: Client)
    ensures FirstPhysical(cs + [c])
         == if FirstPhysical(cs) >= 0 then FirstPhysical(cs) else if c.key.isPhysical then |cs| else -1
  {
    assert (cs + [c])[..|cs|] == cs;
  }

  /** One step of the device loop, seen from the list of one aim. */
  lemma BuildInfoStep(clients: seq<Client>, aim: DeviceAim, sampleRate: int,
                      getDefault: int -> Option<ChannelLayout>)
    requires |clients| > 0
    ensures var init := clients[..|clients| - 1];
            var c := clients[|clients| - 1];
            var before := BuildInfo(init, sampleRate, getDefault);
            var after := BuildInfo(clients, sampleRate, getDefault);
            if c.key.aim == aim && |c.ports| > 0 then
              && ListOf(after, aim) == ListOf(before, aim) + [MakeDevice(c, sampleRate, getDefault)]
              && DefaultOf(after, aim)
                 == if DefaultOf(before, aim) < 0 && c.key.isPhysical then |ListOf(before, aim)| else DefaultOf(before, aim)
            else ListOf(after, aim) == ListOf(before, aim) && DefaultOf(after, aim) == DefaultOf(before, aim)
  {
  }

  /** Each list holds the devices of that aim's clients, in client order,
      and its default is the first physical one, or -1 when none is. */
  lemma {:induction false} BuildInfoLists(clients: seq<Client>, aim: DeviceAim, sampleRate: int,
                                          getDefault: int -> Option<ChannelLayout>)
    ensures var r := BuildInfo(clients, sampleRate, getDefault);
            && ListOf(r, aim) == MakeDevices(OfAim(clients, aim), sampleRate, getDefault)
            && DefaultOf(r, aim) == FirstPhysical(OfAim(clients, aim))
    decreases |clients|
  {
    if |clients| > 0 {
      BuildInfoLists(clients[..|clients| - 1], aim, sampleRate, getDefault);
      BuildInfoListsStep(clients, aim, sampleRate, getDefault);
    }
  }

  /** The inductive step of `BuildInfoLists`: what holds for all clients but
      the last holds once the last is added. */
  lemma BuildInfoListsStep(clients: seq<Client>, aim: DeviceAim, sampleRate: int,
                           getDefault: int -> Option<ChannelLayout>)
    requires |clients| > 0
    requires var init := BuildInfo(clients[..|clients| - 1], sampleRate, getDefault);
             && ListOf(init, aim) == MakeDevices(OfAim(clients[..|clients| - 1], aim), sampleRate, getDefault)
             && DefaultOf(init, aim) == FirstPhysical(OfAim(clients[..|clients| - 1], aim))
    ensures var r := BuildInfo(clients, sampleRate, getDefault);
            && ListOf(r, aim) == MakeDevices(OfAim(clients, aim), sampleRate, getDefault)
            && DefaultOf(r, aim) == FirstPhysical(OfAim(clients, aim))
  {
    var init := clients[..|clients| - 1];
    var c := clients[|clients| - 1];
    BuildInfoStep(clients, aim, sampleRate, getDefault);
    var before := OfAim(init, aim);
    if c.key.aim == aim && |c.ports| > 0 {
      assert OfAim(clients, aim) == before + [c];
      MakeDevicesSnoc(before, c, sampleRate, getDefault);
      FirstPhysicalSnoc(before, c);
    } else {
      assert OfAim(clients, aim) == before + [];
      assert before + [] == before;
    }
  }

  /** `refresh_devices` with the scan corrected: the ports are grouped,
      the snapshot built and published as the ready one, replacing (and
      destroying) any snapshot still waiting. */
  function RefreshDevices(slots: Snapshot.Slots<DevicesInfo<Device>>, ports: seq<Port>, sampleRate: int,
                          getDefault: int -> Option<ChannelLayout>): (r: Snapshot.Step<DevicesInfo<Device>>)
    ensures r.slots.ready.Some? && r.slots.safe == slots.safe
    ensures DefaultsOk(r.slots.ready.value)
    ensures var info := r.slots.ready.value;
            && |info.outputs| == |OfAim(Collect(ports), AimOutput)|
            && |info.inputs| == |OfAim(Collect(ports), AimInput)|
            && (info.defaultOutput >= 0 <==> exists i :: 0 <= i < |OfAim(Collect(ports), AimOutput)|
                                                     && OfAim(Collect(ports), AimOutput)[i].key.isPhysical)
            && (info.defaultInput >= 0 <==> exists i :: 0 <= i < |OfAim(Collect(ports), AimInput)|
                                                    && OfAim(Collect(ports), AimInput)[i].key.isPhysical)
    ensures r.events == Snapshot.DestroyOpt(slots.ready)
  {
    var clients := Collect(ports);
    BuildInfoLists(clients, AimOutput, sampleRate, getDefault);
    BuildInfoLists(clients, AimInput, sampleRate, getDefault);
    assert DefaultsOk(BuildInfo(clients, sampleRate, getDefault));
    Snapshot.Publish(slots, BuildInfo(clients, sampleRate, getDefault))
  }
}
