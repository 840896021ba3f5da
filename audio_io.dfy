/** Device lookup, sample-rate negotiation and the two stream callbacks of one
    duplex route: the capture callback runs the processor chain and queues the
    block, the render callback takes the oldest block and copies it out. */
module AudioIo {
  import opened Common
  import opened Names
  import opened Processor

  /** Capacity, in blocks, of the channel between the capture and render callbacks. */
  const HandoffCapacity: nat := 1024

  /** One supported stream configuration range a device reports. */
  datatype SupportedRange = SupportedRange(channels: nat, minRate: nat, maxRate: nat)

  /** A device as the host enumerates it. `name` is `None` when the name cannot be
      read; a configuration list is `None` when querying it fails. */
  datatype Device = Device(
    name: Option<string>,
    inputConfigs: Option<seq<SupportedRange>>,
    outputConfigs: Option<seq<SupportedRange>>)

  /** The host's capture and render device enumerations, in host order. */
  datatype Host = Host(inputDevices: seq<Device>, outputDevices: seq<Device>)

  /** The stream configuration handed to the device: channel count and sample rate. */
  datatype StreamConfig = StreamConfig(channels: nat, sampleRate: nat)

  /** The index of the chosen range and the configuration built from it. */
  datatype Negotiated = Negotiated(selected: nat, config: StreamConfig)

  /** Which "no supported configuration" message was raised. */
  datatype ConfigScope = InputSide | OutputSide | AnySide

  datatype AudioError =
    | DeviceNotFound(name: string)
    | ConfigQueryFailed(input: bool)
    | NoSupportedConfig(scope: ConfigScope)

  /** What a successfully built route holds: the chosen devices, the configurations
      negotiated for them, and the requested rate and buffer size as given. */
  datatype Route = Route(
    inputDevice: nat,
    outputDevice: nat,
    inputConfig: StreamConfig,
    outputConfig: StreamConfig,
    sampleRate: nat,
    bufferSize: nat)

  // ---------------------------------------------------------------------------
  // Device lookup
  // ---------------------------------------------------------------------------

  predicate NameMatches(d: Device, query: string) {
    d.name.Some? && Contains(d.name.value, query)
  }

  function Devices(host: Host, input: bool): seq<Device> {
    if input then host.inputDevices else host.outputDevices
  }

  /** The first device of the direction, in enumeration order, whose readable name
      contains `name`; devices whose name cannot be read are skipped. */
  function FindDeviceByName(host: Host, name: string, input: bool): (r: Result<nat, AudioError>)
    ensures r.Ok? ==> r.value < |Devices(host, input)| && NameMatches(Devices(host, input)[r.value], name)
    ensures r.Ok? ==> forall j :: 0 <= j < r.value ==> !NameMatches(Devices(host, input)[j], name)
    ensures r.Err? <==> forall j :: 0 <= j < |Devices(host, input)| ==> !NameMatches(Devices(host, input)[j], name)
    ensures r.Err? ==> r.error == DeviceNotFound(name)
  {
    match FindIndex(Devices(host, input), (d: Device) => NameMatches(d, name))
    case Some(k) => Ok(k)
    case None => Err(DeviceNotFound(name))
  }

  // ---------------------------------------------------------------------------
  // Rate negotiation
  // ---------------------------------------------------------------------------

  /** The range's closed interval [minRate, maxRate] holds `rate`. */
  predicate Supports(range: SupportedRange, rate: nat) {
    range.maxRate >= rate && range.minRate <= rate
  }

  /** The negotiation rule both sides use: the first range holding the requested
      rate, else the first range; the requested rate if the chosen range holds it,
      else that range's maximum. No ranges, no configuration. */
  function Negotiate(configs: seq<SupportedRange>, rate: nat): (r: Option<Negotiated>)
    ensures r.None? <==> configs == []
    ensures r.Some? ==> r.value.selected < |configs|
    ensures r.Some? ==> r.value.config.channels == configs[r.value.selected].channels
  {
    if configs == [] then None
    else
      var k := match FindIndex(configs, (c: SupportedRange) => Supports(c, rate))
               case Some(i) => i
               case None => 0;
      var chosen := configs[k];
      var target := if Supports(chosen, rate) then rate else chosen.maxRate;
      Some(Negotiated(k, StreamConfig(chosen.channels, target)))
  }

  /** The chosen range is the first one holding the requested rate, or the first
      range when none does. */
  lemma NegotiateSelectsFirstSupporting(configs: seq<SupportedRange>, rate: nat)
    requires configs != []
    ensures var n := Negotiate(configs, rate).value;
              (Supports(configs[n.selected], rate) && forall j :: 0 <= j < n.selected ==> !Supports(configs[j], rate))
              || (n.selected == 0 && forall j :: 0 <= j < |configs| ==> !Supports(configs[j], rate))
  {
  }

  /** Unless the first range is malformed (min above max), the negotiated rate is the
      requested one exactly when some range holds it. */
  lemma NegotiatedRateIsRequestedIffSupported(configs: seq<SupportedRange>, rate: nat)
    requires configs != [] && configs[0].minRate <= configs[0].maxRate
    ensures Negotiate(configs, rate).value.config.sampleRate == rate <==>
              exists j :: 0 <= j < |configs| && Supports(configs[j], rate)
  {
  }

  /** The negotiated rate never exceeds the chosen range's maximum, and for a
      well-formed range it lies within the range. */
  lemma NegotiatedRateWithinSelectedRange(configs: seq<SupportedRange>, rate: nat)
    requires configs != []
    ensures var n := Negotiate(configs, rate).value;
              n.config.sampleRate <= configs[n.selected].maxRate
    ensures var n := Negotiate(configs, rate).value;
              configs[n.selected].minRate <= configs[n.selected].maxRate ==>
                configs[n.selected].minRate <= n.config.sampleRate
  {
  }

  /** When no range holds the requested rate, the first range is used at its maximum. */
  lemma UnsupportedRateFallsBack(configs: seq<SupportedRange>, rate: nat)
    requires configs != []
    requires forall j :: 0 <= j < |configs| ==> !Supports(configs[j], rate)
    ensures Negotiate(configs, rate) == Some(Negotiated(0, StreamConfig(configs[0].channels, configs[0].maxRate)))
  {
  }

  /** A single range [44100, 48000] asked for 96000 runs at 48000, without an error. */
  lemma NegotiationClampExample()
    ensures Negotiate([SupportedRange(2, 44100, 48000)], 96000) ==
              Some(Negotiated(0, StreamConfig(2, 48000)))
  {
    var configs := [SupportedRange(2, 44100, 48000)];
    assert !Supports(configs[0], 96000);
    UnsupportedRateFallsBack(configs, 96000);
  }

  function ConfigsFor(device: Device, input: bool): Option<seq<SupportedRange>> {
    if input then device.inputConfigs else device.outputConfigs
  }

  /** The configuration block of route construction for one side: a failed query
      and an empty range list are errors, otherwise the negotiated configuration. */
  function NegotiateStream(device: Device, input: bool, rate: nat): (r: Result<StreamConfig, AudioError>)
    ensures r.Ok? <==> ConfigsFor(device, input).Some? && ConfigsFor(device, input).value != []
    ensures r.Ok? ==> r.value == Negotiate(ConfigsFor(device, input).value, rate).value.config
  {
    match ConfigsFor(device, input)
    case None => Err(ConfigQueryFailed(input))
    case Some(configs) =>
      match Negotiate(configs, rate)
      case None => Err(NoSupportedConfig(if input then InputSide else OutputSide))
      case Some(n) => Ok(n.config)
  }

  /** The route's private configuration helper, with its own error message. */
  function GetSupportedConfig(device: Device, input: bool, rate: nat): (r: Result<StreamConfig, AudioError>)
    ensures ConfigsFor(device, input).None? ==> r == Err(ConfigQueryFailed(input))
    ensures ConfigsFor(device, input) == Some([]) ==> r == Err(NoSupportedConfig(AnySide))
    ensures ConfigsFor(device, input).Some? && ConfigsFor(device, input).value != [] ==>
              var n := Negotiate(ConfigsFor(device, input).value, rate).value;
              r == Ok(n.config) && n.config.channels == ConfigsFor(device, input).value[n.selected].channels
  {
    match ConfigsFor(device, input)
    case None => Err(ConfigQueryFailed(input))
    case Some(configs) =>
      match Negotiate(configs, rate)
      case None => Err(NoSupportedConfig(AnySide))
      case Some(n) => Ok(n.config)
  }

  /** The helper and the inline blocks agree: same configuration on success, and
      they fail on the same devices, only the message of an empty list differing. */
  lemma GetSupportedConfigMatchesInline(device: Device, input: bool, rate: nat)
    ensures GetSupportedConfig(device, input, rate).Ok? <==> NegotiateStream(device, input, rate).Ok?
    ensures GetSupportedConfig(device, input, rate).Ok? ==>
              GetSupportedConfig(device, input, rate) == NegotiateStream(device, input, rate)
    ensures NegotiateStream(device, input, rate).Err? && NegotiateStream(device, input, rate).error.ConfigQueryFailed? ==>
              GetSupportedConfig(device, input, rate) == NegotiateStream(device, input, rate)
  {
  }

  // ---------------------------------------------------------------------------
  // Route construction
  // ---------------------------------------------------------------------------

  /** Route construction up to starting the streams: input device, output device,
      input configuration, output configuration, the first failure aborting. */
  function CreateDuplexStream(host: Host, inputName: string, outputName: string, sampleRate: nat, bufferSize: nat)
    : (r: Result<Route, AudioError>)
    ensures r.Ok? ==> r.value.inputDevice < |host.inputDevices| && NameMatches(host.inputDevices[r.value.inputDevice], inputName)
    ensures r.Ok? ==> r.value.outputDevice < |host.outputDevices| && NameMatches(host.outputDevices[r.value.outputDevice], outputName)
    ensures r.Ok? ==> NegotiateStream(host.inputDevices[r.value.inputDevice], true, sampleRate) == Ok(r.value.inputConfig)
    ensures r.Ok? ==> NegotiateStream(host.outputDevices[r.value.outputDevice], false, sampleRate) == Ok(r.value.outputConfig)
    ensures r.Ok? ==> r.value.sampleRate == sampleRate && r.value.bufferSize == bufferSize
    ensures FindDeviceByName(host, inputName, true).Err? ==> r == Err(DeviceNotFound(inputName))
    ensures FindDeviceByName(host, inputName, true).Ok? && FindDeviceByName(host, outputName, false).Err? ==>
              r == Err(DeviceNotFound(outputName))
    ensures r.Ok? ==> r.value.inputDevice == FindDeviceByName(host, inputName, true).value
    ensures r.Ok? ==> r.value.outputDevice == FindDeviceByName(host, outputName, false).value
    ensures var input := FindDeviceByName(host, inputName, true);
            var output := FindDeviceByName(host, outputName, false);
              r.Ok? <==> input.Ok? && output.Ok?
                         && NegotiateStream(host.inputDevices[input.value], true, sampleRate).Ok?
                         && NegotiateStream(host.outputDevices[output.value], false, sampleRate).Ok?
    ensures var input := FindDeviceByName(host, inputName, true);
            var output := FindDeviceByName(host, outputName, false);
              input.Ok? && output.Ok? ==>
                var inputConfig := NegotiateStream(host.inputDevices[input.value], true, sampleRate);
                var outputConfig := NegotiateStream(host.outputDevices[output.value], false, sampleRate);
                  (inputConfig.Err? ==> r == Err(inputConfig.error))
                  && (inputConfig.Ok? && outputConfig.Err? ==> r == Err(outputConfig.error))
  {
    match FindDeviceByName(host, inputName, true)
    case Err(e) => Err(e)
    case Ok(i) =>
      match FindDeviceByName(host, outputName, false)
      case Err(e) => Err(e)
      case Ok(o) =>
        match NegotiateStream(host.inputDevices[i], true, sampleRate)
        case Err(e) => Err(e)
        case Ok(inputConfig) =>
          match NegotiateStream(host.outputDevices[o], false, sampleRate)
          case Err(e) => Err(e)
          case Ok(outputConfig) => Ok(Route(i, o, inputConfig, outputConfig, sampleRate, bufferSize))
  }

  /** The two sides are negotiated independently, so a route can come up with
      different capture and render rates: a microphone fixed at 44100 and
      speakers at 48000, asked for 48000. */
  lemma RouteRatesMayDiverge()
    ensures var mic := Device(Some("Mic"), Some([SupportedRange(1, 44100, 44100)]), None);
            var speakers := Device(Some("Speakers"), None, Some([SupportedRange(2, 48000, 48000)]));
            CreateDuplexStream(Host([mic], [speakers]), "Mic", "Speakers", 48000, 512) ==
              Ok(Route(0, 0, StreamConfig(1, 44100), StreamConfig(2, 48000), 48000, 512))
  {
    var mic := Device(Some("Mic"), Some([SupportedRange(1, 44100, 44100)]), None);
    var speakers := Device(Some("Speakers"), None, Some([SupportedRange(2, 48000, 48000)]));
    var host := Host([mic], [speakers]);
    assert StartsWith("Mic", "Mic") && StartsWith("Speakers", "Speakers");
    assert FindDeviceByName(host, "Mic", true) == Ok(0);
    assert FindDeviceByName(host, "Speakers", false) == Ok(0);
    UnsupportedRateFallsBack([SupportedRange(1, 44100, 44100)], 48000);
  }

  // ---------------------------------------------------------------------------
  // The handoff channel and the two callbacks
  // ---------------------------------------------------------------------------

  /** The bounded channel between the callbacks: a FIFO of sample blocks. */
  class HandoffQueue {
    var blocks: seq<seq<real>>
    const capacity: nat

    ghost predicate Valid()
      reads this
    {
      |blocks| <= capacity
    }

    constructor (capacity: nat)
      ensures Valid() && this.capacity == capacity && blocks == []
    {
      this.capacity := capacity;
      blocks := [];
    }

    /** A blocking send that has found room: the block joins the back. */
    method Send(block: seq<real>)
      requires Valid() && |blocks| < capacity
      modifies this
      ensures Valid() && blocks == old(blocks) + [block]
    {
      blocks := blocks + [block];
    }

    /** A non-blocking receive: the oldest block, or nothing when the channel is empty. */
    method TryRecv() returns (block: Option<seq<real>>)
      requires Valid()
      modifies this
      ensures Valid()
      ensures old(blocks) == [] ==> block == None && blocks == []
      ensures old(blocks) != [] ==> block == Some(old(blocks)[0]) && blocks == old(blocks)[1..]
    {
      if blocks == [] {
        block := None;
      } else {
        block := Some(blocks[0]);
        blocks := blocks[1..];
      }
    }
  }

  /** The hardware buffer after a block is copied in: the first
      `min(|block|, |data|)` samples come from the block, the rest stay as they were. */
  function RenderCopy(data: seq<real>, block: seq<real>): (r: seq<real>)
    ensures |r| == |data|
    ensures forall i :: 0 <= i < |r| && i < |block| ==> r[i] == block[i]
    ensures forall i :: |block| <= i < |r| ==> r[i] == data[i]
  {
    var n := if |block| < |data| then |block| else |data|;
    block[..n] + data[n..]
  }

  /** The block the capture callback queues: the captured samples after the chain
      ran on them, or untouched when the chain's lock could not be taken. A chain
      error is only logged; the block is sent as the chain left it. */
  function CapturedBlock(processors: seq<AudioProcessor>, data: seq<real>, lockAcquired: bool): (block: seq<real>)
    ensures |block| == |data|
  {
    if lockAcquired then RunChain(processors, data).buffer else data
  }

  /** A failing chain does not stop the block: it is queued with the changes of
      the processors before the first failing one, and nothing after it. */
  lemma CapturedBlockAfterFailure(processors: seq<AudioProcessor>, data: seq<real>, k: int)
    requires 0 <= k < |processors| && processors[k].Failing?
    requires forall j :: 0 <= j < k ==> !processors[j].Failing?
    ensures CapturedBlock(processors, data, true) == RunChain(processors[..k], data).buffer
    ensures RunChain(processors, data).outcome == Failure(processors[k].reason)
  {
    ChainFailsAtFirstFailing(processors, data);
  }

  /** The capture callback: copy the samples into a fresh buffer, run the chain on
      it under the lock, and send exactly that one block. */
  method CaptureCallback(queue: HandoffQueue, chain: ProcessorChain, data: seq<real>, lockAcquired: bool)
    requires queue.Valid() && |queue.blocks| < queue.capacity
    modifies queue
    ensures queue.Valid()
    ensures queue.blocks == old(queue.blocks) + [CapturedBlock(chain.processors, data, lockAcquired)]
  {
    var buffer := new real[|data|](i requires 0 <= i < |data| => data[i]);
    assert buffer[..] == data;
    if lockAcquired {
      var outcome := chain.Process(buffer);
    }
    queue.Send(buffer[..]);
  }

  /** The render callback: take the oldest block, if any, and copy as much of it as
      fits into the front of the hardware buffer; on an empty channel nothing changes. */
  method RenderCallback(queue: HandoffQueue, data: array<real>)
    requires queue.Valid()
    modifies queue, data
    ensures queue.Valid()
    ensures old(queue.blocks) == [] ==> queue.blocks == [] && data[..] == old(data[..])
    ensures old(queue.blocks) != [] ==>
              queue.blocks == old(queue.blocks)[1..] && data[..] == RenderCopy(old(data[..]), old(queue.blocks)[0])
  {
    var received := queue.TryRecv();
    if received.Some? {
      var block := received.value;
      var copyLen := if |block| < data.Length then |block| else data.Length;
      forall i | 0 <= i < copyLen {
        data[i] := block[i];
      }
      assert data[..] == RenderCopy(old(data[..]), block);
    }
  }

  /** With a pass-through chain, what the render callback writes is the captured
      audio itself, sample for sample, as far as both buffers reach. */
  lemma {:induction false} PassThroughRouteDeliversCapture(
    processors: seq<AudioProcessor>, captured: seq<real>, lockAcquired: bool, hardware: seq<real>, i: int)
    requires forall k :: 0 <= k < |processors| ==> processors[k] == PassThrough
    requires 0 <= i < |captured| && i < |hardware|
    ensures RenderCopy(hardware, CapturedBlock(processors, captured, lockAcquired))[i] == captured[i]
  {
    PassThroughChainIsIdentity(processors, captured);
  }

  /** Two captures then two renders: the blocks come out in capture order. */
  method HandoffKeepsOrder(first: seq<real>, second: seq<real>, out1: array<real>, out2: array<real>)
    requires |first| == out1.Length && |second| == out2.Length && out1 != out2
    modifies out1, out2
    ensures out1[..] == first && out2[..] == second
  {
    var queue := new HandoffQueue(HandoffCapacity);
    var chain := new ProcessorChain();
    chain.AddProcessor(PassThrough);
    PassThroughChainIsIdentity(chain.processors, first);
    PassThroughChainIsIdentity(chain.processors, second);
    CaptureCallback(queue, chain, first, true);
    CaptureCallback(queue, chain, second, true);
    RenderCallback(queue, out1);
    assert out1[..] == first;
    RenderCallback(queue, out2);
    assert out2[..] == second;
  }
}
