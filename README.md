# Full-duplex meeting audio router — a Dafny model

The router sits between a meeting or streaming application and the real audio
hardware using two VB-Cable virtual device pairs. It runs two duplex routes:

- microphone → processor chain → "CABLE-A Input", which the meeting application
  hears as "CABLE-A Output";
- "CABLE Output", where the meeting application plays → processor chain → speakers.

Each route resolves its two devices by name substring and negotiates a stream
configuration per side. It then passes sample blocks from a capture callback to a
render callback through a bounded channel, and the capture callback runs the
route's processor chain in place on every block. Around this core, the command-line
program lists devices, labels them virtual or physical, runs a configuration
wizard that auto-detects the VB-Cable names, and dispatches its sub-commands. A
second binary checks which cable pairs are installed.

This project models that logic and proves what it promises:

- `common.dfy`: optional values, results, and the front-to-back first-match search
  behind the iterator `find` calls.
- `names.dfy`: `str::contains` and `str::replace` over `seq<char>`, the
  readable-name filters over an enumeration, and the VB-Cable name tests.
- `processor.dfy`: the processors as a datatype and their effect on a buffer.
  `ProcessorChain` is a class whose `Process` rewrites an `array<real>` in place.
  Both are proved against the specification functions `Apply` and `RunChain`.
- `audio_io.dfy`: device lookup, rate negotiation, route construction, and the
  handoff channel as a class holding a FIFO `seq`. The capture and render
  callbacks are methods over that channel and the hardware `array`.
- `cli.dfy`: the command-line program. It covers device lists, VB-Cable name
  selection, labelling, the wizard and the configuration text it writes, the
  " Input" → " Output" rename, command dispatch and start-up of both routes.
- `check_config.dfy`: the configuration checker. Its flag-setting scans are
  imperative loops proved against a specification of the report it prints.

Host enumeration is an input: a sequence of devices whose name is `None` when it
cannot be read, and whose supported ranges are `None` when the query fails. The
chain's lock outcome and the user's menu choices are inputs too.

Behaviour of the code that the model makes explicit:

- A failing processor stops the chain: its error is returned through `?`
  (src/processor.rs:44), later processors do not run, and the buffer keeps the
  changes made by the processors before it (`RunChain`).
- The capture callback hands its block to the blocking `send` of a `bounded(1024)`
  channel (src/audio_io.rs:76, 91). The capture step therefore requires room in
  the channel and never drops a block.

- A route keeps the requested sample rate, not the negotiated ones.
- The buffer size is never applied to a stream configuration.
- The two sides of a route are negotiated independently, so their rates can differ
  (`AudioIo.RouteRatesMayDiverge`).
- The private `get_supported_config` is never called. It computes what the inline
  negotiation blocks compute, with a different error message
  (`AudioIo.GetSupportedConfigMatchesInline`).
- A device name chosen in the wizard is later looked up by substring. The lookup
  can land on an earlier device whose name contains the chosen one
  (`Cli.ChosenDeviceMayResolveEarlier`).

## Model

| member | source | states |
|---|---|---|
| Common.FindIndex | src/main.rs:78-81 | the iterator `find`: the index returned satisfies the predicate and every earlier element fails it; none is returned exactly when no element satisfies it |
| Names.Contains | src/audio_io.rs:174 | `str::contains`: the empty query is contained in every name, and a contained query is never longer than the name |
| Names.ContainsIffWindow | src/audio_io.rs:174 | substring containment holds exactly when some window of the name equals the query |
| Names.NamesWhere | src/main.rs:41-47 | the selected names are exactly the readable names that satisfy the test; the result is never longer than the enumeration |
| Names.NamesWhereAppend | src/main.rs:41-47 | selecting names commutes with concatenating enumerations, so enumeration order is preserved |
| Names.NamesWhereNonEmpty | src/bin/check_config.rs:24-43 | some name is selected exactly when some readable name satisfies the test |
| Names.ReadableNames | src/main.rs:41-47 | `filter_map` over readable names: a name is listed iff some device reports it |
| Names.ReplaceAll | src/main.rs:276 | `str::replace`: a replacement at least as long as the pattern never shortens the string, and one no longer never lengthens it |
| Names.ReplaceAllWithoutOccurrence | src/main.rs:276 | `str::replace` leaves a string without the pattern unchanged |
| Names.NoInputAfterOutputRename | src/main.rs:276-277 | after every " Input" is replaced by " Output", no " Input" remains, whatever the name |
| Processor.Clamp | src/processor.rs:64 | the clamped value lies in the bounds; it equals the input inside them and the violated bound outside them |
| Processor.GainSample | src/processor.rs:64 | a gained sample always lies in [-1, 1] |
| Processor.Apply | src/processor.rs:15-95 | every processor keeps the buffer length; a processor reports an error exactly when it is a failing one |
| Processor.RunChain | src/processor.rs:42-47 | running the chain keeps the buffer length |
| Processor.PassThroughIsIdentity | src/processor.rs:16-19 | the pass-through processor leaves the buffer unchanged and succeeds |
| Processor.GainIsBounded | src/processor.rs:62-67 | gain never fails, keeps the length, and leaves every sample in [-1, 1] |
| Processor.GainWithoutClipping | src/processor.rs:63-65 | for a gain of magnitude at most 1 and samples in [-1, 1], gain is plain multiplication |
| Processor.SquareLessIffAbsLess | src/processor.rs:90 | comparing squares is comparing magnitudes |
| Processor.NoiseGateByMagnitude | src/processor.rs:86-94 | the gate never fails; it zeroes a sample exactly when its magnitude is below the threshold's, so a sample at the threshold passes |
| Processor.SampleWiseProcessors | src/processor.rs:62-94 | gain and the gate are pointwise: output sample i depends only on input sample i |
| Processor.EmptyChainIsIdentity | src/processor.rs:42-47 | an empty chain leaves the buffer unchanged and succeeds |
| Processor.RunChainAppend | src/processor.rs:43-45 | running `ps + qs` is running `ps`, then `qs` on its buffer unless `ps` failed |
| Processor.FirstFailureStops | src/processor.rs:43-45 | when processor k is the first to fail, the chain returns its error and the buffer as processor k left it; later processors do not run |
| Processor.ChainWithoutFailingSucceeds | src/processor.rs:42-47 | a chain with no failing processor succeeds |
| Processor.ChainFailsAtFirstFailing | src/processor.rs:43-45 | the chain fails iff it holds a failing processor, and then it reports the first one's error over what the processors before it did |
| Processor.PassThroughChainIsIdentity | src/processor.rs:42-47 | a chain of pass-through processors, as installed on each route, returns every buffer unchanged |
| Processor.GainThenGateExample | src/processor.rs:62-94 | gain 2.0 then a 0.1 gate map [0.04, 0.4] to [0.0, 0.8]: processors run in insertion order on one buffer |
| Processor.ProcessInPlace | src/processor.rs:61-95 | rewriting the array in place gives exactly the buffer and outcome of `Apply` |
| Processor.ProcessorChain.constructor | src/processor.rs:32-36 | a new chain has no processors |
| Processor.ProcessorChain.AddProcessor | src/processor.rs:38-40 | the processor is appended at the back; the earlier ones keep their order |
| Processor.ProcessorChain.Process | src/processor.rs:42-47 | the array and the outcome afterwards are exactly `RunChain` of the processors over the old contents |
| AudioIo.FindDeviceByName | src/audio_io.rs:165-188 | the first device in enumeration order whose readable name contains the query; fails with not-found exactly when no readable name contains it |
| AudioIo.Negotiate | src/audio_io.rs:42-53 | negotiation fails exactly when there are no ranges; the chosen range is one of them, and its channel count is used |
| AudioIo.NegotiateSelectsFirstSupporting | src/audio_io.rs:45-47 | the chosen range is the first holding the requested rate, or the first range when none does |
| AudioIo.NegotiatedRateIsRequestedIffSupported | src/audio_io.rs:48-52 | with a well-formed first range, the negotiated rate equals the request exactly when some range holds it |
| AudioIo.NegotiatedRateWithinSelectedRange | src/audio_io.rs:48-52 | the negotiated rate lies within the chosen range and never exceeds its maximum |
| AudioIo.UnsupportedRateFallsBack | src/audio_io.rs:64-71 | when no range holds the rate, the first range is used at its maximum rate |
| AudioIo.NegotiationClampExample | src/audio_io.rs:45-52 | a single [44100, 48000] range asked for 96000 runs at 48000, not an error |
| AudioIo.NegotiateStream | src/audio_io.rs:38-73 | one side's configuration exists exactly when the query succeeds with a non-empty range list, and is then the negotiated one |
| AudioIo.GetSupportedConfig | src/audio_io.rs:134-162 | a failed query and an empty range list are errors, the latter with the device-neutral message; otherwise the negotiated configuration, with the chosen range's channel count |
| AudioIo.GetSupportedConfigMatchesInline | src/audio_io.rs:134-162 | the private helper succeeds exactly when the inline block does, with the same configuration |
| AudioIo.CreateDuplexStream | src/audio_io.rs:25-73 | a route is built exactly when both devices are found and both sides negotiate; it holds the first matching input and output devices and their negotiated configurations, and keeps the requested rate and buffer size; errors come in source order: input device, output device, input configuration, output configuration |
| AudioIo.RouteRatesMayDiverge | src/audio_io.rs:38-73 | a 44100 Hz microphone and 48000 Hz speakers asked for 48000 give a route with different capture and render rates |
| AudioIo.HandoffQueue.constructor | src/audio_io.rs:76 | a new channel is empty, with the given capacity |
| AudioIo.HandoffQueue.Send | src/audio_io.rs:91 | a send with room appends the block at the back |
| AudioIo.HandoffQueue.TryRecv | src/audio_io.rs:105 | a receive takes the oldest block, or nothing and no change on an empty channel |
| AudioIo.RenderCopy | src/audio_io.rs:106-107 | the output keeps its length; its first min(block, output) samples come from the block and the rest are unchanged |
| AudioIo.CapturedBlock | src/audio_io.rs:83-89 | the queued block has the captured length |
| AudioIo.CapturedBlockAfterFailure | src/audio_io.rs:85-89 | a chain error does not stop the send: the block carries the changes of the processors before the failing one |
| AudioIo.CaptureCallback | src/audio_io.rs:82-94 | exactly one block joins the back of the channel: the captured samples after the chain, or untouched when the lock was not taken |
| AudioIo.RenderCallback | src/audio_io.rs:104-108 | non-empty channel: the oldest block is removed and copied into the front of the output; empty channel: neither changes |
| AudioIo.PassThroughRouteDeliversCapture | src/audio_io.rs:82-108 | through a pass-through chain, the render output carries the captured samples as far as both buffers reach |
| AudioIo.HandoffKeepsOrder | src/audio_io.rs:76-108 | two captures then two renders deliver the blocks in capture order |
| Cli.DefaultConfig | src/config.rs:16-27 | the default record carries the wizard's fallback cable names, which pass the cable tests, two physical device names, 48000 Hz and 512 frames |
| Cli.ListDevices | src/main.rs:38-50 | the two lists hold exactly the readable capture and render names, none longer than its enumeration |
| Cli.FirstOr | src/main.rs:78-86 | `find` then `unwrap_or`: the first qualifying name, or the fallback when none qualifies |
| Cli.VbcableInputName | src/main.rs:78-81 | the detected CABLE-A playback name is the first render name containing "CABLE-A Input", or that literal when none does; either way it contains "CABLE-A Input" |
| Cli.VbcableOutputName | src/main.rs:83-86 | the detected plain-cable recording name is the first capture name containing "CABLE Output" but not "CABLE-A", or "CABLE Output" when none does; either way it contains "CABLE Output" and never "CABLE-A" |
| Cli.VbcableOutputSkipsCableA | src/main.rs:83-86 | a "CABLE Output" name mentioning "CABLE-A" is passed over for the next qualifying one |
| Cli.SuggestedMicrophone | src/main.rs:141-142 | the suggested meeting microphone is the first capture name containing "CABLE-A Output", or that literal when none does |
| Cli.CheckDevices | src/main.rs:149-175 | the device check labels every readable capture and render name and nothing else, each virtual exactly when its name contains "CABLE" |
| Cli.LabelDevices | src/main.rs:157-172 | every device is labelled in order, virtual exactly when its name contains "CABLE" |
| Cli.PhysicalLabelsAreNamesWithoutCable | src/main.rs:157-172 | the devices labelled physical are, in order, the readable names without "CABLE", the same list the checker prints |
| Cli.InteractiveConfig | src/main.rs:52-147 | the wizard fails exactly when a device list is empty; otherwise it writes the chosen devices, the first-match cable names of `VbcableInputName` and `VbcableOutputName`, 48000 Hz and 512 frames, and suggests `SuggestedMicrophone` and the detected plain cable |
| Cli.WizardWithoutCablesMatchesDefault | src/main.rs:78-86 | without any cable device, the wizard writes the same cable names, rate and buffer size as the built-in default |
| Cli.ConfigAssignments | src/main.rs:113-134 | the written text assigns the input, CABLE-A, plain-cable and output names in that order, then sample_rate 48000 and buffer_size 512 |
| Cli.WrittenNames | src/main.rs:113-134 | each of the four name keys is read back from the written text as the wizard's value for it |
| Cli.WrittenNumbers | src/main.rs:113-134 | sample_rate and buffer_size are read back from the written text as 48000 and 512 |
| Cli.Lookup | src/config.rs:37 | a key is found exactly when some assignment names it, and the value found is assigned to it |
| Cli.ConfigOf | src/config.rs:30-46 | a configuration is read exactly when all six keys are assigned, the four names as text and the rate and buffer size as numbers, and then every field has its assigned value |
| Cli.WrittenConfigReadsBack | src/main.rs:113-134 | reading the written assignments back gives the wizard's configuration |
| Cli.ConfigForRun | src/main.rs:246-270 | with a configuration file, its record is used; otherwise the wizard's record is used, and the run fails exactly when the wizard does |
| Cli.ChosenDeviceFoundAtOrBefore | src/audio_io.rs:172-178 | looking up a chosen device's full name always succeeds, at that device or an earlier one |
| Cli.ChosenDeviceMayResolveEarlier | src/audio_io.rs:172-178 | with render devices "Speakers (USB)" then "Speakers", choosing "Speakers" resolves to the first |
| Cli.MeetingInputDevice | src/main.rs:276-277 | the displayed meeting input device contains no " Input" |
| Cli.DefaultMeetingInputDevice | src/main.rs:276-277 | the default "CABLE-A Input" is displayed as "CABLE-A Output", the wizard's fallback suggestion |
| Cli.Dispatch | src/main.rs:224-258 | routing starts exactly for `run` or no command, and last; the wizard runs for `config`, or before routing when no configuration file exists |
| Cli.NoCommandMeansRun | src/main.rs:246 | no sub-command is handled exactly like `run` |
| Cli.BuildRouteChains | src/main.rs:262-267 | each route gets its own fresh chain holding one pass-through processor |
| Cli.StartRoutes | src/main.rs:288-308 | start-up succeeds exactly when both duplex constructions with the configured names do, and then holds them; otherwise it returns the microphone route's error, or the speaker route's when only that one fails |
| Cli.StartedRoutesUseConfiguredDevices | src/main.rs:290-308 | the started routes use devices whose names contain the configured microphone, CABLE-A, plain-cable and speaker names |
| CheckConfig.Report | src/bin/check_config.rs:13-85 | the report holds the not-found line of a pair exactly when neither endpoint list of that pair has a name |
| CheckConfig.ScanCableEnd | src/bin/check_config.rs:24-31 | one scan lists, in order, every readable name passing the test; the flag ends set iff it was set or some name passed, and is never cleared |
| CheckConfig.ListPhysical | src/bin/check_config.rs:69-75 | the physical list is exactly the readable names without "CABLE", in enumeration order |
| CheckConfig.CheckPair | src/bin/check_config.rs:20-43 | a pair's section is its two endpoint lists followed by a not-found line when its flag stayed false |
| CheckConfig.Check | src/bin/check_config.rs:13-85 | the printed report is exactly `Report` of the two enumerations |
| CheckConfig.PairSectionContents | src/bin/check_config.rs:23-65 | a section lists a found line for each name of its own endpoints, and has its not-found line exactly when both lists are empty |
| CheckConfig.CableANotFoundIff | src/bin/check_config.rs:20-43 | CABLE-A is reported missing iff no readable render name contains "CABLE-A Input" and no readable capture name contains "CABLE-A Output" |
| CheckConfig.CableNotFoundIff | src/bin/check_config.rs:45-65 | the plain cable is reported missing iff no readable name has "CABLE Input" (render) or "CABLE Output" (capture) without "CABLE-A" |
| CheckConfig.CableLinesAreGenuine | src/bin/check_config.rs:45-62 | a plain-cable line appears for a name iff it is a readable name of the scanned side passing that endpoint's test, so never a CABLE-A name |
| CheckConfig.OnlyCableADevicesLeaveCableMissing | src/bin/check_config.rs:45-65 | when every cable device is a CABLE-A device, the plain cable is reported missing |
| CheckConfig.PhysicalIsNeverCable | src/bin/check_config.rs:67-85 | a physical name never passes any cable endpoint test |

## Left out

- cpal itself is not modelled: the host and device handles, `build_input_stream`, `build_output_stream`, `play`, stream drop, and the `StreamStartFailed` error at start. Route construction ends once both configurations are negotiated.
- Sample formats are left out. Negotiation sees only channel count and rate limits; `with_sample_rate(...).into()` is modelled as a (channels, rate) pair.
- Enumeration failures (`host.input_devices()?`) are left out. Enumeration is a given sequence.
- The re-enumeration that only logs available names after a failed lookup (src/audio_io.rs:180-186) is left out. It changes no result.
- `audio_io::list_devices`, `show_device_info`, and the device_info and list_devices binaries only iterate and print. They are not modelled.
- Threads, `Arc<Mutex<…>>` and lock poisoning become one boolean: whether the capture callback got the lock.
- The channel's blocking is not modelled; only its FIFO order and capacity are. `send` failing on a disconnected receiver is not modelled.
- Samples are mathematical reals. f32 rounding, NaN, and `clamp` panicking on unordered bounds are left out.
- Processor names (`name()`) are display strings and are not modelled.
- Processor.AudioProcessor: a failing processor is modelled as leaving the buffer untouched. A real `AudioProcessor` may write part of the buffer before returning `Err`; `ChainFailsAtFirstFailing` and `CapturedBlockAfterFailure` describe the buffer under this assumption.
- AudioIo.CaptureCallback: requires room in the channel. The source's `send` would block until the render callback frees a slot.
- Logging, terminal colours and all printed text are left out. For the checker, its printed lines are modelled as report lines; the closing advice it prints is constant.
- The menu prompts are inputs. The user's menu choice is an index parameter; an empty menu is the wizard's error.
- Writing and reading `config.toml` is not modelled, and neither is the file-existence check (it is the `configExists` / `existing` input). The written text is modelled by its six key/value assignments, and reading by a key lookup.
- TOML quoting of device names is not modelled. A name holding `"` or `\` would be written unescaped.
- The router's final infinite sleep loop (src/main.rs:312-314) is left out.
- AudioIo.NegotiatedRateIsRequestedIffSupported: requires the first range to be well formed (min ≤ max). With a malformed first range and no supporting range, the fallback rate is its maximum, which may coincidentally equal the request.
