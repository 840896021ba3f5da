/** The command-line program: device listing, the VB-Cable name choices of the
    configuration wizard, device labelling, command dispatch and the start-up of
    the two routes. */
module Cli {
  import opened Common
  import opened Names
  import opened Processor
  import AudioIo

  /** The persisted configuration record. */
  datatype AudioConfig = AudioConfig(
    inputDeviceName: string,
    vbcableInputName: string,
    vbcableOutputName: string,
    outputDeviceName: string,
    sampleRate: nat,
    bufferSize: nat)

  /** The record used when no configuration file exists: the wizard's fallback
      cable names, which pass the cable tests, two physical device names, 48000 Hz
      and 512 frames. */
  function DefaultConfig(): (r: AudioConfig)
    ensures r.vbcableInputName == VbcableInputName([]) && IsCableAInput(r.vbcableInputName)
    ensures r.vbcableOutputName == VbcableOutputName([]) && IsCableOutput(r.vbcableOutputName)
    ensures IsPhysical(r.inputDeviceName) && IsPhysical(r.outputDeviceName)
    ensures r.sampleRate == 48000 && r.bufferSize == 512
  {
    var microphone := "麦克风";
    var speaker := "扬声器";
    MissingCharNotContained(microphone, "CABLE", 'C');
    MissingCharNotContained(speaker, "CABLE", 'C');
    AudioConfig(microphone, VbcableInputName([]), VbcableOutputName([]), speaker, 48000, 512)
  }

  // ---------------------------------------------------------------------------
  // Device lists and the VB-Cable choices
  // ---------------------------------------------------------------------------

  /** The readable capture and render device names, each list in enumeration order. */
  function ListDevices(inputs: seq<Option<string>>, outputs: seq<Option<string>>): (r: (seq<string>, seq<string>))
    ensures forall n :: n in r.0 <==> Some(n) in inputs
    ensures forall n :: n in r.1 <==> Some(n) in outputs
    ensures |r.0| <= |inputs| && |r.1| <= |outputs|
  {
    (ReadableNames(inputs), ReadableNames(outputs))
  }

  /** The first name satisfying `p`, or `fallback` when there is none. */
  function FirstOr(names: seq<string>, p: string -> bool, fallback: string): (r: string)
    ensures (forall i :: 0 <= i < |names| ==> !p(names[i])) ==> r == fallback
    ensures (exists i :: 0 <= i < |names| && p(names[i])) ==>
              exists k :: 0 <= k < |names| && names[k] == r && p(r) && forall j :: 0 <= j < k ==> !p(names[j])
  {
    match FindIndex(names, p)
    case Some(k) => names[k]
    case None => fallback
  }

  /** The wizard's CABLE-A playback device: the first render device whose name
      contains "CABLE-A Input", else that literal. Either way the name contains it. */
  function VbcableInputName(outputs: seq<string>): (r: string)
    ensures Contains(r, "CABLE-A Input")
    ensures (forall i :: 0 <= i < |outputs| ==> !IsCableAInput(outputs[i])) ==> r == "CABLE-A Input"
    ensures (exists i :: 0 <= i < |outputs| && IsCableAInput(outputs[i])) ==>
              exists k :: 0 <= k < |outputs| && outputs[k] == r && forall j :: 0 <= j < k ==> !IsCableAInput(outputs[j])
  {
    assert StartsWith("CABLE-A Input", "CABLE-A Input");
    FirstOr(outputs, IsCableAInput, "CABLE-A Input")
  }

  /** The wizard's plain-cable recording device: the first capture device whose name
      contains "CABLE Output" but not "CABLE-A", else "CABLE Output". Either way
      the name contains "CABLE Output" and never "CABLE-A". */
  function VbcableOutputName(inputs: seq<string>): (r: string)
    ensures Contains(r, "CABLE Output") && !Contains(r, "CABLE-A")
    ensures (forall i :: 0 <= i < |inputs| ==> !IsCableOutput(inputs[i])) ==> r == "CABLE Output"
    ensures (exists i :: 0 <= i < |inputs| && IsCableOutput(inputs[i])) ==>
              exists k :: 0 <= k < |inputs| && inputs[k] == r && forall j :: 0 <= j < k ==> !IsCableOutput(inputs[j])
  {
    assert StartsWith("CABLE Output", "CABLE Output");
    MissingCharNotContained("CABLE Output", "CABLE-A", '-');
    FirstOr(inputs, IsCableOutput, "CABLE Output")
  }

  /** The microphone the wizard tells the meeting software to use: the first capture
      device whose name contains "CABLE-A Output", else that literal. */
  function SuggestedMicrophone(inputs: seq<string>): (r: string)
    ensures Contains(r, "CABLE-A Output")
    ensures (forall i :: 0 <= i < |inputs| ==> !IsCableAOutput(inputs[i])) ==> r == "CABLE-A Output"
    ensures (exists i :: 0 <= i < |inputs| && IsCableAOutput(inputs[i])) ==>
              exists k :: 0 <= k < |inputs| && inputs[k] == r && forall j :: 0 <= j < k ==> !IsCableAOutput(inputs[j])
  {
    assert StartsWith("CABLE-A Output", "CABLE-A Output");
    FirstOr(inputs, IsCableAOutput, "CABLE-A Output")
  }

  /** The choice is the first qualifying device: with "CABLE Output (CABLE-A)" and
      "CABLE Output (Virtual Cable)" enumerated in that order, the second
      is taken, since the first mentions "CABLE-A". */
  lemma VbcableOutputSkipsCableA()
    ensures VbcableOutputName(["CABLE Output (CABLE-A)", "CABLE Output (Virtual Cable)"]) ==
              "CABLE Output (Virtual Cable)"
  {
    var names := ["CABLE Output (CABLE-A)", "CABLE Output (Virtual Cable)"];
    CableAOutputIsNotPlainCable(names[0]);
    PlainCableOutputQualifies(names[1]);
    assert FindIndex(names[1..], IsCableOutput) == Some(0);
  }

  lemma CableAOutputIsNotPlainCable(name: string)
    requires name == "CABLE Output (CABLE-A)"
    ensures !IsCableOutput(name)
  {
    assert OccursAt(name, "CABLE-A", 14);
    ContainsIffWindow(name, "CABLE-A");
  }

  lemma PlainCableOutputQualifies(name: string)
    requires name == "CABLE Output (Virtual Cable)"
    ensures IsCableOutput(name)
  {
    assert StartsWith(name, "CABLE Output");
    MissingCharNotContained(name, "CABLE-A", '-');
  }

  // ---------------------------------------------------------------------------
  // Device labels
  // ---------------------------------------------------------------------------

  datatype Kind = Virtual | Physical

  datatype LabelledDevice = LabelledDevice(kind: Kind, name: string)

  /** The device check's listing: every name, in order, marked virtual exactly when
      it contains "CABLE". */
  function LabelDevices(names: seq<string>): (r: seq<LabelledDevice>)
    ensures |r| == |names|
    ensures forall i :: 0 <= i < |r| ==> r[i].name == names[i]
    ensures forall i :: 0 <= i < |r| ==> (r[i].kind == Virtual <==> Contains(names[i], "CABLE"))
  {
    seq(|names|, i requires 0 <= i < |names| => LabelledDevice(if IsVirtual(names[i]) then Virtual else Physical, names[i]))
  }

  /** The device check lists the capture devices, then the render devices. */
  function CheckDevices(inputs: seq<Option<string>>, outputs: seq<Option<string>>)
    : (r: (seq<LabelledDevice>, seq<LabelledDevice>))
    ensures |r.0| <= |inputs| && |r.1| <= |outputs|
    ensures forall i :: 0 <= i < |r.0| ==> Some(r.0[i].name) in inputs && (r.0[i].kind == Virtual <==> IsVirtual(r.0[i].name))
    ensures forall i :: 0 <= i < |r.1| ==> Some(r.1[i].name) in outputs && (r.1[i].kind == Virtual <==> IsVirtual(r.1[i].name))
    ensures forall n :: Some(n) in inputs ==> exists i :: 0 <= i < |r.0| && r.0[i].name == n
    ensures forall n :: Some(n) in outputs ==> exists i :: 0 <= i < |r.1| && r.1[i].name == n
  {
    var (inputNames, outputNames) := ListDevices(inputs, outputs);
    (LabelDevices(inputNames), LabelDevices(outputNames))
  }

  /** The names labelled physical, in order, are exactly the readable names without
      "CABLE": the same list the configuration checker prints. */
  lemma {:induction false} PhysicalLabelsAreNamesWithoutCable(devices: seq<Option<string>>)
    ensures PhysicalNames(LabelDevices(ReadableNames(devices))) == NamesWhere(devices, IsPhysical)
    decreases |devices|
  {
    if devices != [] {
      var head := if devices[0].Some? then [devices[0].value] else [];
      var rest := ReadableNames(devices[1..]);
      assert ReadableNames(devices) == head + rest;
      LabelDevicesAppend(head, rest);
      PhysicalNamesAppend(LabelDevices(head), LabelDevices(rest));
      PhysicalLabelsAreNamesWithoutCable(devices[1..]);
      assert PhysicalNames(LabelDevices(head)) ==
               if devices[0].Some? && IsPhysical(devices[0].value) then [devices[0].value] else [];
    }
  }

  lemma LabelDevicesAppend(a: seq<string>, b: seq<string>)
    ensures LabelDevices(a + b) == LabelDevices(a) + LabelDevices(b)
  {
  }

  /** The names among `labelled` that are marked physical, in order. */
  function PhysicalNames(labelled: seq<LabelledDevice>): seq<string>
    decreases |labelled|
  {
    if labelled == [] then []
    else (if labelled[0].kind == Physical then [labelled[0].name] else []) + PhysicalNames(labelled[1..])
  }

  lemma {:induction false} PhysicalNamesAppend(a: seq<LabelledDevice>, b: seq<LabelledDevice>)
    ensures PhysicalNames(a + b) == PhysicalNames(a) + PhysicalNames(b)
    decreases |a|
  {
    if a == [] {
      assert a + b == b;
    } else {
      assert (a + b)[1..] == a[1..] + b;
      PhysicalNamesAppend(a[1..], b);
    }
  }

  // ---------------------------------------------------------------------------
  // The configuration wizard
  // ---------------------------------------------------------------------------

  /** A selection prompt over an empty list cannot be answered. */
  datatype WizardError = NothingToSelect

  /** What the wizard produces: the configuration it writes, and the two devices it
      tells the user to pick in the meeting software. */
  datatype WizardResult = WizardResult(config: AudioConfig, meetingMicrophone: string, meetingSpeaker: string)

  /** The wizard, given the device lists and the indices the user picks for the
      physical microphone and speaker. */
  function InteractiveConfig(inputs: seq<string>, outputs: seq<string>, micChoice: nat, speakerChoice: nat)
    : (r: Result<WizardResult, WizardError>)
    requires inputs != [] ==> micChoice < |inputs|
    requires outputs != [] ==> speakerChoice < |outputs|
    ensures r.Err? <==> inputs == [] || outputs == []
    ensures r.Ok? ==> r.value.config.inputDeviceName == inputs[micChoice]
    ensures r.Ok? ==> r.value.config.outputDeviceName == outputs[speakerChoice]
    ensures r.Ok? ==> Contains(r.value.config.vbcableInputName, "CABLE-A Input")
    ensures r.Ok? ==> Contains(r.value.config.vbcableOutputName, "CABLE Output")
    ensures r.Ok? ==> !Contains(r.value.config.vbcableOutputName, "CABLE-A")
    ensures r.Ok? ==> r.value.config.sampleRate == 48000 && r.value.config.bufferSize == 512
    ensures r.Ok? ==> Contains(r.value.meetingMicrophone, "CABLE-A Output")
    ensures r.Ok? ==> r.value.meetingSpeaker == r.value.config.vbcableOutputName
    ensures r.Ok? ==> r.value.config.vbcableInputName == VbcableInputName(outputs)
    ensures r.Ok? ==> r.value.config.vbcableOutputName == VbcableOutputName(inputs)
    ensures r.Ok? ==> r.value.meetingMicrophone == SuggestedMicrophone(inputs)
  {
    if inputs == [] || outputs == [] then Err(NothingToSelect)
    else
      var config := AudioConfig(inputs[micChoice], VbcableInputName(outputs), VbcableOutputName(inputs),
                                outputs[speakerChoice], 48000, 512);
      Ok(WizardResult(config, SuggestedMicrophone(inputs), config.vbcableOutputName))
  }

  /** On a machine without VB-Cable devices the wizard writes the same cable names,
      rate and buffer size as the built-in default configuration. */
  lemma WizardWithoutCablesMatchesDefault(inputs: seq<string>, outputs: seq<string>, micChoice: nat, speakerChoice: nat)
    requires micChoice < |inputs| && speakerChoice < |outputs|
    requires forall i :: 0 <= i < |inputs| ==> !Contains(inputs[i], "CABLE")
    requires forall i :: 0 <= i < |outputs| ==> !Contains(outputs[i], "CABLE")
    ensures var r := InteractiveConfig(inputs, outputs, micChoice, speakerChoice);
              r.Ok? && r.value.config == DefaultConfig().(inputDeviceName := inputs[micChoice], outputDeviceName := outputs[speakerChoice])
  {
    assert "CABLE" + "-A Input" == "CABLE-A Input";
    assert "CABLE" + " Output" == "CABLE Output";
    forall i | 0 <= i < |outputs| ensures !IsCableAInput(outputs[i]) {
      ContainsPrefixOfNeedle(outputs[i], "CABLE", "-A Input");
    }
    forall i | 0 <= i < |inputs| ensures !IsCableOutput(inputs[i]) {
      ContainsPrefixOfNeedle(inputs[i], "CABLE", " Output");
    }
  }

  /** The configuration text the wizard writes, as its key/value assignments in
      file order; the comment lines are not modelled. */
  datatype Value = Text(text: string) | Number(number: nat)

  function ConfigAssignments(c: AudioConfig): (r: seq<(string, Value)>)
    ensures |r| == 6
    ensures r[0].0 == "input_device_name" && r[1].0 == "vbcable_input_name"
    ensures r[2].0 == "vbcable_output_name" && r[3].0 == "output_device_name"
    ensures r[4] == ("sample_rate", Number(48000)) && r[5] == ("buffer_size", Number(512))
  {
    [("input_device_name", Text(c.inputDeviceName)),
     ("vbcable_input_name", Text(c.vbcableInputName)),
     ("vbcable_output_name", Text(c.vbcableOutputName)),
     ("output_device_name", Text(c.outputDeviceName)),
     ("sample_rate", Number(48000)),
     ("buffer_size", Number(512))]
  }

  /** The value of the first assignment to `key`. */
  function Lookup(assignments: seq<(string, Value)>, key: string): (r: Option<Value>)
    ensures r.Some? <==> exists i :: 0 <= i < |assignments| && assignments[i].0 == key
    ensures r.Some? ==> exists i :: 0 <= i < |assignments| && assignments[i] == (key, r.value)
    decreases |assignments|
  {
    if assignments == [] then None
    else if assignments[0].0 == key then Some(assignments[0].1)
    else
      Lookup(assignments[1..], key)
  }

  /** The first assignment to `key` holds text. */
  predicate AssignsText(assignments: seq<(string, Value)>, key: string) {
    Lookup(assignments, key).Some? && Lookup(assignments, key).value.Text?
  }

  /** The first assignment to `key` holds a number. */
  predicate AssignsNumber(assignments: seq<(string, Value)>, key: string) {
    Lookup(assignments, key).Some? && Lookup(assignments, key).value.Number?
  }

  /** Reading a configuration back: every field must be present with a value of
      its type, otherwise the file does not describe a configuration. */
  function ConfigOf(assignments: seq<(string, Value)>): (r: Option<AudioConfig>)
    ensures r.Some? <==>
              AssignsText(assignments, "input_device_name") && AssignsText(assignments, "vbcable_input_name")
              && AssignsText(assignments, "vbcable_output_name") && AssignsText(assignments, "output_device_name")
              && AssignsNumber(assignments, "sample_rate") && AssignsNumber(assignments, "buffer_size")
    ensures r.Some? ==> Lookup(assignments, "input_device_name") == Some(Text(r.value.inputDeviceName))
    ensures r.Some? ==> Lookup(assignments, "vbcable_input_name") == Some(Text(r.value.vbcableInputName))
    ensures r.Some? ==> Lookup(assignments, "vbcable_output_name") == Some(Text(r.value.vbcableOutputName))
    ensures r.Some? ==> Lookup(assignments, "output_device_name") == Some(Text(r.value.outputDeviceName))
    ensures r.Some? ==> Lookup(assignments, "sample_rate") == Some(Number(r.value.sampleRate))
    ensures r.Some? ==> Lookup(assignments, "buffer_size") == Some(Number(r.value.bufferSize))
  {
    var a := Lookup(assignments, "input_device_name");
    var b := Lookup(assignments, "vbcable_input_name");
    var c := Lookup(assignments, "vbcable_output_name");
    var d := Lookup(assignments, "output_device_name");
    var rate := Lookup(assignments, "sample_rate");
    var size := Lookup(assignments, "buffer_size");
    if a.Some? && a.value.Text? && b.Some? && b.value.Text? && c.Some? && c.value.Text?
       && d.Some? && d.value.Text? && rate.Some? && rate.value.Number? && size.Some? && size.value.Number?
    then Some(AudioConfig(a.value.text, b.value.text, c.value.text, d.value.text, rate.value.number, size.value.number))
    else None
  }

  /** Reading back what the wizard writes yields the wizard's record: the file text
      carries every field, rate and buffer size included, under its own key. */
  lemma WrittenConfigReadsBack(c: AudioConfig)
    requires c.sampleRate == 48000 && c.bufferSize == 512
    ensures ConfigOf(ConfigAssignments(c)) == Some(c)
  {
    WrittenNames(c);
    WrittenNumbers(c);
  }

  lemma WrittenNames(c: AudioConfig)
    ensures var a := ConfigAssignments(c);
              Lookup(a, "input_device_name") == Some(Text(c.inputDeviceName))
              && Lookup(a, "vbcable_input_name") == Some(Text(c.vbcableInputName))
              && Lookup(a, "vbcable_output_name") == Some(Text(c.vbcableOutputName))
              && Lookup(a, "output_device_name") == Some(Text(c.outputDeviceName))
  {
    var a := ConfigAssignments(c);
    assert a[1].0[8] == 'i';
    LookupFirst(a, "input_device_name", 0);
    LookupFirst(a, "vbcable_input_name", 1);
    LookupFirst(a, "vbcable_output_name", 2);
    LookupFirst(a, "output_device_name", 3);
  }

  lemma WrittenNumbers(c: AudioConfig)
    ensures var a := ConfigAssignments(c);
              Lookup(a, "sample_rate") == Some(Number(48000)) && Lookup(a, "buffer_size") == Some(Number(512))
  {
    var a := ConfigAssignments(c);
    assert a[4].0[0] == 's';
    LookupFirst(a, "sample_rate", 4);
    LookupFirst(a, "buffer_size", 5);
  }

  /** An assignment preceded by none to the same key is the one looked up. */
  lemma {:induction false} LookupFirst(assignments: seq<(string, Value)>, key: string, i: nat)
    requires i < |assignments| && assignments[i].0 == key
    requires forall j :: 0 <= j < i ==> assignments[j].0 != key
    ensures Lookup(assignments, key) == Some(assignments[i].1)
    decreases i
  {
    if i > 0 {
      LookupFirst(assignments[1..], key, i - 1);
    }
  }

  /** The configuration the run command routes with: the file's, when one exists;
      otherwise the wizard runs first, writes its file, and that file is read. */
  function ConfigForRun(existing: Option<AudioConfig>, inputs: seq<string>, outputs: seq<string>,
                        micChoice: nat, speakerChoice: nat): (r: Result<AudioConfig, WizardError>)
    requires inputs != [] ==> micChoice < |inputs|
    requires outputs != [] ==> speakerChoice < |outputs|
    ensures existing.Some? ==> r == Ok(existing.value)
    ensures existing.None? ==>
              (r.Err? <==> InteractiveConfig(inputs, outputs, micChoice, speakerChoice).Err?)
    ensures existing.None? && r.Ok? ==> r.value == InteractiveConfig(inputs, outputs, micChoice, speakerChoice).value.config
  {
    match existing
    case Some(c) => Ok(c)
    case None =>
      match InteractiveConfig(inputs, outputs, micChoice, speakerChoice)
      case Err(e) => Err(e)
      case Ok(w) =>
        WrittenConfigReadsBack(w.config);
        Ok(ConfigOf(ConfigAssignments(w.config)).value)
  }

  /** The wizard stores the chosen device's full name and the router later looks it
      up by substring: the lookup always succeeds, at the chosen device or at an
      earlier one whose name contains the chosen name. */
  lemma ChosenDeviceFoundAtOrBefore(host: AudioIo.Host, input: bool, k: nat)
    requires k < |AudioIo.Devices(host, input)| && AudioIo.Devices(host, input)[k].name.Some?
    ensures var r := AudioIo.FindDeviceByName(host, AudioIo.Devices(host, input)[k].name.value, input);
              r.Ok? && r.value <= k
  {
    var name := AudioIo.Devices(host, input)[k].name.value;
    assert StartsWith(name, name);
  }

  /** An earlier device whose name contains the chosen one wins the lookup: with
      render devices "Speakers (USB)" then "Speakers", choosing the second routes
      to the first. */
  lemma ChosenDeviceMayResolveEarlier()
    ensures var usb := AudioIo.Device(Some("Speakers (USB)"), None, Some([]));
            var plain := AudioIo.Device(Some("Speakers"), None, Some([]));
              AudioIo.FindDeviceByName(AudioIo.Host([], [usb, plain]), "Speakers", false) == Ok(0)
  {
    var usb := AudioIo.Device(Some("Speakers (USB)"), None, Some([]));
    assert StartsWith("Speakers (USB)", "Speakers");
    assert AudioIo.NameMatches(usb, "Speakers");
  }

  // ---------------------------------------------------------------------------
  // Start-up
  // ---------------------------------------------------------------------------

  /** The device the meeting software should record from, as the start-up banner
      shows it: the CABLE-A playback name with every " Input" turned into " Output". */
  function MeetingInputDevice(vbcableInputName: string): (r: string)
    ensures !Contains(r, " Input")
  {
    NoInputAfterOutputRename(vbcableInputName);
    ReplaceAll(vbcableInputName, " Input", " Output")
  }

  /** For the default configuration the banner names "CABLE-A Output", the same
      device the wizard suggests when no CABLE-A recording device is enumerated. */
  lemma DefaultMeetingInputDevice()
    ensures MeetingInputDevice(DefaultConfig().vbcableInputName) == "CABLE-A Output"
    ensures SuggestedMicrophone([]) == "CABLE-A Output"
  {
    assert DefaultConfig().vbcableInputName == "CABLE-A Input";
    CableAInputRenamed();
  }

  /** The rename on the default CABLE-A name: only its trailing " Input" changes. */
  lemma CableAInputRenamed()
    ensures ReplaceAll("CABLE-A Input", " Input", " Output") == "CABLE-A Output"
  {
    var head, pattern, replacement := "CABLE-A", " Input", " Output";
    assert pattern[0] !in head;
    ReplaceAllSkip(head, pattern, pattern, replacement);
    ReplaceAllWhole(pattern, replacement);
    assert head + pattern == "CABLE-A Input";
    assert head + replacement == "CABLE-A Output";
  }

  /** The pattern alone is rewritten to the replacement alone. */
  lemma ReplaceAllWhole(pattern: string, replacement: string)
    requires pattern != []
    ensures ReplaceAll(pattern, pattern, replacement) == replacement
  {
    assert StartsWith(pattern, pattern);
    assert pattern[|pattern|..] == [];
    assert replacement + [] == replacement;
  }

  /** A prefix lacking the pattern's first character is copied through unchanged. */
  lemma {:induction false} ReplaceAllSkip(x: string, y: string, pattern: string, replacement: string)
    requires pattern != [] && pattern[0] !in x
    ensures ReplaceAll(x + y, pattern, replacement) == x + ReplaceAll(y, pattern, replacement)
    decreases |x|
  {
    if x == [] {
      assert x + y == y;
    } else {
      assert (x + y)[0] == x[0];
      assert (x + y)[1..] == x[1..] + y;
      ReplaceAllSkip(x[1..], y, pattern, replacement);
    }
  }

  datatype Command = Run | Config | Check | ListDevicesCommand | DeviceInfo

  /** What the program does, in order. */
  datatype Action = ConfigWizard | LabelDevicesAction | PrintDeviceLists | ShowDeviceInfo | StartRouting

  /** Command dispatch. `configExists` is whether the configuration file is present. */
  function Dispatch(command: Option<Command>, configExists: bool): (actions: seq<Action>)
    ensures StartRouting in actions <==> command == None || command == Some(Run)
    ensures ConfigWizard in actions <==> command == Some(Config) || (StartRouting in actions && !configExists)
    ensures StartRouting in actions ==> actions[|actions| - 1] == StartRouting
  {
    match command
    case Some(Config) => [ConfigWizard]
    case Some(Check) => [LabelDevicesAction]
    case Some(ListDevicesCommand) => [PrintDeviceLists]
    case Some(DeviceInfo) => [ShowDeviceInfo]
    case Some(Run) => (if configExists then [] else [ConfigWizard]) + [StartRouting]
    case None => (if configExists then [] else [ConfigWizard]) + [StartRouting]
  }

  lemma NoCommandMeansRun(configExists: bool)
    ensures Dispatch(None, configExists) == Dispatch(Some(Run), configExists)
  {
  }

  /** Each route gets its own chain holding one pass-through processor. */
  method BuildRouteChains() returns (input: ProcessorChain, output: ProcessorChain)
    ensures fresh(input) && fresh(output) && input != output
    ensures input.processors == [PassThrough] && output.processors == [PassThrough]
  {
    input := new ProcessorChain();
    input.AddProcessor(PassThrough);
    output := new ProcessorChain();
    output.AddProcessor(PassThrough);
  }

  /** The two routes of the running program, built one after the other: microphone
      to CABLE-A, then plain cable to speakers; the first failure stops start-up. */
  function StartRoutes(host: AudioIo.Host, c: AudioConfig): (r: Result<(AudioIo.Route, AudioIo.Route), AudioIo.AudioError>)
    ensures r.Ok? ==>
              AudioIo.CreateDuplexStream(host, c.inputDeviceName, c.vbcableInputName, c.sampleRate, c.bufferSize) == Ok(r.value.0)
    ensures r.Ok? ==>
              AudioIo.CreateDuplexStream(host, c.vbcableOutputName, c.outputDeviceName, c.sampleRate, c.bufferSize) == Ok(r.value.1)
    ensures var first := AudioIo.CreateDuplexStream(host, c.inputDeviceName, c.vbcableInputName, c.sampleRate, c.bufferSize);
            var second := AudioIo.CreateDuplexStream(host, c.vbcableOutputName, c.outputDeviceName, c.sampleRate, c.bufferSize);
              (r.Ok? <==> first.Ok? && second.Ok?)
              && (first.Err? ==> r == Err(first.error))
              && (first.Ok? && second.Err? ==> r == Err(second.error))
  {
    match AudioIo.CreateDuplexStream(host, c.inputDeviceName, c.vbcableInputName, c.sampleRate, c.bufferSize)
    case Err(e) => Err(e)
    case Ok(inputRoute) =>
      match AudioIo.CreateDuplexStream(host, c.vbcableOutputName, c.outputDeviceName, c.sampleRate, c.bufferSize)
      case Err(e) => Err(e)
      case Ok(outputRoute) => Ok((inputRoute, outputRoute))
  }

  /** Both routes use the wizard's devices: the microphone route renders into a
      device whose name contains the configured CABLE-A name. */
  lemma StartedRoutesUseConfiguredDevices(host: AudioIo.Host, c: AudioConfig)
    requires StartRoutes(host, c).Ok?
    ensures var (inputRoute, outputRoute) := StartRoutes(host, c).value;
              AudioIo.NameMatches(host.inputDevices[inputRoute.inputDevice], c.inputDeviceName)
              && AudioIo.NameMatches(host.outputDevices[inputRoute.outputDevice], c.vbcableInputName)
              && AudioIo.NameMatches(host.inputDevices[outputRoute.inputDevice], c.vbcableOutputName)
              && AudioIo.NameMatches(host.outputDevices[outputRoute.outputDevice], c.outputDeviceName)
  {
  }
}
