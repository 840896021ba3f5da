/** The configuration checker: it scans both device lists for the two VB-Cable
    pairs, setting a found flag per pair, then lists the physical devices. Its
    output is modelled as the sequence of report lines it prints. */
module CheckConfig {
  import opened Common
  import opened Names

  /** The four cable endpoints the checker looks for. */
  datatype Endpoint = CableAInput | CableAOutput | CableInput | CableOutput

  /** The two cable pairs: CABLE-A carries the microphone route, CABLE the meeting's sound. */
  datatype Pair = CableA | Cable

  datatype Line =
    | Found(endpoint: Endpoint, name: string)
    | NotFound(pair: Pair)
    | Physical(capture: bool, name: string)

  function FoundLines(endpoint: Endpoint, names: seq<string>): (r: seq<Line>)
    ensures |r| == |names| && forall i :: 0 <= i < |r| ==> r[i] == Found(endpoint, names[i])
  {
    seq(|names|, i requires 0 <= i < |names| => Found(endpoint, names[i]))
  }

  function PhysicalLines(capture: bool, names: seq<string>): (r: seq<Line>)
    ensures |r| == |names| && forall i :: 0 <= i < |r| ==> r[i] == Physical(capture, names[i])
  {
    seq(|names|, i requires 0 <= i < |names| => Physical(capture, names[i]))
  }

  /** The lines of one cable pair's section: its two endpoint lists, then a
      not-found line when both are empty. */
  function PairSection(pair: Pair, first: Endpoint, firstNames: seq<string>, second: Endpoint, secondNames: seq<string>)
    : seq<Line>
  {
    FoundLines(first, firstNames) + FoundLines(second, secondNames)
    + (if firstNames == [] && secondNames == [] then [NotFound(pair)] else [])
  }

  /** Everything the checker reports, section by section: the CABLE-A endpoints
      (or a not-found line when there are none), the same for the plain cable, then
      the physical capture and render devices, each list in enumeration order. */
  function Report(inputs: seq<Option<string>>, outputs: seq<Option<string>>): (r: seq<Line>)
    ensures NotFound(CableA) in r <==> NamesWhere(outputs, IsCableAInput) == [] && NamesWhere(inputs, IsCableAOutput) == []
    ensures NotFound(Cable) in r <==> NamesWhere(outputs, IsCableInput) == [] && NamesWhere(inputs, IsCableOutput) == []
  {
    var cableAInputs, cableAOutputs := NamesWhere(outputs, IsCableAInput), NamesWhere(inputs, IsCableAOutput);
    var cableInputs, cableOutputs := NamesWhere(outputs, IsCableInput), NamesWhere(inputs, IsCableOutput);
    PairSectionContents(CableA, CableAInput, cableAInputs, CableAOutput, cableAOutputs, NotFound(CableA));
    PairSectionContents(CableA, CableAInput, cableAInputs, CableAOutput, cableAOutputs, NotFound(Cable));
    PairSectionContents(Cable, CableInput, cableInputs, CableOutput, cableOutputs, NotFound(CableA));
    PairSectionContents(Cable, CableInput, cableInputs, CableOutput, cableOutputs, NotFound(Cable));
    PairSection(CableA, CableAInput, cableAInputs, CableAOutput, cableAOutputs)
    + PairSection(Cable, CableInput, cableInputs, CableOutput, cableOutputs)
    + PhysicalLines(true, NamesWhere(inputs, IsPhysical))
    + PhysicalLines(false, NamesWhere(outputs, IsPhysical))
  }

  /** One scan for a cable endpoint: a found line per readable name satisfying `p`,
      in order, and the pair's flag, which is set by any such name and never cleared. */
  method ScanCableEnd(devices: seq<Option<string>>, p: string -> bool, endpoint: Endpoint, found: bool)
    returns (lines: seq<Line>, nowFound: bool)
    ensures lines == FoundLines(endpoint, NamesWhere(devices, p))
    ensures nowFound <==> found || AnyNameWhere(devices, p)
    ensures found ==> nowFound
  {
    lines := [];
    nowFound := found;
    var i := 0;
    while i < |devices|
      invariant 0 <= i <= |devices|
      invariant lines == FoundLines(endpoint, NamesWhere(devices[..i], p))
      invariant nowFound <==> found || AnyNameWhere(devices[..i], p)
    {
      ScanStep(devices, i, p, endpoint);
      if devices[i].Some? && p(devices[i].value) {
        lines := lines + [Found(endpoint, devices[i].value)];
        nowFound := true;
      }
      i := i + 1;
    }
    assert devices[..i] == devices;
  }

  /** What one more device adds to a scan: its found line and its share of the flag. */
  lemma ScanStep(devices: seq<Option<string>>, i: nat, p: string -> bool, endpoint: Endpoint)
    requires i < |devices|
    ensures var hit := devices[i].Some? && p(devices[i].value);
              FoundLines(endpoint, NamesWhere(devices[..i + 1], p)) ==
                FoundLines(endpoint, NamesWhere(devices[..i], p)) + (if hit then [Found(endpoint, devices[i].value)] else [])
              && (AnyNameWhere(devices[..i + 1], p) <==> AnyNameWhere(devices[..i], p) || hit)
  {
    assert devices[..i + 1] == devices[..i] + [devices[i]];
    NamesWhereSnoc(devices[..i], devices[i], p);
    AnyNameWhereSnoc(devices[..i], devices[i], p);
  }

  /** One scan for physical devices: a line per readable name without "CABLE", in order. */
  method ListPhysical(devices: seq<Option<string>>, capture: bool) returns (lines: seq<Line>)
    ensures lines == PhysicalLines(capture, NamesWhere(devices, IsPhysical))
  {
    lines := [];
    var i := 0;
    while i < |devices|
      invariant 0 <= i <= |devices|
      invariant lines == PhysicalLines(capture, NamesWhere(devices[..i], IsPhysical))
    {
      PhysicalStep(devices, i, capture);
      if devices[i].Some? && IsPhysical(devices[i].value) {
        lines := lines + [Physical(capture, devices[i].value)];
      }
      i := i + 1;
    }
    assert devices[..i] == devices;
  }

  /** What one more device adds to the physical list. */
  lemma PhysicalStep(devices: seq<Option<string>>, i: nat, capture: bool)
    requires i < |devices|
    ensures PhysicalLines(capture, NamesWhere(devices[..i + 1], IsPhysical)) ==
              PhysicalLines(capture, NamesWhere(devices[..i], IsPhysical))
              + (if devices[i].Some? && IsPhysical(devices[i].value) then [Physical(capture, devices[i].value)] else [])
  {
    assert devices[..i + 1] == devices[..i] + [devices[i]];
    NamesWhereSnoc(devices[..i], devices[i], IsPhysical);
  }

  lemma AnyNameWhereSnoc(a: seq<Option<string>>, d: Option<string>, p: string -> bool)
    ensures AnyNameWhere(a + [d], p) <==> AnyNameWhere(a, p) || (d.Some? && p(d.value))
  {
    if AnyNameWhere(a, p) {
      var i :| 0 <= i < |a| && a[i].Some? && p(a[i].value);
      assert (a + [d])[i] == a[i];
    }
    if d.Some? && p(d.value) {
      assert (a + [d])[|a|] == d;
    }
  }

  /** One pair's section: a scan of the render devices for its playback endpoint
      and of the capture devices for its recording endpoint, sharing one flag that
      starts false; the not-found line follows when the flag is still false. */
  method CheckPair(pair: Pair, outputs: seq<Option<string>>, first: Endpoint, isFirst: string -> bool,
                   inputs: seq<Option<string>>, second: Endpoint, isSecond: string -> bool)
    returns (lines: seq<Line>)
    ensures lines == PairSection(pair, first, NamesWhere(outputs, isFirst), second, NamesWhere(inputs, isSecond))
  {
    var found := false;
    var firstLines, secondLines;
    firstLines, found := ScanCableEnd(outputs, isFirst, first, found);
    secondLines, found := ScanCableEnd(inputs, isSecond, second, found);
    lines := firstLines + secondLines;
    NamesWhereNonEmpty(outputs, isFirst);
    NamesWhereNonEmpty(inputs, isSecond);
    if !found {
      lines := lines + [NotFound(pair)];
    } else {
      assert lines + [] == lines;
    }
  }

  /** The checker: the CABLE-A section, the CABLE section, then the physical lists. */
  method Check(inputs: seq<Option<string>>, outputs: seq<Option<string>>) returns (lines: seq<Line>)
    ensures lines == Report(inputs, outputs)
  {
    var cableA := CheckPair(CableA, outputs, CableAInput, IsCableAInput, inputs, CableAOutput, IsCableAOutput);
    var cable := CheckPair(Cable, outputs, CableInput, IsCableInput, inputs, CableOutput, IsCableOutput);
    var physicalInputs := ListPhysical(inputs, true);
    var physicalOutputs := ListPhysical(outputs, false);
    lines := cableA + cable + physicalInputs + physicalOutputs;
  }

  // ---------------------------------------------------------------------------
  // What the report says
  // ---------------------------------------------------------------------------

  /** What a section contains: a found line for each listed name of its own
      endpoints, and its own not-found line exactly when both lists are empty. */
  lemma PairSectionContents(pair: Pair, first: Endpoint, firstNames: seq<string>, second: Endpoint,
                            secondNames: seq<string>, line: Line)
    requires first != second
    ensures var section := PairSection(pair, first, firstNames, second, secondNames);
              (line.NotFound? ==> (line in section <==> line.pair == pair && firstNames == [] && secondNames == []))
              && (line.Found? ==> (line in section <==>
                    (line.endpoint == first && line.name in firstNames) || (line.endpoint == second && line.name in secondNames)))
              && !(line.Physical? && line in section)
  {
    FoundLinesMembers(first, firstNames, line);
    FoundLinesMembers(second, secondNames, line);
  }

  /** A found line is listed exactly when it is for this endpoint and a listed name. */
  lemma FoundLinesMembers(endpoint: Endpoint, names: seq<string>, line: Line)
    ensures line in FoundLines(endpoint, names) <==> line.Found? && line.endpoint == endpoint && line.name in names
  {
    var lines := FoundLines(endpoint, names);
    if line in lines {
      var i :| 0 <= i < |lines| && lines[i] == line;
      assert names[i] == line.name;
    }
    if line.Found? && line.endpoint == endpoint && line.name in names {
      var i :| 0 <= i < |names| && names[i] == line.name;
      assert lines[i] == line;
    }
  }

  /** The report's lines, by kind: which section a line can come from. */
  lemma ReportContents(inputs: seq<Option<string>>, outputs: seq<Option<string>>, line: Line)
    ensures !line.Physical? ==>
              (line in Report(inputs, outputs) <==>
                 line in PairSection(CableA, CableAInput, NamesWhere(outputs, IsCableAInput), CableAOutput, NamesWhere(inputs, IsCableAOutput))
                 || line in PairSection(Cable, CableInput, NamesWhere(outputs, IsCableInput), CableOutput, NamesWhere(inputs, IsCableOutput)))
  {
    var p := PhysicalLines(true, NamesWhere(inputs, IsPhysical));
    var q := PhysicalLines(false, NamesWhere(outputs, IsPhysical));
    if line in p {
      var i :| 0 <= i < |p| && p[i] == line;
    }
    if line in q {
      var i :| 0 <= i < |q| && q[i] == line;
    }
  }

  /** The CABLE-A pair is reported missing exactly when no readable render name
      contains "CABLE-A Input" and no readable capture name contains "CABLE-A Output". */
  lemma CableANotFoundIff(inputs: seq<Option<string>>, outputs: seq<Option<string>>)
    ensures NotFound(CableA) in Report(inputs, outputs) <==>
              !AnyNameWhere(outputs, IsCableAInput) && !AnyNameWhere(inputs, IsCableAOutput)
  {
    NamesWhereNonEmpty(outputs, IsCableAInput);
    NamesWhereNonEmpty(inputs, IsCableAOutput);
    ReportContents(inputs, outputs, NotFound(CableA));
    PairSectionContents(CableA, CableAInput, NamesWhere(outputs, IsCableAInput), CableAOutput, NamesWhere(inputs, IsCableAOutput), NotFound(CableA));
    PairSectionContents(Cable, CableInput, NamesWhere(outputs, IsCableInput), CableOutput, NamesWhere(inputs, IsCableOutput), NotFound(CableA));
  }

  /** The plain cable pair is reported missing exactly when no readable render name
      contains "CABLE Input" and no readable capture name contains "CABLE Output",
      counting only names without "CABLE-A". */
  lemma CableNotFoundIff(inputs: seq<Option<string>>, outputs: seq<Option<string>>)
    ensures NotFound(Cable) in Report(inputs, outputs) <==>
              !AnyNameWhere(outputs, IsCableInput) && !AnyNameWhere(inputs, IsCableOutput)
  {
    NamesWhereNonEmpty(outputs, IsCableInput);
    NamesWhereNonEmpty(inputs, IsCableOutput);
    ReportContents(inputs, outputs, NotFound(Cable));
    PairSectionContents(CableA, CableAInput, NamesWhere(outputs, IsCableAInput), CableAOutput, NamesWhere(inputs, IsCableAOutput), NotFound(Cable));
    PairSectionContents(Cable, CableInput, NamesWhere(outputs, IsCableInput), CableOutput, NamesWhere(inputs, IsCableOutput), NotFound(Cable));
  }

  /** A plain-cable line names a device of the enumeration it scanned whose name
      holds the endpoint's text and never "CABLE-A". */
  lemma CableLinesAreGenuine(inputs: seq<Option<string>>, outputs: seq<Option<string>>, n: string)
    ensures Found(CableInput, n) in Report(inputs, outputs) <==> Some(n) in outputs && IsCableInput(n)
    ensures Found(CableOutput, n) in Report(inputs, outputs) <==> Some(n) in inputs && IsCableOutput(n)
    ensures Found(CableInput, n) in Report(inputs, outputs) ==> !Contains(n, "CABLE-A")
  {
    var a := NamesWhere(outputs, IsCableAInput);
    var b := NamesWhere(inputs, IsCableAOutput);
    var c := NamesWhere(outputs, IsCableInput);
    var d := NamesWhere(inputs, IsCableOutput);
    ReportContents(inputs, outputs, Found(CableInput, n));
    ReportContents(inputs, outputs, Found(CableOutput, n));
    PairSectionContents(CableA, CableAInput, a, CableAOutput, b, Found(CableInput, n));
    PairSectionContents(Cable, CableInput, c, CableOutput, d, Found(CableInput, n));
    PairSectionContents(CableA, CableAInput, a, CableAOutput, b, Found(CableOutput, n));
    PairSectionContents(Cable, CableInput, c, CableOutput, d, Found(CableOutput, n));
  }

  /** A machine whose only cable devices are CABLE-A devices gets the plain cable
      reported missing, whatever else those names say. */
  lemma OnlyCableADevicesLeaveCableMissing(inputs: seq<Option<string>>, outputs: seq<Option<string>>)
    requires forall i :: 0 <= i < |inputs| && inputs[i].Some? && Contains(inputs[i].value, "CABLE") ==>
               Contains(inputs[i].value, "CABLE-A")
    requires forall i :: 0 <= i < |outputs| && outputs[i].Some? && Contains(outputs[i].value, "CABLE") ==>
               Contains(outputs[i].value, "CABLE-A")
    ensures NotFound(Cable) in Report(inputs, outputs)
  {
    assert "CABLE" + " Input" == "CABLE Input";
    assert "CABLE" + " Output" == "CABLE Output";
    forall i | 0 <= i < |outputs| && outputs[i].Some? ensures !IsCableInput(outputs[i].value) {
      ContainsPrefixOfNeedle(outputs[i].value, "CABLE", " Input");
    }
    forall i | 0 <= i < |inputs| && inputs[i].Some? ensures !IsCableOutput(inputs[i].value) {
      ContainsPrefixOfNeedle(inputs[i].value, "CABLE", " Output");
    }
    CableNotFoundIff(inputs, outputs);
  }

  /** No name is listed both as a physical device and as a cable endpoint: every
      endpoint test needs "CABLE", which a physical name lacks. */
  lemma PhysicalIsNeverCable(name: string)
    requires IsPhysical(name)
    ensures !IsCableAInput(name) && !IsCableAOutput(name) && !IsCableInput(name) && !IsCableOutput(name)
  {
    assert "CABLE" + "-A Input" == "CABLE-A Input";
    assert "CABLE" + "-A Output" == "CABLE-A Output";
    assert "CABLE" + " Input" == "CABLE Input";
    assert "CABLE" + " Output" == "CABLE Output";
    ContainsPrefixOfNeedle(name, "CABLE", "-A Input");
    ContainsPrefixOfNeedle(name, "CABLE", "-A Output");
    ContainsPrefixOfNeedle(name, "CABLE", " Input");
    ContainsPrefixOfNeedle(name, "CABLE", " Output");
  }
}
