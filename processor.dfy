/** The per-sample processors and the ordered chain that runs them, in place, on
    one buffer of samples inside the capture callback. */
module Processor {
  import opened Common

  /** What one `process` call reports: `Ok(())` or an error. */
  datatype Outcome = Success | Failure(error: string)

  /** The closed set of processors. `Failing` stands for any processor whose
      `process` reports an error; it leaves the buffer as it found it. */
  datatype AudioProcessor =
    | PassThrough
    | Gain(gain: real)
    | NoiseGate(threshold: real)
    | Failing(reason: string)

  /** A buffer after processing, with the outcome that was reported. */
  datatype Processed = Processed(buffer: seq<real>, outcome: Outcome)

  function Abs(x: real): real { if x < 0.0 then -x else x }

  /** `f32::clamp` with ordered bounds. */
  function Clamp(x: real, lo: real, hi: real): (r: real)
    requires lo <= hi
    ensures lo <= r <= hi
    ensures lo <= x <= hi ==> r == x
    ensures x < lo ==> r == lo
    ensures hi < x ==> r == hi
  {
    if x < lo then lo else if x > hi then hi else x
  }

  /** One sample through the gain stage: scaled, then hard-limited to [-1, 1]. */
  function GainSample(sample: real, gain: real): (r: real)
    ensures -1.0 <= r <= 1.0
  {
    Clamp(sample * gain, -1.0, 1.0)
  }

  /** One sample through the noise gate; the squared comparison avoids a square root. */
  function GateSample(sample: real, threshold: real): real {
    if sample * sample < threshold * threshold then 0.0 else sample
  }

  /** The effect of one processor's `process` on a buffer. */
  function Apply(p: AudioProcessor, buffer: seq<real>): (r: Processed)
    ensures |r.buffer| == |buffer|
    ensures r.outcome.Failure? <==> p.Failing?
  {
    match p
    case PassThrough => Processed(buffer, Success)
    case Gain(g) => Processed(seq(|buffer|, i requires 0 <= i < |buffer| => GainSample(buffer[i], g)), Success)
    case NoiseGate(t) => Processed(seq(|buffer|, i requires 0 <= i < |buffer| => GateSample(buffer[i], t)), Success)
    case Failing(reason) => Processed(buffer, Failure(reason))
  }

  /** The chain's `process`: the processors in order on one shared buffer; the
      first error stops the chain and is returned, and the buffer keeps what the
      processors before it did. */
  function RunChain(processors: seq<AudioProcessor>, buffer: seq<real>): (r: Processed)
    ensures |r.buffer| == |buffer|
    decreases |processors|
  {
    if processors == [] then Processed(buffer, Success)
    else
      var first := Apply(processors[0], buffer);
      if first.outcome.Failure? then first
      else RunChain(processors[1..], first.buffer)
  }

  // ---------------------------------------------------------------------------
  // Single processors
  // ---------------------------------------------------------------------------

  lemma PassThroughIsIdentity(buffer: seq<real>)
    ensures Apply(PassThrough, buffer) == Processed(buffer, Success)
  {
  }

  /** Gain never fails, keeps the length and leaves every sample in [-1, 1]. */
  lemma GainIsBounded(buffer: seq<real>, gain: real)
    ensures Apply(Gain(gain), buffer).outcome == Success
    ensures |Apply(Gain(gain), buffer).buffer| == |buffer|
    ensures forall i :: 0 <= i < |buffer| ==> -1.0 <= Apply(Gain(gain), buffer).buffer[i] <= 1.0
  {
  }

  lemma ProductInUnitRange(x: real, y: real)
    requires Abs(x) <= 1.0 && Abs(y) <= 1.0
    ensures -1.0 <= x * y <= 1.0
  {
    var ax, ay := Abs(x), Abs(y);
    assert Abs(x * y) == ax * ay;
    assert ax * ay <= 1.0 * ay;
  }

  /** With |gain| <= 1 a sample in [-1, 1] is only scaled: the limiter does not engage. */
  lemma GainWithoutClipping(buffer: seq<real>, gain: real, i: int)
    requires 0 <= i < |buffer| && Abs(gain) <= 1.0 && Abs(buffer[i]) <= 1.0
    ensures Apply(Gain(gain), buffer).buffer[i] == buffer[i] * gain
  {
    ProductInUnitRange(buffer[i], gain);
  }

  lemma SquareMonotone(a: real, b: real)
    requires 0.0 <= a <= b
    ensures a * a <= b * b
    ensures a < b ==> a * a < b * b
  {
    var aa, ab, bb := a * a, a * b, b * b;
    assert a * (b - a) >= 0.0;
    assert a * (b - a) == ab - aa;
    assert b * (b - a) >= 0.0;
    assert b * (b - a) == bb - ab;
    if a < b {
      assert b * (b - a) > 0.0;
      assert bb - ab > 0.0;
      assert bb > aa;
    }
  }

  lemma SquareLessIffAbsLess(s: real, t: real)
    ensures s * s < t * t <==> Abs(s) < Abs(t)
  {
    var a, b := Abs(s), Abs(t);
    assert s * s == a * a;
    assert t * t == b * b;
    if a < b {
      SquareMonotone(a, b);
    } else {
      SquareMonotone(b, a);
    }
  }

  /** The gate silences a sample exactly when its magnitude is below the threshold's;
      a sample of equal magnitude passes unchanged. */
  lemma NoiseGateByMagnitude(buffer: seq<real>, threshold: real, i: int)
    requires 0 <= i < |buffer|
    ensures Apply(NoiseGate(threshold), buffer).outcome == Success
    ensures Abs(buffer[i]) < Abs(threshold) ==> Apply(NoiseGate(threshold), buffer).buffer[i] == 0.0
    ensures Abs(buffer[i]) >= Abs(threshold) ==> Apply(NoiseGate(threshold), buffer).buffer[i] == buffer[i]
  {
    SquareLessIffAbsLess(buffer[i], threshold);
  }

  /** Gain and gate are pointwise: output sample i depends on input sample i alone. */
  lemma SampleWiseProcessors(p: AudioProcessor, a: seq<real>, b: seq<real>, i: int)
    requires p.Gain? || p.NoiseGate?
    requires 0 <= i < |a| && 0 <= i < |b| && a[i] == b[i]
    ensures Apply(p, a).buffer[i] == Apply(p, b).buffer[i]
  {
  }

  // ---------------------------------------------------------------------------
  // The chain
  // ---------------------------------------------------------------------------

  lemma EmptyChainIsIdentity(buffer: seq<real>)
    ensures RunChain([], buffer) == Processed(buffer, Success)
  {
  }

  /** Running `ps + qs` is running `ps` and then, unless it failed, `qs` on its result. */
  lemma {:induction false} RunChainAppend(ps: seq<AudioProcessor>, qs: seq<AudioProcessor>, buffer: seq<real>)
    ensures RunChain(ps + qs, buffer) ==
              var r := RunChain(ps, buffer);
              if r.outcome.Failure? then r else RunChain(qs, r.buffer)
    decreases |ps|
  {
    if ps == [] {
      assert ps + qs == qs;
    } else {
      assert (ps + qs)[0] == ps[0];
      assert (ps + qs)[1..] == ps[1..] + qs;
      var first := Apply(ps[0], buffer);
      if first.outcome.Success? {
        RunChainAppend(ps[1..], qs, first.buffer);
      }
    }
  }

  /** A processor added at the end runs last, on what the earlier ones produced. */
  lemma RunChainSnoc(ps: seq<AudioProcessor>, p: AudioProcessor, buffer: seq<real>)
    ensures RunChain(ps + [p], buffer) ==
              var r := RunChain(ps, buffer);
              if r.outcome.Failure? then r else Apply(p, r.buffer)
  {
    RunChainAppend(ps, [p], buffer);
    assert [p][1..] == [];
  }

  /** When processor k is the first to fail, the chain returns its error and the
      buffer as processor k left it; the processors after k do not run. */
  lemma FirstFailureStops(ps: seq<AudioProcessor>, buffer: seq<real>, k: int)
    requires 0 <= k < |ps|
    requires RunChain(ps[..k], buffer).outcome == Success
    requires Apply(ps[k], RunChain(ps[..k], buffer).buffer).outcome.Failure?
    ensures RunChain(ps, buffer) == Apply(ps[k], RunChain(ps[..k], buffer).buffer)
  {
    RunChainSnoc(ps[..k], ps[k], buffer);
    assert ps[..k] + [ps[k]] == ps[..k + 1];
    RunChainAppend(ps[..k + 1], ps[k + 1..], buffer);
    assert ps[..k + 1] + ps[k + 1..] == ps;
  }

  /** A chain with no failing processor succeeds. */
  lemma {:induction false} ChainWithoutFailingSucceeds(ps: seq<AudioProcessor>, buffer: seq<real>)
    requires forall i :: 0 <= i < |ps| ==> !ps[i].Failing?
    ensures RunChain(ps, buffer).outcome == Success
    decreases |ps|
  {
    if ps != [] {
      ChainWithoutFailingSucceeds(ps[1..], Apply(ps[0], buffer).buffer);
    }
  }

  /** The chain fails exactly when it holds a failing processor, and then it reports
      the first one's error over the buffer the processors before it produced. */
  lemma ChainFailsAtFirstFailing(ps: seq<AudioProcessor>, buffer: seq<real>)
    ensures RunChain(ps, buffer).outcome.Failure? <==> exists i :: 0 <= i < |ps| && ps[i].Failing?
    ensures forall k :: 0 <= k < |ps| && ps[k].Failing? && (forall j :: 0 <= j < k ==> !ps[j].Failing?) ==>
              RunChain(ps, buffer) == Processed(RunChain(ps[..k], buffer).buffer, Failure(ps[k].reason))
  {
    forall k | 0 <= k < |ps| && ps[k].Failing? && (forall j :: 0 <= j < k ==> !ps[j].Failing?)
      ensures RunChain(ps, buffer) == Processed(RunChain(ps[..k], buffer).buffer, Failure(ps[k].reason))
    {
      ChainWithoutFailingSucceeds(ps[..k], buffer);
      FirstFailureStops(ps, buffer, k);
    }
    match FindIndex(ps, (p: AudioProcessor) => p.Failing?)
    case None =>
      ChainWithoutFailingSucceeds(ps, buffer);
    case Some(k) =>
  }

  /** A chain of pass-through processors, such as the one the router installs on
      each route, hands every buffer back unchanged and never fails. */
  lemma {:induction false} PassThroughChainIsIdentity(ps: seq<AudioProcessor>, buffer: seq<real>)
    requires forall i :: 0 <= i < |ps| ==> ps[i] == PassThrough
    ensures RunChain(ps, buffer) == Processed(buffer, Success)
    decreases |ps|
  {
    if ps != [] {
      PassThroughChainIsIdentity(ps[1..], buffer);
    }
  }

  /** Gain(2.0) then NoiseGate(0.1) on [0.04, 0.4]: the gain gives [0.08, 0.8] and
      the gate then silences 0.08. */
  lemma GainThenGateExample()
    ensures RunChain([Gain(2.0), NoiseGate(0.1)], [0.04, 0.4]) == Processed([0.0, 0.8], Success)
  {
    var afterGain := Apply(Gain(2.0), [0.04, 0.4]).buffer;
    assert afterGain == [0.08, 0.8];
    var afterGate := Apply(NoiseGate(0.1), afterGain).buffer;
    assert afterGate == [0.0, 0.8];
    assert [Gain(2.0), NoiseGate(0.1)][1..] == [NoiseGate(0.1)];
    assert RunChain([NoiseGate(0.1)], afterGain) == Processed(afterGate, Success);
  }

  // ---------------------------------------------------------------------------
  // In place
  // ---------------------------------------------------------------------------

  /** One processor's `process`, rewriting the buffer in place. */
  method ProcessInPlace(p: AudioProcessor, buffer: array<real>) returns (outcome: Outcome)
    modifies buffer
    ensures Processed(buffer[..], outcome) == Apply(p, old(buffer[..]))
  {
    match p
    case PassThrough =>
      outcome := Success;
    case Gain(g) =>
      var i := 0;
      while i < buffer.Length
        invariant 0 <= i <= buffer.Length
        invariant forall j :: 0 <= j < i ==> buffer[j] == GainSample(old(buffer[j]), g)
        invariant forall j :: i <= j < buffer.Length ==> buffer[j] == old(buffer[j])
      {
        buffer[i] := GainSample(buffer[i], g);
        i := i + 1;
      }
      outcome := Success;
    case NoiseGate(t) =>
      var thresholdSq := t * t;
      var i := 0;
      while i < buffer.Length
        invariant 0 <= i <= buffer.Length
        invariant forall j :: 0 <= j < i ==> buffer[j] == GateSample(old(buffer[j]), t)
        invariant forall j :: i <= j < buffer.Length ==> buffer[j] == old(buffer[j])
      {
        var sample := buffer[i];
        if sample * sample < thresholdSq {
          buffer[i] := 0.0;
        }
        i := i + 1;
      }
      outcome := Success;
    case Failing(reason) =>
      outcome := Failure(reason);
  }

  /** An ordered list of processors applied to one buffer. */
  class ProcessorChain {
    var processors: seq<AudioProcessor>

    constructor ()
      ensures processors == []
    {
      processors := [];
    }

    /** Appends at the back; the processors already there keep their order. */
    method AddProcessor(p: AudioProcessor)
      modifies this
      ensures processors == old(processors) + [p]
    {
      processors := processors + [p];
    }

    /** Runs the processors in insertion order on `buffer`, stopping at the first error. */
    method Process(buffer: array<real>) returns (outcome: Outcome)
      modifies buffer
      ensures Processed(buffer[..], outcome) == RunChain(processors, old(buffer[..]))
    {
      var i := 0;
      while i < |processors|
        invariant 0 <= i <= |processors|
        invariant RunChain(processors[..i], old(buffer[..])) == Processed(buffer[..], Success)
      {
        outcome := ProcessInPlace(processors[i], buffer);
        RunChainSnoc(processors[..i], processors[i], old(buffer[..]));
        assert processors[..i] + [processors[i]] == processors[..i + 1];
        if outcome.Failure? {
          FirstFailureStops(processors, old(buffer[..]), i);
          return;
        }
        i := i + 1;
      }
      assert processors[..i] == processors;
      outcome := Success;
    }
  }
}
