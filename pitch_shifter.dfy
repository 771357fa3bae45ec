/**
 * The pitch-shifter audio worklet: each render quantum it writes every other
 * input sample into the output channel, which plays the block an octave up
 * in the first half and leaves silence for the rest of the input span.
 *
 * Samples are reals: the `|| 0` that maps NaN to 0 is not modelled, and for
 * every real sample `x || 0` is `x`.
 */
module PitchShifter {
  import opened Wrappers

  /** Reading `input[channel]` past the last input channel gives undefined; `.length` of it throws. */
  datatype ProcessError = TypeError

  /** The reference: samples 0, 2, 4, … of a block. */
  function Decimate(s: seq<real>): (r: seq<real>)
    ensures |r| == (|s| + 1) / 2
  {
    if |s| <= 1 then s else [s[0]] + Decimate(s[2..])
  }

  lemma {:induction false} DecimateAt(s: seq<real>, i: nat)
    requires i < (|s| + 1) / 2
    ensures 2 * i < |s| && Decimate(s)[i] == s[2 * i]
  {
    if i > 0 {
      DecimateAt(s[2..], i - 1);
    }
  }

  /**
   * One channel after `process`: below the input length, sample `s` is
   * input sample `2s`, or 0 once `2s` runs past the input; indices the loop
   * never reaches keep their old value. Writes past the end of a
   * Float32Array are dropped, so the result is as long as the old output.
   */
  function ShiftChannel(input: seq<real>, output: seq<real>): (r: seq<real>)
    ensures |r| == |output|
    ensures forall s :: |input| <= s < |output| ==> r[s] == output[s]
  {
    seq(|output|, s requires 0 <= s < |output| =>
      if s < |input| then (if 2 * s < |input| then input[2 * s] else 0.0) else output[s])
  }

  /**
   * The written part of a channel is the decimated input followed by zeros,
   * and the part past the input length is untouched.
   */
  lemma ShiftIsDecimation(input: seq<real>, output: seq<real>, s: nat)
    requires s < |output|
    ensures var r := ShiftChannel(input, output);
      && (s < (|input| + 1) / 2 ==> r[s] == Decimate(input)[s])
      && ((|input| + 1) / 2 <= s < |input| ==> r[s] == 0.0)
      && (|input| <= s ==> r[s] == output[s])
  {
    if s < (|input| + 1) / 2 {
      DecimateAt(input, s);
    }
  }

  /** With input and output of one length L, the output is the decimated input padded with zeros to L. */
  lemma ShiftSameLength(input: seq<real>, output: seq<real>)
    requires |input| == |output|
    ensures ShiftChannel(input, output) == Decimate(input) + seq(|input| - (|input| + 1) / 2, _ => 0.0)
  {
    var r := ShiftChannel(input, output);
    var d := Decimate(input) + seq(|input| - (|input| + 1) / 2, _ => 0.0);
    forall s | 0 <= s < |r|
      ensures r[s] == d[s]
    {
      ShiftIsDecimation(input, output, s);
    }
  }

  /**
   * `process(inputs, outputs)` on the first input's channels and the first
   * output's channels. Each output channel takes the shifted input channel of
   * the same index; an output channel with no input channel throws, leaving
   * the earlier channels written. Otherwise it asks to be kept alive.
   */
  method Process(input: seq<array<real>>, output: seq<array<real>>) returns (r: Result<bool, ProcessError>)
    requires forall c, d :: 0 <= c < d < |output| ==> output[c] != output[d]
    requires forall c, d :: 0 <= c < |input| && 0 <= d < |output| ==> input[c] != output[d]
    modifies set c | 0 <= c < |output| :: output[c]
    ensures r == (if |output| <= |input| then Success(true) else Failure(TypeError))
    ensures forall c :: 0 <= c < |output| && c < |input| ==>
      output[c][..] == ShiftChannel(input[c][..], old(output[c][..]))
    ensures forall c :: |input| <= c < |output| ==> output[c][..] == old(output[c][..])
    ensures forall c :: 0 <= c < |input| ==> input[c][..] == old(input[c][..])
  {
    var channel := 0;
    while channel < |output|
      invariant 0 <= channel <= |output| && channel <= |input|
      invariant forall c :: 0 <= c < channel ==> output[c][..] == ShiftChannel(input[c][..], old(output[c][..]))
      invariant forall c :: channel <= c < |output| ==> output[c][..] == old(output[c][..])
      invariant forall c :: 0 <= c < |input| ==> input[c][..] == old(input[c][..])
    {
      if channel >= |input| {
        return Failure(TypeError);
      }
      var inputData := input[channel];
      var outputData := output[channel];
      var sample := 0;
      while sample < inputData.Length
        invariant 0 <= sample <= inputData.Length
        invariant forall s :: 0 <= s < outputData.Length ==>
          outputData[s] == if s < sample then ShiftChannel(inputData[..], old(outputData[..]))[s] else old(outputData[s])
        invariant forall c :: 0 <= c < channel ==> output[c][..] == ShiftChannel(input[c][..], old(output[c][..]))
        invariant forall c :: channel < c < |output| ==> output[c][..] == old(output[c][..])
        invariant forall c :: 0 <= c < |input| ==> input[c][..] == old(input[c][..])
      {
        if sample < outputData.Length {
          outputData[sample] := if sample * 2 < inputData.Length then inputData[sample * 2] else 0.0;
        }
        sample := sample + 1;
      }
      assert outputData[..] == ShiftChannel(inputData[..], old(outputData[..]));
      channel := channel + 1;
    }
    return Success(true);
  }
}
