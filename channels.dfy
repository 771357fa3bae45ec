/**
 * Channel layout of the audio utilities: converting between one sample
 * sequence per channel (a Web Audio AudioBuffer) and frame-interleaved order
 * (the data chunk of a wave file), and the two editing operations built on
 * it. Samples are opaque values of type T.
 */
module ChannelLayout {
  import opened Wrappers
  import Js

  /** The sample-rate range a Web Audio context accepts for `createBuffer`. */
  const MIN_SAMPLE_RATE: int := 3000
  const MAX_SAMPLE_RATE: int := 768000

  /** A Web Audio AudioBuffer: a rate, a length in frames, and one sample sequence per channel. */
  datatype AudioBuffer<T> = AudioBuffer(sampleRate: int, length: nat, channelData: seq<seq<T>>)

  /** What `createBuffer` throws for an argument out of range. */
  datatype AudioError = NotSupportedError

  predicate SameLength<T>(chs: seq<seq<T>>, len: nat) {
    forall c :: 0 <= c < |chs| ==> |chs[c]| == len
  }

  /** What the platform guarantees of every AudioBuffer it hands out. */
  predicate ValidBuffer<T>(b: AudioBuffer<T>) {
    && 1 <= |b.channelData|
    && 1 <= b.length
    && MIN_SAMPLE_RATE <= b.sampleRate <= MAX_SAMPLE_RATE
    && SameLength(b.channelData, b.length)
  }

  // ---------------------------------------------------------------------------
  // Arithmetic of frame-major indices

  lemma MulMonotonic(a: nat, b: nat, n: nat)
    ensures a <= b ==> a * n <= b * n
  {
  }

  /** Whole frames of n samples lie at least n apart. */
  lemma MulGap(a: nat, b: nat, n: nat)
    ensures a < b ==> a * n + n <= b * n
  {
    if a < b {
      MulMonotonic(a + 1, b, n);
    }
  }

  /** Sample c of frame f sits before the end of `count` frames of n samples. */
  lemma IndexBound(f: nat, c: nat, n: nat, count: nat)
    requires f < count && c < n
    ensures f * n + c < count * n
  {
    MulMonotonic(f + 1, count, n);
  }

  /** Every index is some frame's sample for some channel. */
  lemma IndexSplit(k: nat, n: nat)
    requires n >= 1
    ensures k == (k / n) * n + k % n && 0 <= k % n < n
  {
  }

  /** Frames below |s| / n fit inside s. */
  lemma FrameFits(f: nat, c: nat, n: nat, len: nat)
    requires n >= 1 && c < n && f < len / n
    ensures f * n + c < len
  {
    IndexBound(f, c, n, len / n);
    IndexSplit(len, n);
  }

  /** The loop test `frame * n < len` admits at most one frame past the whole ones. */
  lemma FrameInRange(frame: nat, n: nat, len: nat)
    requires n >= 1 && frame * n < len
    ensures frame <= len / n
  {
    IndexSplit(len, n);
    MulGap(len / n, frame, n);
  }

  /** Once `frame * n < len` fails, every whole frame has been visited. */
  lemma FramesExhausted(frame: nat, n: nat, len: nat)
    requires n >= 1 && frame * n >= len
    ensures frame >= len / n
  {
    IndexSplit(len, n);
    MulGap(frame, len / n, n);
  }

  // ---------------------------------------------------------------------------
  // Interleaving

  /**
   * Reading sample f of a channel as a Float32Array store sees it: past the
   * end the read is undefined and the array stores NaN, passed in as `nan`.
   */
  function At<T>(ch: seq<T>, f: nat, nan: T): (r: T)
    ensures f < |ch| ==> r == ch[f]
    ensures f >= |ch| ==> r == nan
  {
    if f < |ch| then ch[f] else nan
  }

  /** One frame: sample f of every channel, in channel order. */
  function Frame<T>(chs: seq<seq<T>>, f: nat, nan: T): (r: seq<T>)
    ensures |r| == |chs|
    ensures forall c :: 0 <= c < |chs| ==> r[c] == At(chs[c], f, nan)
  {
    seq(|chs|, c requires 0 <= c < |chs| => At(chs[c], f, nan))
  }

  /** The first `count` frames, one after another: the reference meaning of interleaving. */
  function Frames<T>(chs: seq<seq<T>>, count: nat, nan: T): (r: seq<T>)
    ensures |r| == count * |chs|
  {
    if count == 0 then [] else Frames(chs, count - 1, nan) + Frame(chs, count - 1, nan)
  }

  /** Sample c of frame f sits at index f * n + c of the frame-major sequence. */
  lemma {:induction false} FramesAt<T>(chs: seq<seq<T>>, count: nat, nan: T, f: nat, c: nat)
    requires f < count && c < |chs|
    ensures f * |chs| + c < count * |chs|
    ensures Frames(chs, count, nan)[f * |chs| + c] == At(chs[c], f, nan)
  {
    IndexBound(f, c, |chs|, count);
    if f < count - 1 {
      FramesAt(chs, count - 1, nan, f, c);
    }
  }

  /** `interleaveChannels` specified: as many frames as channel 0 has samples. */
  function Interleaved<T>(chs: seq<seq<T>>, nan: T): (r: seq<T>)
    requires |chs| >= 1
    ensures |r| == |chs[0]| * |chs|
  {
    Frames(chs, |chs[0]|, nan)
  }

  lemma InterleavedAt<T>(chs: seq<seq<T>>, nan: T, f: nat, c: nat)
    requires |chs| >= 1 && f < |chs[0]| && c < |chs|
    ensures f * |chs| + c < |Interleaved(chs, nan)|
    ensures Interleaved(chs, nan)[f * |chs| + c] == At(chs[c], f, nan)
  {
    FramesAt(chs, |chs[0]|, nan, f, c);
  }

  /**
   * `interleaveChannels`: a Float32Array of |channels[0]| * n samples whose
   * element i is read from channel i % n at frame floor(i / n).
   */
  method InterleaveChannels<T(0)>(channels: seq<seq<T>>, nan: T) returns (out: seq<T>)
    requires |channels| >= 1
    ensures out == Interleaved(channels, nan)
  {
    var n := |channels|;
    var len := |channels[0]| * n;
    var final := new T[len];
    for i := 0 to len
      invariant forall k :: 0 <= k < i ==> final[k] == At(channels[k % n], k / n, nan)
    {
      final[i] := At(channels[i % n], i / n, nan);
    }
    out := final[..];
    forall k | 0 <= k < len
      ensures out[k] == Interleaved(channels, nan)[k]
    {
      InterleavedAtIndex(channels, nan, k);
    }
  }

  /** Element k of the interleaving is read from channel k % n at frame k / n. */
  lemma InterleavedAtIndex<T>(chs: seq<seq<T>>, nan: T, k: nat)
    requires |chs| >= 1 && k < |chs[0]| * |chs|
    ensures Interleaved(chs, nan)[k] == At(chs[k % |chs|], k / |chs|, nan)
  {
    var n := |chs|;
    IndexSplit(k, n);
    MulMonotonic(|chs[0]|, k / n, n);
    InterleavedAt(chs, nan, k / n, k % n);
  }

  // ---------------------------------------------------------------------------
  // Deinterleaving

  /** Sample c of frame f of an interleaved sequence with n channels. */
  function SampleAt<T>(frames: seq<T>, n: nat, f: nat, c: nat): T
    requires n >= 1 && c < n && f < |frames| / n
  {
    FrameFits(f, c, n, |frames|);
    frames[f * n + c]
  }

  /**
   * The channels of an interleaved sequence: floor(|frames| / n) whole
   * frames, channel c taking element f * n + c of frame f; a trailing
   * partial frame is dropped.
   */
  function Deinterleaved<T>(frames: seq<T>, n: nat): (r: seq<seq<T>>)
    requires n >= 1
    ensures |r| == n
    ensures SameLength(r, |frames| / n)
  {
    seq(n, c requires 0 <= c < n => Channel(frames, n, c))
  }

  /** Channel c of an interleaved sequence: element c of every whole frame. */
  function Channel<T>(frames: seq<T>, n: nat, c: nat): (r: seq<T>)
    requires n >= 1 && c < n
    ensures |r| == |frames| / n
  {
    seq(|frames| / n, f requires 0 <= f < |frames| / n => SampleAt(frames, n, f, c))
  }

  lemma DeinterleavedAt<T>(frames: seq<T>, n: nat, f: nat, c: nat)
    requires n >= 1 && c < n && f < |frames| / n
    ensures f * n + c < |frames|
    ensures Deinterleaved(frames, n)[c][f] == frames[f * n + c]
  {
    FrameFits(f, c, n, |frames|);
  }

  lemma DivOfMul(a: nat, n: nat)
    requires n >= 1
    ensures (a * n) / n == a && (a * n) % n == 0
  {
    var q, r := (a * n) / n, (a * n) % n;
    IndexSplit(a * n, n);
    MulGap(q, a, n);
    MulGap(a, q, n);
  }

  /** Deinterleaving undoes interleaving for equal-length channels. */
  lemma DeinterleaveInterleave<T>(chs: seq<seq<T>>, len: nat, nan: T)
    requires |chs| >= 1 && SameLength(chs, len)
    ensures Deinterleaved(Interleaved(chs, nan), |chs|) == chs
  {
    var n := |chs|;
    var frames := Interleaved(chs, nan);
    DivOfMul(len, n);
    var d := Deinterleaved(frames, n);
    forall c | 0 <= c < n
      ensures d[c] == chs[c]
    {
      DeinterleaveChannel(chs, len, nan, c);
    }
  }

  lemma DeinterleaveChannel<T>(chs: seq<seq<T>>, len: nat, nan: T, c: nat)
    requires |chs| >= 1 && SameLength(chs, len) && c < |chs|
    ensures Deinterleaved(Interleaved(chs, nan), |chs|)[c] == chs[c]
  {
    var n := |chs|;
    var frames := Interleaved(chs, nan);
    DivOfMul(len, n);
    var d := Deinterleaved(frames, n)[c];
    assert |d| == len;
    forall f | 0 <= f < len
      ensures d[f] == chs[c][f]
    {
      InterleavedAt(chs, nan, f, c);
      DeinterleavedAt(frames, n, f, c);
    }
  }

  /** Interleaving undoes deinterleaving when the frames divide into whole frames. */
  lemma InterleaveDeinterleave<T>(frames: seq<T>, n: nat, nan: T)
    requires n >= 1 && |frames| % n == 0
    ensures Interleaved(Deinterleaved(frames, n), nan) == frames
  {
    var d := Deinterleaved(frames, n);
    var len := |frames| / n;
    IndexSplit(|frames|, n);
    var r := Interleaved(d, nan);
    assert |r| == |frames|;
    forall k | 0 <= k < |frames|
      ensures r[k] == frames[k]
    {
      IndexSplit(k, n);
      var f, c := k / n, k % n;
      MulMonotonic(len, f, n);
      InterleavedAt(d, nan, f, c);
      DeinterleavedAt(frames, n, f, c);
    }
  }

  /**
   * `framesToAudioBuffer` at sample width 4: an AudioBuffer of
   * |frames| / channels frames (`createBuffer` truncates the fractional
   * count) filled channel by channel with sample frame * channels + channel.
   * `createBuffer` throws for no channels, no frames or a rate out of range.
   */
  method FramesToAudioBuffer<T(0)>(rate: int, channels: int, frames: seq<T>)
    returns (r: Result<AudioBuffer<T>, AudioError>)
    ensures r.Success? <==>
      channels >= 1 && |frames| / channels >= 1 && MIN_SAMPLE_RATE <= rate <= MAX_SAMPLE_RATE
    ensures r.Success? ==> r.value == AudioBuffer(rate, |frames| / channels, Deinterleaved(frames, channels))
    ensures r.Success? ==> ValidBuffer(r.value)
  {
    if channels < 1 || |frames| / channels < 1 || rate < MIN_SAMPLE_RATE || rate > MAX_SAMPLE_RATE {
      return Failure(NotSupportedError);
    }
    var length := |frames| / channels;
    var channelData: seq<seq<T>> := [];
    for channel := 0 to channels
      invariant |channelData| == channel
      invariant forall c :: 0 <= c < channel ==> channelData[c] == Channel(frames, channels, c)
    {
      var data := ReadChannel(frames, channels, channel);
      channelData := channelData + [data];
    }
    assert channelData == Deinterleaved(frames, channels);
    r := Success(AudioBuffer(rate, length, channelData));
  }

  /**
   * The inner loop of `framesToAudioBuffer`: channel `channel` of a fresh
   * channel array, filled from element frame * channels + channel of every frame.
   */
  method ReadChannel<T(0)>(frames: seq<T>, channels: nat, channel: nat) returns (r: seq<T>)
    requires channel < channels
    ensures r == Channel(frames, channels, channel)
  {
    var length := |frames| / channels;
    var data := new T[length];
    var frame := 0;
    // The loop runs while frame < |frames| / channels as a real number, one
    // step past `length` when the division is fractional; a typed array
    // ignores that last out-of-range store.
    while frame * channels < |frames|
      invariant 0 <= frame <= length + 1
      invariant forall f :: 0 <= f < frame && f < length ==> data[f] == SampleAt(frames, channels, f, channel)
    {
      FrameInRange(frame, channels, |frames|);
      if frame < length {
        FrameFits(frame, channel, channels, |frames|);
        data[frame] := frames[frame * channels + channel];
      }
      frame := frame + 1;
    }
    FramesExhausted(frame, channels, |frames|);
    r := data[..];
  }

  // ---------------------------------------------------------------------------
  // Splitting and editing

  /** `splitIntoChannels`: a copy of every channel of the buffer, in channel order. */
  method SplitIntoChannels<T>(audioBuffer: AudioBuffer<T>) returns (channels: seq<seq<T>>)
    requires ValidBuffer(audioBuffer)
    ensures channels == audioBuffer.channelData
    ensures |channels| >= 1 && SameLength(channels, audioBuffer.length)
  {
    channels := [];
    for channel := 0 to |audioBuffer.channelData|
      invariant channels == audioBuffer.channelData[..channel]
    {
      channels := channels + [audioBuffer.channelData[channel]];
    }
  }

  /** `audioToArrayBuffer`: the buffer's channels, interleaved. */
  method AudioToArrayBuffer<T(0)>(audioBuffer: AudioBuffer<T>, nan: T) returns (out: seq<T>)
    requires ValidBuffer(audioBuffer)
    ensures out == Interleaved(audioBuffer.channelData, nan)
    ensures |out| == audioBuffer.length * |audioBuffer.channelData|
  {
    var channels := SplitIntoChannels(audioBuffer);
    out := InterleaveChannels(channels, nan);
  }

  /** Every channel's `slice(startIndex, endIndex)`. */
  function SliceAll<T>(chs: seq<seq<T>>, startIndex: int, endIndex: int): (r: seq<seq<T>>)
    ensures |r| == |chs|
    ensures forall c :: 0 <= c < |chs| ==> r[c] == Js.Slice(chs[c], startIndex, endIndex)
  {
    seq(|chs|, c requires 0 <= c < |chs| => Js.Slice(chs[c], startIndex, endIndex))
  }

  /** Slicing equal-length channels leaves them of equal length. */
  lemma SliceAllSameLength<T>(chs: seq<seq<T>>, len: nat, startIndex: int, endIndex: int)
    requires |chs| >= 1 && SameLength(chs, len)
    ensures SameLength(SliceAll(chs, startIndex, endIndex), |Js.Slice(chs[0], startIndex, endIndex)|)
  {
  }

  /**
   * `trimAudioBuffer` on sample indices: every channel becomes its
   * `slice(startIndex, endIndex)`; rate and channel count are kept. The
   * rebuilt buffer cannot be created when the slice is empty.
   */
  method TrimAudioBuffer<T(0)>(audioBuffer: AudioBuffer<T>, startIndex: int, endIndex: int, nan: T)
    returns (r: Result<AudioBuffer<T>, AudioError>)
    requires ValidBuffer(audioBuffer)
    ensures var kept := |Js.Slice(audioBuffer.channelData[0], startIndex, endIndex)|;
      r.Success? <==> kept >= 1
    ensures r.Success? ==>
      && r.value.sampleRate == audioBuffer.sampleRate
      && r.value.length == |Js.Slice(audioBuffer.channelData[0], startIndex, endIndex)|
      && r.value.channelData == SliceAll(audioBuffer.channelData, startIndex, endIndex)
  {
    var channels := SplitIntoChannels(audioBuffer);
    ghost var target := SliceAll(audioBuffer.channelData, startIndex, endIndex);
    for channel := 0 to |channels|
      invariant |channels| == |audioBuffer.channelData|
      invariant forall c :: 0 <= c < channel ==> channels[c] == target[c]
      invariant forall c :: channel <= c < |channels| ==> channels[c] == audioBuffer.channelData[c]
    {
      channels := channels[channel := Js.Slice(channels[channel], startIndex, endIndex)];
    }
    assert channels == target;
    var kept := |Js.Slice(audioBuffer.channelData[0], startIndex, endIndex)|;
    SliceAllSameLength(audioBuffer.channelData, audioBuffer.length, startIndex, endIndex);
    var frames := InterleaveChannels(channels, nan);
    DeinterleaveInterleave(channels, kept, nan);
    assert |frames| / |channels| == kept by {
      assert |frames| == kept * |channels|;
    }
    r := FramesToAudioBuffer(audioBuffer.sampleRate, |audioBuffer.channelData|, frames);
  }

  /** Every channel's `slice(from)`. */
  function SliceAllFrom<T>(chs: seq<seq<T>>, from: int): (r: seq<seq<T>>)
    ensures |r| == |chs|
    ensures forall c :: 0 <= c < |chs| ==> r[c] == Js.SliceFrom(chs[c], from)
  {
    seq(|chs|, c requires 0 <= c < |chs| => Js.SliceFrom(chs[c], from))
  }

  /**
   * `overwriteSection` on sample indices: the interleaved samples before
   * startIndex, then the whole replacement interleaved, then the
   * interleaved samples from endIndex on.
   */
  method OverwriteSection<T(0)>(original: AudioBuffer<T>, replacement: AudioBuffer<T>,
                                startIndex: int, endIndex: int, nan: T)
    returns (out: seq<T>)
    requires ValidBuffer(original) && ValidBuffer(replacement)
    ensures out == Interleaved(SliceAll(original.channelData, 0, startIndex), nan)
                   + Interleaved(replacement.channelData, nan)
                   + Interleaved(SliceAllFrom(original.channelData, endIndex), nan)
  {
    var originalChannels := SplitIntoChannels(original);
    var firstSection: seq<seq<T>> := [];
    var secondSection: seq<seq<T>> := [];
    for channel := 0 to |originalChannels|
      invariant firstSection == SliceAll(originalChannels[..channel], 0, startIndex)
      invariant secondSection == SliceAllFrom(originalChannels[..channel], endIndex)
    {
      firstSection := firstSection + [Js.Slice(originalChannels[channel], 0, startIndex)];
      secondSection := secondSection + [Js.SliceFrom(originalChannels[channel], endIndex)];
    }
    assert originalChannels[..|originalChannels|] == originalChannels;
    var first := InterleaveChannels(firstSection, nan);
    var middle := AudioToArrayBuffer(replacement, nan);
    var last := InterleaveChannels(secondSection, nan);
    out := first + middle + last;
  }

  /** Channel by channel, the prefix before s, then the replacement, then the suffix from e. */
  function Spliced<T>(chs: seq<seq<T>>, repl: seq<seq<T>>, s: int, e: int): (r: seq<seq<T>>)
    requires |repl| == |chs|
    ensures |r| == |chs|
    ensures forall c :: 0 <= c < |chs| ==>
      r[c] == Js.Slice(chs[c], 0, s) + repl[c] + Js.SliceFrom(chs[c], e)
  {
    seq(|chs|, c requires 0 <= c < |chs| => Js.Slice(chs[c], 0, s) + repl[c] + Js.SliceFrom(chs[c], e))
  }

  /**
   * What `overwriteSection` means: when the replacement has as many channels
   * as the original, deinterleaving the result gives, channel by channel,
   * the original's prefix, the replacement, and the original's suffix.
   */
  lemma OverwriteIsSplice<T>(original: AudioBuffer<T>, replacement: AudioBuffer<T>,
                             startIndex: int, endIndex: int, nan: T)
    requires ValidBuffer(original) && ValidBuffer(replacement)
    requires |replacement.channelData| == |original.channelData|
    ensures var out := Interleaved(SliceAll(original.channelData, 0, startIndex), nan)
                       + Interleaved(replacement.channelData, nan)
                       + Interleaved(SliceAllFrom(original.channelData, endIndex), nan);
      Deinterleaved(out, |original.channelData|)
        == Spliced(original.channelData, replacement.channelData, startIndex, endIndex)
  {
    var n := |original.channelData|;
    var A := SliceAll(original.channelData, 0, startIndex);
    var B := replacement.channelData;
    var C := SliceAllFrom(original.channelData, endIndex);
    var la := |A[0]|;
    var lb := |B[0]|;
    var lc := |C[0]|;
    assert SameLength(A, la) && SameLength(B, lb) && SameLength(C, lc);
    InterleaveJoin(A, B, la, lb, nan);
    var AB := Join(A, B);
    InterleaveJoin(AB, C, la + lb, lc, nan);
    DeinterleaveInterleave(Join(AB, C), la + lb + lc, nan);
    assert Join(AB, C) == Spliced(original.channelData, B, startIndex, endIndex);
  }

  /** Channel-wise concatenation. */
  function Join<T>(a: seq<seq<T>>, b: seq<seq<T>>): (r: seq<seq<T>>)
    requires |a| == |b|
    ensures |r| == |a|
    ensures forall c :: 0 <= c < |a| ==> r[c] == a[c] + b[c]
  {
    seq(|a|, c requires 0 <= c < |a| => a[c] + b[c])
  }

  /** Interleaving two runs of equal-length channels one after the other is interleaving their join. */
  lemma InterleaveJoin<T>(a: seq<seq<T>>, b: seq<seq<T>>, la: nat, lb: nat, nan: T)
    requires |a| >= 1 && |a| == |b| && SameLength(a, la) && SameLength(b, lb)
    ensures SameLength(Join(a, b), la + lb)
    ensures Interleaved(a, nan) + Interleaved(b, nan) == Interleaved(Join(a, b), nan)
  {
    var n := |a|;
    var lhs := Interleaved(a, nan) + Interleaved(b, nan);
    var rhs := Interleaved(Join(a, b), nan);
    assert |lhs| == |rhs| by {
      assert (la + lb) * n == la * n + lb * n;
    }
    forall k | 0 <= k < |rhs|
      ensures lhs[k] == rhs[k]
    {
      JoinAt(a, b, la, lb, nan, k);
    }
  }

  lemma JoinAt<T>(a: seq<seq<T>>, b: seq<seq<T>>, la: nat, lb: nat, nan: T, k: nat)
    requires |a| >= 1 && |a| == |b| && SameLength(a, la) && SameLength(b, lb)
    requires k < (la + lb) * |a|
    ensures k < la * |a| ==> Interleaved(a, nan)[k] == Interleaved(Join(a, b), nan)[k]
    ensures la * |a| <= k ==> Interleaved(b, nan)[k - la * |a|] == Interleaved(Join(a, b), nan)[k]
  {
    var n := |a|;
    var j := Join(a, b);
    IndexSplit(k, n);
    var f, c := k / n, k % n;
    MulMonotonic(la + lb, f, n);
    InterleavedAt(j, nan, f, c);
    if f < la {
      InterleavedAt(a, nan, f, c);
      IndexBound(f, c, n, la);
    } else {
      MulMonotonic(la, f, n);
      var g := f - la;
      assert k - la * n == g * n + c by {
        assert f * n == la * n + g * n;
      }
      InterleavedAt(b, nan, g, c);
    }
  }
}
