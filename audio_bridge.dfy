/** main.go: the two entry points through which audio reaches the
    compressor of compressor.go, one for an interleaved buffer and one for
    a single channel's block. The package-level compressor variable is a
    parameter that may be null. */
module AudioBridge {
  import opened GoRuntime
  import opened Engine
  import opened Compressor
  import Signals

  /** main.go's `channels`: stereo. */
  const Channels: nat := 2

  /** What a sequence of ProcessSample calls leaves behind: the outputs in
      call order and the envelopes. */
  datatype Driven = Driven(outs: seq<Float>, peaks: seq<Float>)

  /** ProcessSample on every sample of an interleaved buffer in index order,
      sample j going to channel j mod Channels: a channel with an envelope
      runs Process on it, any other channel returns the sample unchanged. */
  function Drive(k: Coefficients, peaks: seq<Float>, xs: seq<Float>): (r: Driven)
    requires KneeValid(k.knee)
    ensures |r.outs| == |xs| && |r.peaks| == |peaks|
    decreases |xs|
  {
    if |xs| == 0 then Driven([], peaks)
    else
      var d := Drive(k, peaks, xs[..|xs| - 1]);
      var ch := (|xs| - 1) % Channels;
      var x := xs[|xs| - 1];
      if ch < |d.peaks| then
        var s := Process(k, d.peaks[ch], x);
        Driven(d.outs + [s.out], d.peaks[ch := s.peak])
      else Driven(d.outs + [x], d.peaks)
  }

  /** The samples of one channel of an interleaved buffer, in time order. */
  function Lane(xs: seq<Float>, ch: nat): (r: seq<Float>)
    decreases |xs|
  {
    if |xs| == 0 then []
    else Lane(xs[..|xs| - 1], ch) + (if (|xs| - 1) % Channels == ch then [xs[|xs| - 1]] else [])
  }

  /** The outputs and the final envelope of one channel fed the samples ys
      one after another. */
  datatype Streamed = Streamed(outs: seq<Float>, peak: Float)

  function Stream(k: Coefficients, peak: Float, ys: seq<Float>): (r: Streamed)
    requires KneeValid(k.knee)
    ensures |r.outs| == |ys|
    decreases |ys|
  {
    if |ys| == 0 then Streamed([], peak)
    else
      var s := Stream(k, peak, ys[..|ys| - 1]);
      var step := Process(k, s.peak, ys[|ys| - 1]);
      Streamed(s.outs + [step.out], step.peak)
  }

  lemma LaneSnoc(xs: seq<Float>, x: Float, ch: nat)
    ensures Lane(xs + [x], ch) == Lane(xs, ch) + (if |xs| % Channels == ch then [x] else [])
  {
    assert (xs + [x])[..|xs|] == xs;
  }

  lemma StreamSnoc(k: Coefficients, peak: Float, ys: seq<Float>, y: Float)
    requires KneeValid(k.knee)
    ensures var s := Stream(k, peak, ys);
            var step := Process(k, s.peak, y);
            Stream(k, peak, ys + [y]) == Streamed(s.outs + [step.out], step.peak)
  {
    assert (ys + [y])[..|ys|] == ys;
  }

  /** Frame-major order: the interleaved buffer hands each channel with an
      envelope exactly its own samples, in increasing time order, so that
      the channel's outputs and envelope are those of a mono stream. */
  lemma {:induction false} DrivePerChannel(k: Coefficients, peaks: seq<Float>, xs: seq<Float>, ch: nat)
    requires KneeValid(k.knee) && ch < Channels && ch < |peaks|
    ensures var d := Drive(k, peaks, xs);
            var s := Stream(k, peaks[ch], Lane(xs, ch));
            Lane(d.outs, ch) == s.outs && d.peaks[ch] == s.peak
    decreases |xs|
  {
    if |xs| > 0 {
      var n := |xs|;
      var init := xs[..n - 1];
      var x := xs[n - 1];
      assert xs == init + [x];
      DrivePerChannel(k, peaks, init, ch);
      var d := Drive(k, peaks, init);
      var s := Stream(k, peaks[ch], Lane(init, ch));
      var c := (n - 1) % Channels;
      LaneSnoc(init, x, ch);
      if c == ch {
        var step := Process(k, d.peaks[c], x);
        assert Drive(k, peaks, xs) == Driven(d.outs + [step.out], d.peaks[c := step.peak]);
        LaneSnoc(d.outs, step.out, ch);
        assert Lane(xs, ch) == Lane(init, ch) + [x];
        StreamSnoc(k, peaks[ch], Lane(init, ch), x);
        assert Stream(k, peaks[ch], Lane(xs, ch)) == Streamed(s.outs + [step.out], step.peak);
      } else {
        var o := if c < |d.peaks| then Process(k, d.peaks[c], x).out else x;
        assert Drive(k, peaks, xs).outs == d.outs + [o];
        assert Drive(k, peaks, xs).peaks[ch] == d.peaks[ch];
        LaneSnoc(d.outs, o, ch);
        assert Lane(xs, ch) == Lane(init, ch);
      }
    }
  }

  /** A channel without an envelope gets its samples back unchanged. */
  lemma {:induction false} DrivePassThrough(k: Coefficients, peaks: seq<Float>, xs: seq<Float>, ch: nat)
    requires KneeValid(k.knee) && |peaks| <= ch < Channels
    ensures Lane(Drive(k, peaks, xs).outs, ch) == Lane(xs, ch)
    decreases |xs|
  {
    if |xs| > 0 {
      var n := |xs|;
      var init := xs[..n - 1];
      var x := xs[n - 1];
      assert xs == init + [x];
      DrivePassThrough(k, peaks, init, ch);
      var d := Drive(k, peaks, init);
      var c := (n - 1) % Channels;
      var o := if c < |peaks| then Process(k, d.peaks[c], x).out else x;
      assert Drive(k, peaks, xs).outs == d.outs + [o];
      LaneSnoc(init, x, ch);
      LaneSnoc(d.outs, o, ch);
    }
  }

  /** Envelopes past the stereo pair are never touched. */
  lemma {:induction false} DriveKeepsOtherEnvelopes(k: Coefficients, peaks: seq<Float>, xs: seq<Float>)
    requires KneeValid(k.knee)
    ensures forall j :: Channels <= j < |peaks| ==> Drive(k, peaks, xs).peaks[j] == peaks[j]
    decreases |xs|
  {
    if |xs| > 0 {
      DriveKeepsOtherEnvelopes(k, peaks, xs[..|xs| - 1]);
    }
  }

  /** Lane ch holds the samples in slots ch, ch + 2, ch + 4, ... */
  lemma {:induction false} LaneAt(xs: seq<Float>, ch: nat)
    requires ch < Channels
    ensures |Lane(xs, ch)| == (|xs| + 1 - ch) / 2
    ensures forall i :: 0 <= i < |Lane(xs, ch)| ==> Lane(xs, ch)[i] == xs[2 * i + ch]
    decreases |xs|
  {
    if |xs| > 0 {
      var init := xs[..|xs| - 1];
      LaneAt(init, ch);
      assert forall i :: 0 <= i < |init| ==> init[i] == xs[i];
    }
  }

  /** On a whole number of frames, lane 0 is the left channel and lane 1 the
      right channel of DeinterleaveChannels. */
  lemma LanesAreDeinterleaved(xs: seq<Float>)
    requires |xs| % Channels == 0
    ensures Lane(xs, 0) == Signals.Evens(xs) && Lane(xs, 1) == Signals.Odds(xs)
  {
    var n := |xs|;
    assert n % 2 == 0;
    assert (n + 1) / 2 == n / 2 && (n + 1 - 1) / 2 == n / 2;
    LaneAt(xs, 0);
    LaneAt(xs, 1);
    assert Lane(xs, 0) == Signals.Evens(xs);
    assert Lane(xs, 1) == Signals.Odds(xs);
  }

  /** processAudioBuffer on a stereo compressor, seen through
      DeinterleaveChannels: each half of the buffer comes out as the mono
      stream of that channel's samples through its own envelope. */
  lemma StereoBufferIsTwoStreams(k: Coefficients, peaks: seq<Float>, xs: seq<Float>)
    requires KneeValid(k.knee) && |peaks| == Channels && |xs| % Channels == 0
    ensures var d := Drive(k, peaks, xs);
            var left := Stream(k, peaks[0], Signals.Evens(xs));
            var right := Stream(k, peaks[1], Signals.Odds(xs));
            && Signals.Evens(d.outs) == left.outs && Signals.Odds(d.outs) == right.outs
            && d.peaks == [left.peak, right.peak]
  {
    var d := Drive(k, peaks, xs);
    LanesAreDeinterleaved(xs);
    LanesAreDeinterleaved(d.outs);
    DrivePerChannel(k, peaks, xs, 0);
    DrivePerChannel(k, peaks, xs, 1);
  }

  /** One more sample of the interleaved buffer. */
  lemma DriveSnoc(k: Coefficients, peaks: seq<Float>, xs: seq<Float>, n: nat)
    requires KneeValid(k.knee) && n < |xs|
    ensures var d := Drive(k, peaks, xs[..n]);
            var ch := n % Channels;
            Drive(k, peaks, xs[..n + 1])
            == if ch < |d.peaks| then
                 var s := Process(k, d.peaks[ch], xs[n]);
                 Driven(d.outs + [s.out], d.peaks[ch := s.peak])
               else Driven(d.outs + [xs[n]], d.peaks)
  {
    assert xs[..n + 1][..n] == xs[..n];
  }

  /** The samples processed so far (the first n of xs) match Drive, and the
      rest of the buffer is untouched. */
  ghost predicate DriveInv(c: SoftKneeCompressor, audio: array<Float>, k: Coefficients,
                           p0: seq<Float>, xs: seq<Float>, n: nat)
    reads c, c.peak, c.meters, audio
  {
    && c.Valid() && c.Coeffs() == k && KneeValid(k.knee)
    && |xs| == audio.Length && n <= audio.Length
    && audio[..n] == Drive(k, p0, xs[..n]).outs
    && audio[n..] == xs[n..]
    && c.peak[..] == Drive(k, p0, xs[..n]).peaks
  }

  /** processAudioBuffer: nothing happens without a compressor or for a
      length that is not a whole number of frames. Otherwise every sample is
      replaced by ProcessSample(sample, index mod Channels), frame by frame
      and channel by channel within a frame. */
  method ProcessAudioBuffer(c: SoftKneeCompressor?, audio: array<Float>)
    requires c != null ==> c.Valid() && audio != c.peak
    modifies audio, if c != null then {c.peak} else {}
    ensures c != null ==> c.Valid()
    ensures c == null || audio.Length % Channels != 0
            ==> audio[..] == old(audio[..]) && (c != null ==> c.peak[..] == old(c.peak[..]))
    ensures c != null && audio.Length % Channels == 0
            ==> var d := Drive(c.Coeffs(), old(c.peak[..]), old(audio[..]));
                audio[..] == d.outs && c.peak[..] == d.peaks
  {
    if c == null {
      return;
    }
    if audio.Length % Channels != 0 {
      return;
    }
    c.CoefficientsInRange();
    var k := c.Coeffs();
    ghost var xs := audio[..];
    ghost var p0 := c.peak[..];
    var samplesPerChannel := audio.Length / Channels;
    var i := 0;
    while i < samplesPerChannel
      invariant 0 <= i <= samplesPerChannel
      invariant DriveInv(c, audio, k, p0, xs, i * Channels)
    {
      ProcessFrame(c, audio, k, p0, xs, i);
      i := i + 1;
    }
    assert audio[..] == audio[..audio.Length];
    assert xs[..audio.Length] == xs;
  }

  /** The inner loop over the channels of frame i. */
  method ProcessFrame(c: SoftKneeCompressor, audio: array<Float>, k: Coefficients,
                      ghost p0: seq<Float>, ghost xs: seq<Float>, i: nat)
    requires audio != c.peak && i * Channels + Channels <= audio.Length
    requires DriveInv(c, audio, k, p0, xs, i * Channels)
    modifies audio, c.peak
    ensures DriveInv(c, audio, k, p0, xs, i * Channels + Channels)
  {
    var ch := 0;
    while ch < Channels
      invariant 0 <= ch <= Channels
      invariant DriveInv(c, audio, k, p0, xs, i * Channels + ch)
    {
      var index := i * Channels + ch;
      FrameIndex(i, ch);
      ProcessOne(c, audio, k, p0, xs, index, ch);
      ch := ch + 1;
    }
  }

  /** Slot ch of frame i belongs to channel ch. */
  lemma FrameIndex(i: nat, ch: nat)
    requires ch < Channels
    ensures (i * Channels + ch) % Channels == ch
  {
  }

  /** The body of the inner loop: `audio[index] = ProcessSample(audio[index], ch)`. */
  method ProcessOne(c: SoftKneeCompressor, audio: array<Float>, k: Coefficients,
                    ghost p0: seq<Float>, ghost xs: seq<Float>, index: nat, ch: nat)
    requires audio != c.peak && index < audio.Length && ch == index % Channels
    requires DriveInv(c, audio, k, p0, xs, index)
    modifies audio, c.peak
    ensures DriveInv(c, audio, k, p0, xs, index + 1)
  {
    ghost var d := Drive(k, p0, xs[..index]);
    DriveSnoc(k, p0, xs, index);
    assert audio[index] == xs[index] by {
      assert audio[index..][0] == xs[index..][0];
    }
    audio[index] := c.ProcessSample(audio[index], ch);
    assert audio[..index + 1] == audio[..index] + [audio[index]];
    assert audio[index + 1..] == old(audio[index..])[1..];
  }

  /** process_channel_go: nothing happens without a compressor; a positive
      rate is passed to SetSampleRate first, then the block goes to
      ProcessBlock for that channel. */
  method ProcessChannelGo(c: SoftKneeCompressor?, inp: array<Float>, out: array<Float>,
                          rate: int, channelIndex: int)
    requires c != null ==> c.Valid() && inp != c.peak && out != c.peak
    modifies if c != null then {c, c.peak, c.meters} else {}, inp, out
    ensures c == null ==> inp[..] == old(inp[..]) && out[..] == old(out[..])
    ensures c != null ==> && c.Valid()
                          && c.Parameters() == if rate > 0 then old(c.Parameters()).(sampleRate := rate as real)
                                               else old(c.Parameters())
    ensures c != null && !(0 <= channelIndex < c.channels && inp.Length == out.Length)
            ==> && inp[..] == old(inp[..]) && out[..] == old(out[..])
                && c.peak[..] == old(c.peak[..])
                && c.GetMeters() == old(c.GetMeters()).(sampleRate := c.sampleRate)
    ensures c != null && 0 <= channelIndex < c.channels && inp.Length == out.Length
            ==> var xs := SanitizeAll(old(inp[..]));
                var t := Run(c.Coeffs(), old(c.peak[channelIndex]), xs);
                && out[..] == t.outs
                && (inp != out ==> inp[..] == xs)
                && c.peak[..] == old(c.peak[..])[channelIndex := t.peak]
                && c.GetMeters() == PublishMeters(old(c.GetMeters()).(sampleRate := c.sampleRate),
                                                  channelIndex, MaxAbs(xs), MaxAbs(t.outs),
                                                  MinGain(t.gains))
  {
    if c == null {
      return;
    }
    if rate > 0 {
      c.SetSampleRate(rate as real);
    }
    c.ProcessBlock(inp, out, channelIndex);
  }
}
