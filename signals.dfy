/** test_signals.go: the buffer generators and the stereo interleaving used
    by the integration tests. Samples are Floats (the float32 conversion is
    not modelled); `make` fills a new buffer with zeros and a negative length
    or an index out of range panics. */
module Signals {
  import opened GoRuntime

  const Silence: Float := Finite(0.0)

  /** `length` copies of level. */
  function Constant(level: Float, length: nat): seq<Float> {
    seq(length, _ => level)
  }

  /** 0 before start, amplitude from start on. */
  function Step(amplitude: Float, start: nat, length: nat): seq<Float> {
    seq(length, i => if i < start then Silence else amplitude)
  }

  /** 0 everywhere except at position, where the buffer holds amplitude. */
  function Impulse(amplitude: Float, position: nat, length: nat): seq<Float> {
    seq(length, i => if i == position then amplitude else Silence)
  }

  /** The stereo buffer whose even slots hold left and whose odd slots hold right. */
  function Interleaved(left: seq<Float>, right: seq<Float>): (x: seq<Float>)
    requires |left| == |right|
    ensures |x| == 2 * |left|
  {
    seq(2 * |left|, j requires 0 <= j < 2 * |left| =>
      if j % 2 == 0 then left[j / 2] else right[j / 2])
  }

  /** The samples in the even (left) slots of a stereo buffer. */
  function Evens(x: seq<Float>): (r: seq<Float>)
    ensures |r| == |x| / 2
  {
    seq(|x| / 2, i requires 0 <= i < |x| / 2 => x[2 * i])
  }

  /** The samples in the odd (right) slots of a stereo buffer. */
  function Odds(x: seq<Float>): (r: seq<Float>)
    ensures |r| == |x| / 2
  {
    seq(|x| / 2, i requires 0 <= i < |x| / 2 => x[2 * i + 1])
  }

  /** A new zero-filled buffer, as `make([]float32, length)` with length >= 0. */
  method NewBuffer(length: nat) returns (buffer: array<Float>)
    ensures fresh(buffer) && buffer[..] == Constant(Silence, length)
  {
    buffer := new Float[length](_ => Silence);
  }

  /** GenerateDC: panics for a negative length, else `length` copies of level. */
  method GenerateDC(level: Float, length: int) returns (r: Outcome<array<Float>>)
    ensures r.Ok? <==> length >= 0
    ensures r.Ok? ==> fresh(r.value) && r.value[..] == Constant(level, length)
  {
    if length < 0 {
      return Panic("makeslice: len out of range");
    }
    var buffer := NewBuffer(length);
    var i := 0;
    while i < length
      invariant 0 <= i <= length
      invariant forall j :: 0 <= j < i ==> buffer[j] == level
    {
      buffer[i] := level;
      i := i + 1;
    }
    return Ok(buffer);
  }

  /** GenerateStep: the loop runs from startPosition, so a negative start
      indexes before the buffer and panics; a start at or past the end leaves
      the buffer silent. */
  method GenerateStep(amplitude: Float, startPosition: int, length: int)
    returns (r: Outcome<array<Float>>)
    ensures r.Ok? <==> length >= 0 && startPosition >= 0
    ensures r.Ok? ==> fresh(r.value) && r.value[..] == Step(amplitude, startPosition, length)
  {
    if length < 0 {
      return Panic("makeslice: len out of range");
    }
    var buffer := NewBuffer(length);
    if startPosition < 0 {
      return Panic("index out of range");
    }
    var i := startPosition;
    while i < length
      invariant startPosition <= i && (startPosition <= length ==> i <= length)
      invariant forall j :: 0 <= j < length ==> buffer[j] == if startPosition <= j < i then amplitude else Silence
    {
      buffer[i] := amplitude;
      i := i + 1;
    }
    return Ok(buffer);
  }

  /** GenerateImpulse: the sample is only written when position < length, and
      a negative position panics. */
  method GenerateImpulse(amplitude: Float, position: int, length: int)
    returns (r: Outcome<array<Float>>)
    ensures r.Ok? <==> length >= 0 && position >= 0
    ensures r.Ok? ==> fresh(r.value) && r.value[..] == Impulse(amplitude, position, length)
  {
    if length < 0 {
      return Panic("makeslice: len out of range");
    }
    var buffer := NewBuffer(length);
    if position < length {
      if position < 0 {
        return Panic("index out of range");
      }
      buffer[position] := amplitude;
    }
    return Ok(buffer);
  }

  /** InterleaveChannels: panics when the lengths differ; otherwise slot 2i
      holds left[i] and slot 2i + 1 holds right[i]. */
  method InterleaveChannels(left: array<Float>, right: array<Float>)
    returns (r: Outcome<array<Float>>)
    ensures r.Ok? <==> left.Length == right.Length
    ensures r.Ok? ==> fresh(r.value) && r.value[..] == Interleaved(left[..], right[..])
  {
    if left.Length != right.Length {
      return Panic("left and right channels must have same length");
    }
    var interleaved := NewBuffer(2 * left.Length);
    var i := 0;
    while i < left.Length
      invariant 0 <= i <= left.Length
      invariant forall j :: 0 <= j < 2 * i ==> interleaved[j] == Interleaved(left[..], right[..])[j]
    {
      interleaved[2 * i] := left[i];
      interleaved[2 * i + 1] := right[i];
      i := i + 1;
    }
    return Ok(interleaved);
  }

  /** DeinterleaveChannels: panics on an odd length; otherwise left takes the
      even slots and right the odd ones. */
  method DeinterleaveChannels(interleaved: array<Float>)
    returns (r: Outcome<(array<Float>, array<Float>)>)
    ensures r.Ok? <==> interleaved.Length % 2 == 0
    ensures r.Ok? ==> && fresh(r.value.0) && fresh(r.value.1)
                      && r.value.0[..] == Evens(interleaved[..])
                      && r.value.1[..] == Odds(interleaved[..])
  {
    if interleaved.Length % 2 != 0 {
      return Panic("interleaved buffer must have even length");
    }
    var frames := interleaved.Length / 2;
    assert 2 * frames == interleaved.Length;
    var left := NewBuffer(frames);
    var right := NewBuffer(frames);
    var i := 0;
    while i < frames
      invariant 0 <= i <= frames
      invariant forall j :: 0 <= j < i ==> left[j] == interleaved[2 * j]
      invariant forall j :: 0 <= j < i ==> right[j] == interleaved[2 * j + 1]
    {
      left[i] := interleaved[2 * i];
      right[i] := interleaved[2 * i + 1];
      i := i + 1;
    }
    assert left[..] == Evens(interleaved[..]);
    assert right[..] == Odds(interleaved[..]);
    return Ok((left, right));
  }

  /** Deinterleaving an interleaved pair gives the pair back. */
  lemma DeinterleaveInterleave(left: seq<Float>, right: seq<Float>)
    requires |left| == |right|
    ensures Evens(Interleaved(left, right)) == left
    ensures Odds(Interleaved(left, right)) == right
  {
    var x := Interleaved(left, right);
    forall i | 0 <= i < |left|
      ensures Evens(x)[i] == left[i] && Odds(x)[i] == right[i]
    {
      assert (2 * i) % 2 == 0 && (2 * i) / 2 == i;
      assert (2 * i + 1) % 2 == 1 && (2 * i + 1) / 2 == i;
    }
  }

  /** Interleaving the two halves of an even-length buffer gives the buffer back. */
  lemma InterleaveDeinterleave(x: seq<Float>)
    requires |x| % 2 == 0
    ensures Interleaved(Evens(x), Odds(x)) == x
  {
    var y := Interleaved(Evens(x), Odds(x));
    forall j | 0 <= j < |x|
      ensures y[j] == x[j]
    {
      if j % 2 == 0 {
        assert 2 * (j / 2) == j;
      } else {
        assert 2 * (j / 2) + 1 == j;
      }
    }
  }

  /** A step from 0 is a constant buffer, and a step past the end is silence. */
  lemma StepEnds(amplitude: Float, length: nat)
    ensures Step(amplitude, 0, length) == Constant(amplitude, length)
    ensures Step(amplitude, length, length) == Constant(Silence, length)
  {
  }
}
