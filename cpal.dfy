/** The audio output (`src/cpal.rs`): the default output device with a fixed
    mono, 16 kHz, 16-bit configuration, and the pull callback that feeds one
    finite PCM buffer to the device, filling with silence once it runs out. */
module Cpal {
  import opened Pcm

  datatype SampleFormat = I16 | U16 | F32
  datatype BufferSize = Default | Fixed(frames: nat)
  datatype StreamConfig = StreamConfig(channels: nat, sampleRate: nat, bufferSize: BufferSize)

  /** An output device as the host reports it; its internals are not modelled. */
  datatype Device = Device(name: string)

  /** `cpal::Output`: the device and the configuration every stream is built with. */
  datatype Output = Output(device: Device, config: StreamConfig)

  /** A built output stream: the configuration and sample format it runs at. */
  datatype Stream = Stream(config: StreamConfig, format: SampleFormat)

  const NoDeviceMessage: string := "Unable to find audio output device."

  /** `Output::new`; `defaultDevice` is what the default host reports. */
  function NewOutput(defaultDevice: Option<Device>): (r: Result<Output>)
    ensures r.Ok? <==> defaultDevice.Some?
    ensures r.Ok? ==> r.value.device == defaultDevice.value
    ensures r.Ok? ==> r.value.config == StreamConfig(1, 16000, Default)
    ensures r.Err? ==> r.error == Error(NoDeviceMessage)
  {
    match defaultDevice
    case None => Err(Error(NoDeviceMessage))
    case Some(device) => Ok(Output(device, StreamConfig(1, 16000, Default)))
  }

  /** `build_output_stream_raw`, which the library may refuse with `fault`. */
  function BuildOutputStream(output: Output, format: SampleFormat, fault: Option<Error>): (r: Result<Stream>)
    ensures r.Ok? <==> fault.None?
    ensures r.Ok? ==> r.value == Stream(output.config, format)
    ensures r.Err? ==> r.error == fault.value
  {
    if fault.Some? then Err(fault.value) else Ok(Stream(output.config, format))
  }

  /** What slot `i` of a callback gets when the cursor stands at `cursor`. */
  function Slot(source: seq<Sample>, cursor: nat, i: nat): Sample
  {
    if cursor + i < |source| then source[cursor + i] else 0
  }

  /** The contents of a device slice of length `n` filled from `cursor`. */
  function Window(source: seq<Sample>, cursor: nat, n: nat): (w: seq<Sample>)
    ensures |w| == n
  {
    seq(n, i requires 0 <= i < n => Slot(source, cursor, i))
  }

  /** The first `n` samples of the source followed by endless silence. */
  function Padded(source: seq<Sample>, n: nat): (p: seq<Sample>)
    ensures |p| == n
  {
    if n <= |source| then source[..n] else source + Zeros(n - |source|)
  }

  lemma PaddedAt(source: seq<Sample>, n: nat, i: nat)
    requires i < n
    ensures Padded(source, n)[i] == if i < |source| then source[i] else 0
  {
  }

  /** What the device has played after `n` samples is a prefix of the source
      followed by silence: each source sample exactly once, in order. */
  lemma PaddedIsPrefixOfSourceThenSilence(source: seq<Sample>, n: nat)
    ensures Padded(source, n) == (source + Zeros(n))[..n]
    ensures n >= |source| ==> Padded(source, n)[..|source|] == source
  {
    var p := Padded(source, n);
    var q := (source + Zeros(n))[..n];
    forall i | 0 <= i < n ensures p[i] == q[i] {
      PaddedAt(source, n, i);
    }
  }

  /** Filling the next slice continues the padded stream: it holds the samples
      from the cursor on, then silence. */
  lemma WindowExtendsPadded(source: seq<Sample>, t: nat, n: nat)
    ensures Padded(source, t) + Window(source, Min(t, |source|), n) == Padded(source, t + n)
  {
    var lhs := Padded(source, t) + Window(source, Min(t, |source|), n);
    var rhs := Padded(source, t + n);
    forall i | 0 <= i < t + n ensures lhs[i] == rhs[i] {
      PaddedAt(source, t + n, i);
      if i < t {
        PaddedAt(source, t, i);
      }
    }
  }

  /** Once the buffer is used up every later slice is silence. */
  lemma SilenceOnceExhausted(source: seq<Sample>, cursor: nat, n: nat)
    requires |source| <= cursor
    ensures Window(source, cursor, n) == Zeros(n)
  {
    var w := Window(source, cursor, n);
    forall i | 0 <= i < n ensures w[i] == Zeros(n)[i] {
    }
  }

  /** The `data_sender` callback with the iterator over the buffer it captures. */
  class DataSender {
    const source: seq<Sample>
    /** How many samples of `source` have been handed out. */
    var cursor: nat

    ghost predicate Valid()
      reads this
    {
      cursor <= |source|
    }

    constructor (source: seq<Sample>)
      ensures Valid() && this.source == source && cursor == 0
    {
      this.source := source;
      cursor := 0;
    }

    /** One invocation: overwrites every slot of `data` with the next sample, or
        with 0 once the buffer is exhausted. */
    method Fill(data: array<Sample>)
      requires Valid()
      modifies this, data
      ensures Valid()
      ensures data[..] == Window(source, old(cursor), data.Length)
      ensures cursor == old(cursor) + Min(data.Length, |source| - old(cursor))
    {
      for i := 0 to data.Length
        invariant old(cursor) <= cursor <= |source|
        invariant cursor == old(cursor) + Min(i, |source| - old(cursor))
        invariant forall k :: 0 <= k < i ==> data[k] == Slot(source, old(cursor), k)
      {
        if cursor < |source| {
          data[i] := source[cursor];
          cursor := cursor + 1;
        } else {
          data[i] := 0;
        }
      }
    }
  }

  /** `Output::play`: builds an I16 stream with the output's configuration and
      starts it; the device then calls back once per entry of `requests`, each
      time for a slice of that length. Answers the outcome, everything the
      device received, in order, and the stream that was built, if any. */
  method Play(output: Output, source: seq<Sample>, buildFault: Option<Error>, playFault: Option<Error>,
              requests: seq<nat>)
    returns (r: Result<()>, played: seq<Sample>, ghost stream: Option<Stream>)
    ensures stream.Some? <==> buildFault.None?
    ensures stream.Some? ==> stream.value == Stream(output.config, I16)
    ensures r.Ok? <==> buildFault.None? && playFault.None?
    ensures buildFault.Some? ==> r == Err(buildFault.value)
    ensures buildFault.None? && playFault.Some? ==> r == Err(playFault.value)
    ensures r.Ok? ==> played == Padded(source, Sum(requests))
    ensures r.Err? ==> played == []
  {
    played := [];
    stream := None;
    var sender := new DataSender(source);
    var built := BuildOutputStream(output, I16, buildFault);
    if built.Err? {
      r := Err(built.error);
      return;
    }
    stream := Some(built.value);
    if playFault.Some? {
      r := Err(playFault.value);
      return;
    }
    var total: nat := 0;
    for i := 0 to |requests|
      invariant total == Sum(requests[..i])
      invariant sender.Valid() && sender.source == source
      invariant sender.cursor == Min(total, |source|)
      invariant played == Padded(source, total)
    {
      var data := new Sample[requests[i]](_ => 0);
      sender.Fill(data);
      WindowExtendsPadded(source, total, requests[i]);
      played := played + data[..];
      assert requests[..i + 1] == requests[..i] + [requests[i]];
      SumSnoc(requests[..i], requests[i]);
      total := total + requests[i];
    }
    assert requests[..|requests|] == requests;
    r := Ok(());
  }
}
