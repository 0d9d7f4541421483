/** The output module (`src/lib.rs`): a synthesiser and an audio output, and
    `speak`, which synthesises the whole text and then plays it. */
module Speech {
  import opened Pcm
  import opened PicoEngine
  import opened TtsPico
  import opened Cpal

  class OutputModule {
    const synthesiser: Synthesiser
    const output: Output

    constructor (synthesiser: Synthesiser, output: Output)
      ensures this.synthesiser == synthesiser && this.output == output
    {
      this.synthesiser := synthesiser;
      this.output := output;
    }

    /** `OutputModule::new`: sets up the synthesiser, then opens the output.
        `faults`, `script` and `defaultDevice` are the answers of the two libraries. */
    static method New(faults: map<SetupStep, Error>, script: Script, defaultDevice: Option<Device>)
      returns (r: Result<OutputModule>)
      ensures r.Ok? <==> faults == map[] && defaultDevice.Some?
      ensures var a := Attempted(SetupOrder, faults.Keys);
        faults != map[] ==> |a| >= 1 && a[|a| - 1] in faults && r == Err(faults[a[|a| - 1]])
      ensures faults == map[] && defaultDevice.None? ==> r == Err(Error(NoDeviceMessage))
      ensures r.Ok? ==> fresh(r.value) && fresh(r.value.synthesiser) && fresh(r.value.synthesiser.engine)
      ensures r.Ok? ==> r.value.synthesiser.engine.script == script && r.value.synthesiser.engine.log == []
      ensures r.Ok? ==> r.value.output == Output(defaultDevice.value, StreamConfig(1, 16000, Default))
    {
      var synthesiser, attempted := Synthesiser.New(faults, script);
      if synthesiser.Err? {
        r := Err(synthesiser.error);
        return;
      }
      var output := NewOutput(defaultDevice);
      if output.Err? {
        r := Err(output.error);
        return;
      }
      var m := new OutputModule(synthesiser.value, output.value);
      r := Ok(m);
    }

    /** `OutputModule::speak`: nothing is played unless synthesis succeeded, and
        then the device receives exactly the synthesised samples, in order,
        followed by silence. */
    method Speak(text: seq<Byte>, buildFault: Option<Error>, playFault: Option<Error>, requests: seq<nat>)
      returns (r: Result<()>, played: seq<Sample>)
      modifies synthesiser.engine
      ensures var run := Generation(text, old(synthesiser.engine.script));
        && synthesiser.engine.script == run.script
        && synthesiser.engine.log == old(synthesiser.engine.log) + run.calls
        && (run.result.Err? ==> r == Err(run.result.error) && played == [])
        && (run.result.Ok? ==>
              && (r.Ok? <==> buildFault.None? && playFault.None?)
              && (buildFault.Some? ==> r == Err(buildFault.value))
              && (buildFault.None? && playFault.Some? ==> r == Err(playFault.value))
              && (r.Ok? ==> played == Padded(run.result.value, Sum(requests)))
              && (r.Err? ==> played == []))
    {
      played := [];
      var pcmData := synthesiser.Generate(text);
      if pcmData.Err? {
        r := Err(pcmData.error);
        return;
      }
      ghost var stream;
      r, played, stream := Play(output, pcmData.value, buildFault, playFault, requests);
    }
  }
}
