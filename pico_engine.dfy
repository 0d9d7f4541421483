/** The parts of the SVOX Pico library that the synthesiser drives: resources,
    voices and the streaming engine. The library itself is foreign; here the
    engine answers from finite reply scripts, and every fallible library call
    takes the failure it reports (if any) as a parameter. */
module PicoEngine {
  import opened Pcm

  /** Whether the engine still has output to give for the text it was fed. */
  datatype Status = More | Idle

  /** What `put_text` answers: the engine accepts at most `capacity` of the
      offered bytes (its input buffer may be nearly full), or it fails. */
  datatype PutReply = Accept(capacity: nat) | PutFail(error: Error)

  /** What `flush` answers. */
  datatype FlushReply = Flushed | FlushFail(error: Error)

  /** What `get_data` answers: a chunk of samples and a status, or a failure. */
  datatype DataReply = Chunk(samples: seq<Sample>, status: Status) | DataFail(error: Error)

  /** The replies the engine will give, in order, one list per entry point. */
  datatype Script = Script(puts: seq<PutReply>, flushes: seq<FlushReply>, chunks: seq<DataReply>)

  /** One call made on the engine, in the order the engine saw it. */
  datatype Call = PutTextCall(text: seq<Byte>) | FlushCall | GetDataCall

  /** The answer to `put_text(text)` when `puts` are the replies still to come.
      Once the script is used up the engine accepts everything it is offered. */
  function Accepted(puts: seq<PutReply>, text: seq<Byte>): (r: Result<nat>)
    ensures r.Ok? ==> r.value <= |text|
    ensures puts == [] ==> r == Ok(|text|)
    ensures r.Err? <==> puts != [] && puts[0].PutFail?
  {
    if puts == [] then Ok(|text|)
    else match puts[0]
      case Accept(capacity) => Ok(Min(capacity, |text|))
      case PutFail(e) => Err(e)
  }

  /** The next answer to `flush`; past the script it succeeds. */
  function NextFlush(flushes: seq<FlushReply>): FlushReply
  {
    if flushes == [] then Flushed else flushes[0]
  }

  /** The `i`-th answer to `get_data`; past the script the engine is idle and
      returns no samples. */
  function Reply(chunks: seq<DataReply>, i: nat): (d: DataReply)
    ensures i >= |chunks| ==> d == Chunk([], Idle)
  {
    if i < |chunks| then chunks[i] else Chunk([], Idle)
  }

  /** The scripted synthesis engine (`ttspico::Engine`). */
  class Engine {
    /** The replies still to be given. */
    var script: Script
    /** Every call received so far. */
    ghost var log: seq<Call>

    constructor (script: Script)
      ensures this.script == script && log == []
    {
      this.script := script;
      log := [];
    }

    /** Offers `text`; answers how many of its leading bytes were taken. */
    method PutText(text: seq<Byte>) returns (r: Result<nat>)
      modifies this
      ensures r == Accepted(old(script.puts), text)
      ensures script == old(script).(puts := Tail(old(script.puts)))
      ensures log == old(log) + [PutTextCall(text)]
    {
      r := Accepted(script.puts, text);
      script := script.(puts := Tail(script.puts));
      log := log + [PutTextCall(text)];
    }

    /** Marks the end of the input, so that synthesis of what was fed starts. */
    method Flush() returns (r: Result<()>)
      modifies this
      ensures r == match NextFlush(old(script.flushes))
                   case Flushed => Ok(())
                   case FlushFail(e) => Err(e)
      ensures script == old(script).(flushes := Tail(old(script.flushes)))
      ensures log == old(log) + [FlushCall]
    {
      match NextFlush(script.flushes) {
        case Flushed => r := Ok(());
        case FlushFail(e) => r := Err(e);
      }
      script := script.(flushes := Tail(script.flushes));
      log := log + [FlushCall];
    }

    /** Writes the next chunk of samples into the front of `buf`; a chunk longer
        than `buf` is cut to its length. Answers the count written and the status. */
    method GetData(buf: array<Sample>) returns (r: Result<(nat, Status)>)
      modifies this, buf
      ensures match Reply(old(script.chunks), 0)
              case DataFail(e) => r == Err(e) && buf[..] == old(buf[..])
              case Chunk(samples, status) =>
                var written := Take(samples, buf.Length);
                && r == Ok((|written|, status))
                && buf[..|written|] == written
                && buf[|written|..] == old(buf[|written|..])
      ensures script == old(script).(chunks := Tail(old(script.chunks)))
      ensures log == old(log) + [GetDataCall]
    {
      match Reply(script.chunks, 0) {
        case DataFail(e) =>
          r := Err(e);
        case Chunk(samples, status) =>
          var written := Take(samples, buf.Length);
          forall i | 0 <= i < |written| {
            buf[i] := written[i];
          }
          r := Ok((|written|, status));
      }
      script := script.(chunks := Tail(script.chunks));
      log := log + [GetDataCall];
    }
  }

  /** The two kinds of language data a voice needs. */
  datatype ResourceKind = TextAnalysis | SpeechGeneration

  /** A loaded resource file. */
  datatype Resource = Resource(kind: ResourceKind, path: string)

  /** The shared allocation arena every resource and voice lives in. */
  datatype System = System(memorySize: nat)

  predicate HasKind(resources: seq<Resource>, kind: ResourceKind)
  {
    exists r :: r in resources && r.kind == kind
  }

  /** A named voice; resources are attached to it after it is created. */
  class Voice {
    const system: System
    const name: string
    var resources: seq<Resource>

    /** Both kinds of resource are attached, so an engine may be built from it. */
    predicate Complete()
      reads this
    {
      HasKind(resources, TextAnalysis) && HasKind(resources, SpeechGeneration)
    }

    /** `create_voice`: an empty voice living in `system`. */
    constructor (system: System, name: string)
      ensures this.system == system && this.name == name && resources == []
    {
      this.system := system;
      this.name := name;
      resources := [];
    }

    /** `add_resource`: attaches `resource` unless the library reports `fault`. */
    method AddResource(resource: Resource, fault: Option<Error>) returns (r: Result<()>)
      modifies this
      ensures fault.None? ==> r == Ok(()) && resources == old(resources) + [resource]
      ensures fault.Some? ==> r == Err(fault.value) && resources == old(resources)
    {
      if fault.Some? {
        r := Err(fault.value);
      } else {
        resources := resources + [resource];
        r := Ok(());
      }
    }
  }

  /** `create_engine`: an `unsafe` call that the synthesiser makes without checking
      the voice first; the model makes completeness a precondition every caller
      must prove. */
  method CreateEngine(voice: Voice, fault: Option<Error>, script: Script) returns (r: Result<Engine>)
    requires voice.Complete()
    ensures r.Ok? <==> fault.None?
    ensures fault.Some? ==> r == Err(fault.value)
    ensures r.Ok? ==> fresh(r.value) && r.value.script == script && r.value.log == []
  {
    if fault.Some? {
      r := Err(fault.value);
    } else {
      var engine := new Engine(script);
      r := Ok(engine);
    }
  }
}
