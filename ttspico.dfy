/** The synthesiser facade (`src/ttspico.rs`): builds a Pico engine in the order
    the library needs, and turns a byte string into 16-bit 16 kHz PCM by feeding
    the text to the engine and draining the samples it produces. */
module TtsPico {
  import opened Pcm
  import opened PicoEngine

  /** Size of the allocation arena handed to the library. */
  const MemorySize: nat := 4 * 1024 * 1024
  const TextAnalysisDataPath: string := "/usr/share/pico/lang/en-GB_ta.bin"
  const SpeechGenerationDataPath: string := "/usr/share/pico/lang/en-GB_kh0_sg.bin"
  const VoiceName: string := "TestVoice"
  /** Length of the sample buffer `generate` reuses for every `get_data` call. */
  const PcmChunkSize: nat := 1024

  // ---------------------------------------------------------------------------
  // Feeding phase: put_text until no text remains

  /** What the feeding loop does with the text still to submit: the byte counts
      the engine took, the calls it made, and the `put_text` replies left over. */
  datatype Feeding =
    | Fed(steps: seq<nat>, calls: seq<Call>, puts: seq<PutReply>)
    | FeedFailed(error: Error, calls: seq<Call>, puts: seq<PutReply>)
  {
    /** This outcome, preceded by successful calls that took `steps'` bytes. */
    function After(steps': seq<nat>, calls': seq<Call>): Feeding
    {
      match this
      case Fed(s, c, p) => Fed(steps' + s, calls' + c, p)
      case FeedFailed(e, c, p) => FeedFailed(e, calls' + c, p)
    }
  }

  lemma FeedAfterAfter(f: Feeding, s1: seq<nat>, c1: seq<Call>, s2: seq<nat>, c2: seq<Call>)
    ensures f.After(s1, c1).After(s2, c2) == f.After(s2 + s1, c2 + c1)
  {
    assert forall a: seq<nat>, b, c :: (a + b) + c == a + (b + c);
    assert forall a: seq<Call>, b, c :: (a + b) + c == a + (b + c);
  }

  function Feed(remaining: seq<Byte>, puts: seq<PutReply>): Feeding
    decreases |remaining|, |puts|
  {
    if remaining == [] then Fed([], [], puts)
    else match Accepted(puts, remaining)
      case Err(e) => FeedFailed(e, [PutTextCall(remaining)], Tail(puts))
      case Ok(n) => Feed(remaining[n..], Tail(puts)).After([n], [PutTextCall(remaining)])
  }

  /** The feeding loop submits every byte once and in order: the `i`-th call is
      offered exactly the bytes not yet taken, which are never empty, the engine
      takes no more than it is offered, and the counts add up to the input. */
  lemma {:induction false} FeedSubmitsAllBytes(source: seq<Byte>, puts: seq<PutReply>)
    requires Feed(source, puts).Fed?
    ensures var f := Feed(source, puts);
      && Sum(f.steps) == |source|
      && |f.calls| == |f.steps|
      && forall i :: 0 <= i < |f.steps| ==>
           && Sum(f.steps[..i]) < |source|
           && Sum(f.steps[..i]) + f.steps[i] <= |source|
           && f.calls[i] == PutTextCall(source[Sum(f.steps[..i])..])
    decreases |source|, |puts|
  {
    if source != [] {
      var n := Accepted(puts, source).value;
      var rest := source[n..];
      FeedSubmitsAllBytes(rest, Tail(puts));
      var g := Feed(rest, Tail(puts));
      var f := Feed(source, puts);
      assert f.steps == [n] + g.steps && f.calls == [PutTextCall(source)] + g.calls;
      assert f.steps[1..] == g.steps;
      forall i | 0 <= i < |f.steps|
        ensures Sum(f.steps[..i]) < |source|
        ensures Sum(f.steps[..i]) + f.steps[i] <= |source|
        ensures f.calls[i] == PutTextCall(source[Sum(f.steps[..i])..])
      {
        if i == 0 {
          assert f.steps[..0] == [];
        } else {
          var before := g.steps[..i - 1];
          assert f.steps[..i][1..] == before;
          assert Sum(f.steps[..i]) == n + Sum(before);
          assert rest[Sum(before)..] == source[n + Sum(before)..];
        }
      }
    }
  }

  /** The feeding loop calls nothing but `put_text`. */
  lemma {:induction false} FeedOnlyPutsText(source: seq<Byte>, puts: seq<PutReply>)
    ensures forall c :: c in Feed(source, puts).calls ==> c.PutTextCall?
    decreases |source|, |puts|
  {
    if source != [] && Accepted(puts, source).Ok? {
      FeedOnlyPutsText(source[Accepted(puts, source).value..], Tail(puts));
    }
  }

  /** A failed feed stops at the first failing `put_text`: every earlier call was
      accepted, the error is the reply to the last call made, and exactly the
      replies called for are used up. */
  lemma {:induction false} FeedErrorIsPutError(source: seq<Byte>, puts: seq<PutReply>)
    requires Feed(source, puts).FeedFailed?
    ensures var f := Feed(source, puts);
      && 1 <= |f.calls| <= |puts|
      && puts[|f.calls| - 1] == PutFail(f.error)
      && (forall i :: 0 <= i < |f.calls| - 1 ==> puts[i].Accept?)
      && f.puts == puts[|f.calls|..]
    decreases |source|, |puts|
  {
    match Accepted(puts, source)
    case Err(e) =>
    case Ok(n) =>
      var g := Feed(source[n..], Tail(puts));
      FeedErrorIsPutError(source[n..], Tail(puts));
      assert Tail(puts) == puts[1..];
      var f := Feed(source, puts);
      assert |f.calls| == 1 + |g.calls|;
      forall i | 0 <= i < |f.calls| - 1 ensures puts[i].Accept? {
        if i > 0 { assert puts[i] == Tail(puts)[i - 1]; }
      }
  }

  // ---------------------------------------------------------------------------
  // Draining phase: get_data until Idle

  /** What the draining loop collects: the samples, the number of `get_data`
      calls, and the replies left over. */
  datatype Draining =
    | Drained(pcm: seq<Sample>, calls: nat, chunks: seq<DataReply>)
    | DrainFailed(error: Error, calls: nat, chunks: seq<DataReply>)
  {
    /** This outcome, preceded by calls that wrote `pcm'`. */
    function After(pcm': seq<Sample>, calls': nat): Draining
    {
      match this
      case Drained(p, k, c) => Drained(pcm' + p, calls' + k, c)
      case DrainFailed(e, k, c) => DrainFailed(e, calls' + k, c)
    }
  }

  lemma DrainAfterAfter(d: Draining, p1: seq<Sample>, k1: nat, p2: seq<Sample>, k2: nat)
    ensures d.After(p1, k1).After(p2, k2) == d.After(p2 + p1, k2 + k1)
  {
    assert forall a: seq<Sample>, b, c :: (a + b) + c == a + (b + c);
  }

  function Drain(chunks: seq<DataReply>): Draining
    decreases |chunks|
  {
    match Reply(chunks, 0)
    case DataFail(e) => DrainFailed(e, 1, Tail(chunks))
    case Chunk(samples, status) =>
      var written := Take(samples, PcmChunkSize);
      if status == Idle then Drained(written, 1, Tail(chunks))
      else Drain(Tail(chunks)).After(written, 1)
  }

  /** The samples a `get_data` answer puts into the buffer; a failure writes none. */
  function Written(reply: DataReply): (w: seq<Sample>)
    ensures |w| <= PcmChunkSize
  {
    match reply
    case Chunk(samples, _) => Take(samples, PcmChunkSize)
    case DataFail(_) => []
  }

  /** The samples the first `k` answers of `get_data` put into the buffer, one
      after the other. */
  function Gathered(chunks: seq<DataReply>, k: nat): seq<Sample>
  {
    if k == 0 then [] else Gathered(chunks, k - 1) + Written(Reply(chunks, k - 1))
  }

  /** Dropping the first reply shifts the rest by one. */
  lemma ReplyOfTail(chunks: seq<DataReply>, i: nat)
    ensures Reply(Tail(chunks), i) == Reply(chunks, i + 1)
  {
    if chunks != [] && i < |chunks| - 1 {
      assert Tail(chunks)[i] == chunks[i + 1];
    }
  }

  lemma {:induction false} GatheredCons(chunks: seq<DataReply>, k: nat)
    requires 1 <= k
    ensures Gathered(chunks, k) == Written(Reply(chunks, 0)) + Gathered(Tail(chunks), k - 1)
  {
    if k > 1 {
      GatheredCons(chunks, k - 1);
      ReplyOfTail(chunks, k - 2);
    }
  }

  /** The draining loop keeps calling while the engine says `More`, stops at the
      first `Idle` (whose chunk it keeps), uses up exactly the replies it called
      for, and returns the valid prefixes of the chunks in order, each at most
      one buffer long. */
  lemma {:induction false} DrainGathersChunks(chunks: seq<DataReply>)
    requires Drain(chunks).Drained?
    ensures var d := Drain(chunks);
      && 1 <= d.calls
      && (forall i :: 0 <= i < d.calls - 1 ==> Reply(chunks, i).Chunk? && Reply(chunks, i).status == More)
      && Reply(chunks, d.calls - 1).Chunk? && Reply(chunks, d.calls - 1).status == Idle
      && d.pcm == Gathered(chunks, d.calls)
      && |d.pcm| <= PcmChunkSize * d.calls
      && d.chunks == chunks[Min(d.calls, |chunks|)..]
    decreases |chunks|
  {
    var d := Drain(chunks);
    match Reply(chunks, 0)
    case Chunk(samples, status) =>
      if status == More {
        var e := Drain(Tail(chunks));
        DrainGathersChunks(Tail(chunks));
        assert d == e.After(Take(samples, PcmChunkSize), 1);
        forall i | 0 <= i < d.calls - 1
          ensures Reply(chunks, i).Chunk? && Reply(chunks, i).status == More
        {
          if i > 0 { ReplyOfTail(chunks, i - 1); }
        }
        ReplyOfTail(chunks, d.calls - 2);
        GatheredCons(chunks, d.calls);
        assert Tail(chunks) == chunks[1..];
      }
  }

  /** `n` answers of zero samples with status `More`. */
  function SilentMores(n: nat): (s: seq<DataReply>)
    ensures |s| == n
  {
    if n == 0 then [] else [Chunk([], More)] + SilentMores(n - 1)
  }

  /** A `(0, More)` answer adds nothing to the output and the loop goes on. */
  lemma {:induction false} DrainSkipsSilentMores(n: nat, chunks: seq<DataReply>)
    ensures Drain(SilentMores(n) + chunks) == Drain(chunks).After([], n)
  {
    if n > 0 {
      var s := SilentMores(n) + chunks;
      assert s[0] == Chunk([], More);
      assert Tail(s) == SilentMores(n - 1) + chunks;
      DrainSkipsSilentMores(n - 1, chunks);
      assert Drain(s) == Drain(Tail(s)).After([], 1);
      DrainAfterAfter(Drain(chunks), [], n - 1, [], 1);
    } else {
      assert SilentMores(0) + chunks == chunks;
      match Drain(chunks)
      case Drained(p, k, c) => assert [] + p == p;
      case DrainFailed(e, k, c) =>
    }
  }

  /** A failed drain stops at the first failing `get_data`: every earlier call
      answered `More`, the error is the reply to the last call made, and exactly
      the replies called for are used up. */
  lemma {:induction false} DrainErrorIsDataError(chunks: seq<DataReply>)
    requires Drain(chunks).DrainFailed?
    ensures var d := Drain(chunks);
      && 1 <= d.calls <= |chunks|
      && chunks[d.calls - 1] == DataFail(d.error)
      && (forall i :: 0 <= i < d.calls - 1 ==> chunks[i].Chunk? && chunks[i].status == More)
      && d.chunks == chunks[d.calls..]
    decreases |chunks|
  {
    match Reply(chunks, 0)
    case DataFail(e) =>
    case Chunk(samples, status) =>
      var e := Drain(Tail(chunks));
      DrainErrorIsDataError(Tail(chunks));
      assert Tail(chunks) == chunks[1..];
      var d := Drain(chunks);
      assert d.calls == 1 + e.calls;
      forall i | 0 <= i < d.calls - 1 ensures chunks[i].Chunk? && chunks[i].status == More {
        if i > 0 { assert chunks[i] == Tail(chunks)[i - 1]; }
      }
  }

  // ---------------------------------------------------------------------------
  // generate as a whole

  /** `k` calls of `get_data`. */
  function GetDataCalls(k: nat): (s: seq<Call>)
    ensures |s| == k && forall i :: 0 <= i < k ==> s[i] == GetDataCall
  {
    if k == 0 then [] else GetDataCalls(k - 1) + [GetDataCall]
  }

  /** The result of one `generate`, the replies left in the engine's script and
      the calls the engine received. */
  datatype Run = Run(result: Result<seq<Sample>>, script: Script, calls: seq<Call>)

  function Generation(source: seq<Byte>, script: Script): Run
  {
    match Feed(source, script.puts)
    case FeedFailed(e, calls, puts) => Run(Err(e), script.(puts := puts), calls)
    case Fed(_, calls, puts) =>
      var flushed := script.(puts := puts, flushes := Tail(script.flushes));
      match NextFlush(script.flushes)
      case FlushFail(e) => Run(Err(e), flushed, calls + [FlushCall])
      case Flushed =>
        match Drain(script.chunks)
        case DrainFailed(e, k, chunks) =>
          Run(Err(e), flushed.(chunks := chunks), calls + [FlushCall] + GetDataCalls(k))
        case Drained(pcm, k, chunks) =>
          Run(Ok(pcm), flushed.(chunks := chunks), calls + [FlushCall] + GetDataCalls(k))
  }

  /** Where a call falls in the protocol: text first, then the flush, then reads. */
  function Phase(c: Call): nat
  {
    match c
    case PutTextCall(_) => 0
    case FlushCall => 1
    case GetDataCall => 2
  }

  /** The engine sees every `put_text` before the flush and the flush before every
      `get_data`; a flush happens only once all the text was taken. */
  lemma CallsInPhaseOrder(source: seq<Byte>, script: Script)
    ensures var run := Generation(source, script);
      && (forall i, j :: 0 <= i < j < |run.calls| ==> Phase(run.calls[i]) <= Phase(run.calls[j]))
      && (FlushCall in run.calls ==> Feed(source, script.puts).Fed?)
  {
    FeedOnlyPutsText(source, script.puts);
    var feedCalls := Feed(source, script.puts).calls;
    assert forall i :: 0 <= i < |feedCalls| ==> Phase(feedCalls[i]) == 0 by {
      forall i | 0 <= i < |feedCalls| ensures Phase(feedCalls[i]) == 0 {
        assert feedCalls[i] in feedCalls;
      }
    }
    assert FlushCall !in feedCalls;
  }

  /** A successful `generate` flushes exactly once: after the last `put_text` of a
      feed that took the whole input, and before the first `get_data`. */
  lemma FlushesOnceBetweenPhases(source: seq<Byte>, script: Script)
    ensures var run := Generation(source, script);
      run.result.Ok? ==>
        && Feed(source, script.puts).Fed?
        && var f := |Feed(source, script.puts).calls|;
        && f < |run.calls| && run.calls[f] == FlushCall
        && (forall i :: 0 <= i < f ==> run.calls[i].PutTextCall?)
        && (forall i :: f < i < |run.calls| ==> run.calls[i] == GetDataCall)
  {
    FeedOnlyPutsText(source, script.puts);
    var feedCalls := Feed(source, script.puts).calls;
    forall i | 0 <= i < |feedCalls| ensures feedCalls[i].PutTextCall? {
      assert feedCalls[i] in feedCalls;
    }
  }

  /** `generate` fails only with the error the engine gave to the last call it
      made, and makes no call after it, in each of the three ways it can fail:
      a `put_text` (nothing is flushed), the `flush` (nothing is read), or a
      `get_data`. No partial buffer is returned. */
  lemma GenerationErrorIsEngineError(source: seq<Byte>, script: Script)
    ensures var run := Generation(source, script);
      var f := Feed(source, script.puts);
      var d := Drain(script.chunks);
      run.result.Err? ==>
        || (&& f.FeedFailed? && run.calls == f.calls
            && 1 <= |f.calls| <= |script.puts| && script.puts[|f.calls| - 1] == PutFail(run.result.error))
        || (&& f.Fed? && script.flushes != [] && script.flushes[0] == FlushFail(run.result.error)
            && run.calls == f.calls + [FlushCall] && GetDataCall !in run.calls)
        || (&& f.Fed? && NextFlush(script.flushes) == Flushed && d.DrainFailed?
            && 1 <= d.calls <= |script.chunks| && script.chunks[d.calls - 1] == DataFail(run.result.error)
            && run.calls == f.calls + [FlushCall] + GetDataCalls(d.calls))
  {
    var f := Feed(source, script.puts);
    if f.FeedFailed? {
      FeedErrorIsPutError(source, script.puts);
    } else if NextFlush(script.flushes).FlushFail? {
      FeedOnlyPutsText(source, script.puts);
      assert FlushCall != GetDataCall;
    } else if Drain(script.chunks).DrainFailed? {
      DrainErrorIsDataError(script.chunks);
    }
  }

  /** An engine whose replies contain no failure lets `generate` succeed. */
  lemma GenerationSucceedsWithoutFaults(source: seq<Byte>, script: Script)
    requires forall i :: 0 <= i < |script.puts| ==> script.puts[i].Accept?
    requires forall i :: 0 <= i < |script.flushes| ==> script.flushes[i].Flushed?
    requires forall i :: 0 <= i < |script.chunks| ==> script.chunks[i].Chunk?
    ensures Generation(source, script).result.Ok?
  {
    GenerationErrorIsEngineError(source, script);
  }

  /** A successful `generate` submitted the whole input, and what it returns is
      exactly the chunks the engine wrote, in order, up to and including the one
      that came with `Idle`. */
  lemma GenerationOutput(source: seq<Byte>, script: Script)
    ensures var run := Generation(source, script);
      run.result.Ok? ==>
        && Feed(source, script.puts).Fed?
        && Sum(Feed(source, script.puts).steps) == |source|
        && Drain(script.chunks).Drained?
        && run.result.value == Gathered(script.chunks, Drain(script.chunks).calls)
  {
    if Generation(source, script).result.Ok? {
      FeedSubmitsAllBytes(source, script.puts);
      DrainGathersChunks(script.chunks);
    }
  }

  // ---------------------------------------------------------------------------
  // Setup

  /** The fallible library calls `new` makes, in the order it makes them. */
  datatype SetupStep =
    | InitSystem | LoadTextAnalysis | LoadSpeechGeneration | MakeVoice
    | AttachTextAnalysis | AttachSpeechGeneration | MakeEngine

  const SetupOrder: seq<SetupStep> :=
    [InitSystem, LoadTextAnalysis, LoadSpeechGeneration, MakeVoice,
     AttachTextAnalysis, AttachSpeechGeneration, MakeEngine]

  /** The steps of `order` that are attempted when the steps in `faults` fail:
      each step in turn, up to and including the first that fails. */
  function Attempted(order: seq<SetupStep>, faults: set<SetupStep>): seq<SetupStep>
  {
    if order == [] then []
    else if order[0] in faults then [order[0]]
    else [order[0]] + Attempted(order[1..], faults)
  }

  /** Setup stops at the first failure and at no other point: what is attempted
      is a prefix of the order in which every step but the last succeeded, and it
      falls short of the whole order only when its last step failed. */
  lemma {:induction false} AttemptedStopsAtFirstFault(order: seq<SetupStep>, faults: set<SetupStep>)
    ensures var a := Attempted(order, faults);
      && |a| <= |order| && a == order[..|a|]
      && (order != [] ==> |a| >= 1)
      && (forall i :: 0 <= i < |a| - 1 ==> a[i] !in faults)
      && (|a| < |order| ==> a[|a| - 1] in faults)
      && (|a| == |order| && order != [] ==> (a[|a| - 1] in faults <==> exists s :: s in order && s in faults))
  {
    if order != [] && order[0] !in faults {
      AttemptedStopsAtFirstFault(order[1..], faults);
      var a := Attempted(order, faults);
      var b := Attempted(order[1..], faults);
      assert a == [order[0]] + b;
      forall i | 0 <= i < |a| - 1 ensures a[i] !in faults {
        if i > 0 { assert a[i] == b[i - 1]; }
      }
      if |a| == |order| && a[|a| - 1] !in faults {
        forall s | s in order ensures s !in faults {
          var j :| 0 <= j < |order| && order[j] == s;
          assert s == a[j];
        }
      }
    }
  }

  /** The engine is created only after both resources were attached to the voice:
      if setup reaches engine creation, both attach steps came before it and
      succeeded. */
  lemma EngineCreatedOnlyAfterBothAttached(faults: set<SetupStep>)
    ensures var a := Attempted(SetupOrder, faults);
      MakeEngine in a ==>
        && a == SetupOrder
        && AttachTextAnalysis !in faults && AttachSpeechGeneration !in faults
  {
    AttemptedStopsAtFirstFault(SetupOrder, faults);
    var a := Attempted(SetupOrder, faults);
    if MakeEngine in a {
      var j :| 0 <= j < |a| && a[j] == MakeEngine;
      assert SetupOrder[j] == MakeEngine;
      assert a[4] == AttachTextAnalysis && a[5] == AttachSpeechGeneration;
    }
  }

  /** While the first `i` steps succeed, they are attempted and setup goes on. */
  lemma {:induction false} AttemptedPastSuccesses(order: seq<SetupStep>, faults: set<SetupStep>, i: nat)
    requires i <= |order|
    requires forall j :: 0 <= j < i ==> order[j] !in faults
    ensures Attempted(order, faults) == order[..i] + Attempted(order[i..], faults)
  {
    if i > 0 {
      AttemptedPastSuccesses(order[1..], faults, i - 1);
      assert order[1..][..i - 1] == order[1..i];
      assert order[1..][i - 1..] == order[i..];
      assert order[..i] == [order[0]] + order[1..i];
    }
  }

  /** Setup that fails first at step `i` attempts exactly the steps up to `i`. */
  lemma SetupStopsAt(faults: set<SetupStep>, i: nat)
    requires i < |SetupOrder|
    requires forall j :: 0 <= j < i ==> SetupOrder[j] !in faults
    requires SetupOrder[i] in faults
    ensures Attempted(SetupOrder, faults) == SetupOrder[..i + 1]
  {
    AttemptedPastSuccesses(SetupOrder, faults, i);
    assert SetupOrder[..i] + [SetupOrder[i]] == SetupOrder[..i + 1];
  }

  /** Setup in which no step fails attempts every step. */
  lemma SetupRunsThrough(faults: set<SetupStep>)
    requires forall j :: 0 <= j < |SetupOrder| ==> SetupOrder[j] !in faults
    ensures Attempted(SetupOrder, faults) == SetupOrder
    ensures faults == {}
  {
    AttemptedPastSuccesses(SetupOrder, faults, |SetupOrder|);
    forall step | step in faults ensures false {
      EveryStepIsOrdered(step);
    }
  }

  /** Every step is part of the setup order. */
  lemma EveryStepIsOrdered(step: SetupStep)
    ensures step in SetupOrder
  {
    match step
    case InitSystem => assert SetupOrder[0] == step;
    case LoadTextAnalysis => assert SetupOrder[1] == step;
    case LoadSpeechGeneration => assert SetupOrder[2] == step;
    case MakeVoice => assert SetupOrder[3] == step;
    case AttachTextAnalysis => assert SetupOrder[4] == step;
    case AttachSpeechGeneration => assert SetupOrder[5] == step;
    case MakeEngine => assert SetupOrder[6] == step;
  }

  function Lookup(faults: map<SetupStep, Error>, step: SetupStep): (r: Option<Error>)
    ensures r.Some? <==> step in faults
    ensures r.Some? ==> r.value == faults[step]
  {
    if step in faults then Some(faults[step]) else None
  }

  /** Moving the first `n` remaining bytes over to the consumed ones keeps their
      concatenation. */
  lemma TakeThenRest(consumed: seq<Byte>, remaining: seq<Byte>, n: nat)
    requires n <= |remaining|
    ensures (consumed + remaining[..n]) + remaining[n..] == consumed + remaining
  {
    assert remaining[..n] + remaining[n..] == remaining;
  }

  /** The facade: one engine, reused by every `generate`. */
  class Synthesiser {
    const engine: Engine

    constructor (engine: Engine)
      ensures this.engine == engine
    {
      this.engine := engine;
    }

    /** `Synthesiser::new`: arena, both resources, voice, attach both, engine.
        `faults` are the steps at which the library reports an error; the engine,
        once created, answers from `script`. `attempted` lists the library calls
        made, in order. Creating the engine needs a complete voice, so that this
        method verifies shows that both resources are always attached first. */
    static method New(faults: map<SetupStep, Error>, script: Script)
      returns (r: Result<Synthesiser>, ghost attempted: seq<SetupStep>)
      ensures attempted == Attempted(SetupOrder, faults.Keys)
      ensures r.Ok? <==> faults == map[]
      ensures r.Err? ==> attempted[|attempted| - 1] in faults && r.error == faults[attempted[|attempted| - 1]]
      ensures r.Ok? ==> fresh(r.value) && fresh(r.value.engine)
      ensures r.Ok? ==> r.value.engine.script == script && r.value.engine.log == []
    {
      ghost var k := faults.Keys;
      attempted := [InitSystem];
      if InitSystem in faults {
        SetupStopsAt(k, 0);
        r := Err(faults[InitSystem]);
        return;
      }
      var system := System(MemorySize);
      attempted := attempted + [LoadTextAnalysis];
      if LoadTextAnalysis in faults {
        SetupStopsAt(k, 1);
        r := Err(faults[LoadTextAnalysis]);
        return;
      }
      var textAnalysisData := Resource(TextAnalysis, TextAnalysisDataPath);
      attempted := attempted + [LoadSpeechGeneration];
      if LoadSpeechGeneration in faults {
        SetupStopsAt(k, 2);
        r := Err(faults[LoadSpeechGeneration]);
        return;
      }
      var speechGenerationData := Resource(SpeechGeneration, SpeechGenerationDataPath);
      attempted := attempted + [MakeVoice];
      if MakeVoice in faults {
        SetupStopsAt(k, 3);
        r := Err(faults[MakeVoice]);
        return;
      }
      var voice := new Voice(system, VoiceName);
      attempted := attempted + [AttachTextAnalysis];
      var added := voice.AddResource(textAnalysisData, Lookup(faults, AttachTextAnalysis));
      if added.Err? {
        SetupStopsAt(k, 4);
        r := Err(added.error);
        return;
      }
      attempted := attempted + [AttachSpeechGeneration];
      added := voice.AddResource(speechGenerationData, Lookup(faults, AttachSpeechGeneration));
      if added.Err? {
        SetupStopsAt(k, 5);
        r := Err(added.error);
        return;
      }
      attempted := attempted + [MakeEngine];
      assert textAnalysisData in voice.resources && speechGenerationData in voice.resources;
      var created := CreateEngine(voice, Lookup(faults, MakeEngine), script);
      if created.Err? {
        SetupStopsAt(k, 6);
        r := Err(created.error);
        return;
      }
      SetupRunsThrough(k);
      var synthesiser := new Synthesiser(created.value);
      r := Ok(synthesiser);
    }

    /** The feeding loop of `generate`: offers the engine the bytes not yet taken
        and advances past exactly as many as it took, until none remain. */
    method FeedText(source: seq<Byte>) returns (r: Result<()>)
      modifies engine
      ensures var f := Feed(source, old(engine.script.puts));
        && (r.Ok? <==> f.Fed?)
        && (f.FeedFailed? ==> r == Err(f.error))
        && engine.script == old(engine.script).(puts := f.puts)
        && engine.log == old(engine.log) + f.calls
    {
      ghost var script0 := engine.script;
      ghost var log0 := engine.log;
      var remaining := source;
      ghost var consumed: seq<Byte> := [];
      ghost var steps: seq<nat> := [];
      ghost var calls: seq<Call> := [];
      while |remaining| > 0
        invariant consumed + remaining == source
        invariant Feed(source, script0.puts) == Feed(remaining, engine.script.puts).After(steps, calls)
        invariant engine.script == script0.(puts := engine.script.puts)
        invariant engine.log == log0 + calls
        decreases |remaining|, |engine.script.puts|
      {
        ghost var puts := engine.script.puts;
        var put := engine.PutText(remaining);
        if put.Err? {
          assert Feed(remaining, puts) == FeedFailed(put.error, [PutTextCall(remaining)], Tail(puts));
          r := Err(put.error);
          return;
        }
        var nPut := put.value;
        assert Feed(remaining, puts) == Feed(remaining[nPut..], Tail(puts)).After([nPut], [PutTextCall(remaining)]);
        FeedAfterAfter(Feed(remaining[nPut..], Tail(puts)), [nPut], [PutTextCall(remaining)], steps, calls);
        TakeThenRest(consumed, remaining, nPut);
        consumed := consumed + remaining[..nPut];
        steps := steps + [nPut];
        calls := calls + [PutTextCall(remaining)];
        remaining := remaining[nPut..];
      }
      r := Ok(());
    }

    /** The draining loop of `generate`: reads into one reused 1024-sample buffer
        and appends what each call wrote, until the engine reports `Idle`. */
    method DrainSamples() returns (r: Result<seq<Sample>>)
      modifies engine
      ensures var d := Drain(old(engine.script.chunks));
        && r == (match d
                 case Drained(pcm, _, _) => Ok(pcm)
                 case DrainFailed(e, _, _) => Err(e))
        && engine.script == old(engine.script).(chunks := d.chunks)
        && engine.log == old(engine.log) + GetDataCalls(d.calls)
    {
      ghost var script0 := engine.script;
      ghost var log0 := engine.log;
      var pcmData: seq<Sample> := [];
      var pcmBuf := new Sample[PcmChunkSize](_ => 0);
      ghost var dataCalls: nat := 0;
      while true
        invariant Drain(script0.chunks) == Drain(engine.script.chunks).After(pcmData, dataCalls)
        invariant engine.script == script0.(chunks := engine.script.chunks)
        invariant engine.log == log0 + GetDataCalls(dataCalls)
        decreases |engine.script.chunks|
      {
        var got := engine.GetData(pcmBuf);
        if got.Err? {
          r := Err(got.error);
          return;
        }
        var (nWritten, status) := got.value;
        pcmData := pcmData + pcmBuf[..nWritten];
        dataCalls := dataCalls + 1;
        if status == Idle {
          break;
        }
      }
      r := Ok(pcmData);
    }

    /** `Synthesiser::generate`: feeds all of `source` to the engine, flushes, and
        collects samples until the engine is idle. The result, the engine's
        remaining replies and the calls it saw are those of `Generation`. */
    method Generate(source: seq<Byte>) returns (r: Result<seq<Sample>>)
      modifies engine
      ensures var run := Generation(source, old(engine.script));
        && r == run.result
        && engine.script == run.script
        && engine.log == old(engine.log) + run.calls
    {
      var fed := FeedText(source);
      if fed.Err? {
        r := Err(fed.error);
        return;
      }
      var flushed := engine.Flush();
      if flushed.Err? {
        r := Err(flushed.error);
        return;
      }
      r := DrainSamples();
    }
  }
}
