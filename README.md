# ssip-server core in Dafny

This project models the two pieces of sequential logic in the speech output
server that are its own:

- **The synthesiser** (`src/ttspico.rs`). `Synthesiser::new` sets up the Pico TTS library in a fixed order: the memory arena, the text-analysis resource, the speech-generation resource, the voice, attaching both resources, and then the engine. `Synthesiser::generate` has two loops. The first feeds the input bytes to the engine with `put_text`, moving a cursor forward by exactly the count the engine took. Then it calls `flush`. The second drains the engine with `get_data` into one reused 1024-sample buffer, and stops at the first `Idle`.
- **The audio output** (`src/cpal.rs`). `Output::new` fixes the stream configuration at one channel, 16000 Hz and the default buffer size. In `Output::play`, the `data_sender` callback holds an iterator over the PCM buffer. Each call overwrites every slot of the device slice with the next sample, or with 0 once the buffer is used up.
- **The glue** in `src/lib.rs`. `OutputModule::new` builds both, and `speak` runs generate and then play.

The foreign libraries are modelled as oracles:

- **Engine.** The Pico engine (`PicoEngine.Engine`) answers from three finite reply scripts, one each for `put_text`, `flush` and `get_data`. Its ghost `log` records every call in order.
  - A `put_text` reply `Accept(c)` takes `min(c, offered)` bytes.
  - Once a script is used up, the engine takes all offered text, `flush` succeeds, and `get_data` returns `(0, Idle)`.
  - A scripted chunk longer than the buffer is cut to the buffer length.
- **Other fallible calls.** Every other fallible library call takes the error it reports (if any) as a parameter. That includes system creation, resource loading, voice creation, `add_resource`, `create_engine`, `build_output_stream_raw` and `stream.play`.
- **Default device.** `default_output_device` is an `Option<Device>` parameter of `Cpal.NewOutput`: the device the host reports, or none.
- **Device callbacks.** The device's calls of the callback are a sequence of requested slice lengths.

Each phase has a specification function: `TtsPico.Feed`, `TtsPico.Drain`, `TtsPico.Generation`, `TtsPico.Attempted`, `Cpal.Window` and `Cpal.Padded`. The imperative methods are proved against these functions. The properties are then proved about the functions as lemmas.

Two points about the code that shape the model:

- **Voice completeness.** The code does not check at run time that the voice is complete: it calls the unsafe `create_engine` at `src/ttspico.rs:57`. The model makes completeness a precondition of `PicoEngine.CreateEngine`, which `Synthesiser.New` is verified to meet.
- **Input bytes.** `speak` feeds `text.as_bytes()` unchanged (`src/lib.rs:21-22`); nothing is appended.

## Model

| member | source | states |
|---|---|---|
| `PicoEngine.Accepted` | src/ttspico.rs:68-69 | the model assumes that `put_text` never reports more bytes taken than it was offered, which keeps the slicing `&remaining[n_put..]` in bounds (see "## Left out"); an engine past its script takes everything; it fails exactly on a scripted failure |
| `PicoEngine.Engine.PutText` | src/ttspico.rs:68 | one `put_text` call: the answer is the next scripted reply applied to the offered text, the reply is used up, and the call is logged |
| `PicoEngine.Engine.Flush` | src/ttspico.rs:71 | one `flush` call: the next scripted reply, used up and logged |
| `PicoEngine.Engine.GetData` | src/ttspico.rs:75-76 | one `get_data` call: on success the buffer's first `n_written` slots hold the chunk (never more than the buffer's length) and the rest of the buffer is untouched; on failure the buffer is untouched |
| `PicoEngine.Voice.AddResource` | src/ttspico.rs:55-56 | `add_resource` attaches the resource exactly when the library does not fail, and otherwise leaves the voice unchanged |
| `PicoEngine.CreateEngine` | src/ttspico.rs:57 | the engine can only be created from a voice that has both a text-analysis and a speech-generation resource; it yields a fresh engine unless the library fails |
| `TtsPico.FeedSubmitsAllBytes` | src/ttspico.rs:66-70 | when feeding succeeds, the `n_put` counts add up to `source.len()`. The i-th `put_text` is offered exactly the suffix of `source` not yet taken, and that suffix is non-empty, so the loop ends exactly when nothing remains. Each count is at most what was offered, so every byte is submitted once, in order |
| `TtsPico.FeedOnlyPutsText` | src/ttspico.rs:66-70 | the feeding loop makes no engine call other than `put_text` |
| `TtsPico.FeedErrorIsPutError` | src/ttspico.rs:68 | a failed feed stops at the first `put_text` that fails: every earlier call was accepted, the error is the reply to the last call made, and no reply after it is used up |
| `TtsPico.DrainGathersChunks` | src/ttspico.rs:72-81 | a successful drain calls `get_data` at least once. Every answer but the last was `More`, and the last was the first `Idle`. The output is the in-order concatenation of the valid prefix of every answer, including the chunk that came with `Idle`. Each prefix is at most 1024 samples. Exactly as many scripted replies are used up as calls were made, so nothing is called after `Idle` |
| `TtsPico.DrainSkipsSilentMores` | src/ttspico.rs:74-81 | any number of `(0, More)` answers adds nothing to the output, counts as that many calls, and the loop goes on |
| `TtsPico.DrainErrorIsDataError` | src/ttspico.rs:75-76 | a failed drain stops at the first `get_data` that fails: every earlier call answered `More`, the error is the reply to the last call made, and no reply after it is used up |
| `TtsPico.CallsInPhaseOrder` | src/ttspico.rs:66-81 | in every run, `generate` calls the engine in phase order: all `put_text` calls, then `flush`, then `get_data`. A flush happens only after a feed that took the whole input |
| `TtsPico.FlushesOnceBetweenPhases` | src/ttspico.rs:67-74 | a successful `generate` calls `flush` exactly once, placed right after the last `put_text` and before every `get_data` |
| `TtsPico.GenerationErrorIsEngineError` | src/ttspico.rs:62-83 | an `Err` from `generate` carries no samples and is the reply to the last engine call made, with no call after it. It fails in one of three ways: a `put_text` fails (no `flush`); the `flush` fails (no `get_data`); or a `get_data` fails |
| `TtsPico.GenerationSucceedsWithoutFaults` | src/ttspico.rs:62-83 | with an engine whose replies contain no failure, `generate` finishes with `Ok`. That it finishes at all rests on the finite reply scripts (see "## Left out") |
| `TtsPico.GenerationOutput` | src/ttspico.rs:62-83 | a successful `generate` submitted every input byte and returns exactly the concatenated chunks the engine wrote |
| `TtsPico.AttemptedStopsAtFirstFault` | src/ttspico.rs:45-57 | setup makes its calls in the fixed order. Every call before the last one succeeded. It stops short of the end only because its last call failed |
| `TtsPico.EngineCreatedOnlyAfterBothAttached` | src/ttspico.rs:54-57 | if setup reaches `create_engine`, every earlier step ran, and both `add_resource` calls succeeded |
| `TtsPico.Synthesiser.New` | src/ttspico.rs:39-59 | `new` makes exactly the calls `Attempted` lists. It returns `Ok` exactly when no library call fails; otherwise it returns the error of the first failing call, with no engine created. On success the engine is fresh, with its script untouched and its log empty |
| `TtsPico.Synthesiser.FeedText` | src/ttspico.rs:66-70 | the feeding loop keeps the consumed bytes followed by `remaining` equal to `source`. Its result, the replies it uses up and the calls it makes are those of `Feed` |
| `TtsPico.Synthesiser.DrainSamples` | src/ttspico.rs:72-82 | the draining loop appends `pcm_buf[..n_written]` after each call and stops at `Idle`. It returns `Drain`'s samples, or `Drain`'s error with no partial vector. The replies it uses up and its `get_data` calls are `Drain`'s |
| `TtsPico.Synthesiser.Generate` | src/ttspico.rs:62-83 | `generate`'s result, the engine's remaining replies and the calls it received are those of `Generation` |
| `Cpal.NewOutput` | src/cpal.rs:36-50 | `Output::new` fails with "Unable to find audio output device." exactly when there is no default output device. Otherwise it keeps that device with 1 channel, a 16000 Hz sample rate and the default buffer size |
| `Cpal.BuildOutputStream` | src/cpal.rs:67-74 | the stream is built with the output's configuration and the requested sample format, unless the library fails |
| `Cpal.DataSender.Fill` | src/cpal.rs:56-63 | one callback overwrites every slot of the device slice, whatever it held before. Slot `i` gets `source[cursor + i]` when that exists and 0 otherwise. The cursor moves forward by `min(len, source.len() - cursor)` and never passes the end of the buffer |
| `Cpal.WindowExtendsPadded` | src/cpal.rs:55-62 | the slice filled after `t` samples continues the stream of source samples followed by silence, from position `t` |
| `Cpal.SilenceOnceExhausted` | src/cpal.rs:62 | once the buffer is used up, every later callback writes silence |
| `Cpal.PaddedIsPrefixOfSourceThenSilence` | src/cpal.rs:55-62 | what the device has received is a prefix of the source followed by zeros; once at least `source.len()` samples are out, every source sample has been emitted exactly once, in order |
| `Cpal.Play` | src/cpal.rs:51-78 | `play` builds a stream with the output's configuration and the I16 sample format, and starts it. If either step fails, it returns that step's library error and no callback runs. Otherwise the device, across all its callbacks, receives exactly the first `Σ len` samples of the source followed by silence |
| `Speech.OutputModule.New` | src/lib.rs:9-16 | `OutputModule::new` succeeds exactly when both the synthesiser setup and the output setup succeed. If the synthesiser fails, the error is that of its first failing library call. If there is no device, the error is `Output::new`'s message. The output carries the fixed configuration |
| `Speech.OutputModule.Speak` | src/lib.rs:17-25 | `speak` plays nothing when synthesis fails, and returns `generate`'s error. Otherwise, if building or starting the stream fails, it returns that library error and the device receives nothing. When all succeeds, the device receives exactly the synthesised samples, in order, followed by silence |

## Left out

- The internals of the Pico and cpal libraries are not modelled: resource file parsing, voice and engine internals, device discovery and the audio thread. Each library call is an oracle that answers from a script or a fault parameter.
- An engine that keeps taking 0 bytes, or keeps answering `More`, forever would make the source loop forever. The model cannot express such an engine, because its reply scripts are finite and it always makes progress once they are used up. The termination of `FeedText`, `DrainSamples` and `Generate` therefore rests on that assumption about the engine, not on anything the source guarantees.
- The panic that slicing at `src/ttspico.rs:69` would raise if `put_text` reported more bytes than offered is not modelled. The model assumes `put_text` never does this: `PicoEngine.Accepted` answers at most the offered length, by construction of the oracle.
- The 5000 ms sleep and the real-time callback thread are not modelled. Timing and concurrency cannot be expressed here. The callbacks are a sequence of slice lengths run one after another after the stream starts. So an utterance that outlasts the sleep, which would be cut off, is not captured.
- The stream error handler is not modelled; it only logs.
- Mid-stream device errors, which only lead to that log message, are not modelled.
- The `Debug`, `Display`, `From` and `std::error::Error` impls of both `Error` types are not modelled; they only format. Both `Error` types are one `Pcm.Error` carrying the description string.
- The `as_slice_mut().unwrap()` sample-format check is not modelled. The device slice is an `array` of 16-bit samples, and the stream is built as I16.
- `text.as_bytes()` in `speak` is not modelled: `Speak` takes the bytes directly, with no UTF-8 encoding step.
- The `Rc` and `RefCell` sharing of the system and voice is not modelled. The system is the value `System(memorySize)` that the voice keeps. Resources record their kind and path only.
- `Synthesiser::generate` is one Rust function. Here its two loops are the methods `FeedText` and `DrainSamples`, which `Generate` calls in turn with `flush` between them.
- src/main.rs is not part of this model. It is process plumbing, and its `run` calls `TTSPicoBackend` and `Output::queue`, which do not exist in the modelled files.
