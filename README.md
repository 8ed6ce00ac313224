# voxmux: a verified model of the audio/speech router core

voxmux is a Rust audio router:

- It captures several audio inputs and mixes them with per-input volume and mute.
- It plays the mix on an output device.
- It feeds each input to a speech-recognition engine and fans the final transcripts out to text destinations, such as a file or a chat channel.
- A terminal dashboard shows the live state and sends volume and mute commands back.

This project models that core in Dafny and proves properties of the model.

The model covers these parts, each with its own module and file:

- **Ring buffer** (`ring_buffer.dfy`). The sample FIFO between threads is a class over an array, with ghost contents and a capacity.
- **Mixer** (`mixer.dfy`). The per-input controls and the handles that share them, and the mixing cycle `mix_once`. The cycle is proved against a function that sums the scaled lanes (`MixAt`, `MixBlock`).
- **Capture and output nodes** (`capture.dfy`, `output.dfy`). The shared status and enable/playing flags, and the bodies of the device data and error callbacks.
- **Destinations** (`file_dest.dfy`, `discord_dest.dfy`, `dest_registry.dfy`, `dest_host.dfy`):
  - the file destination and the Discord stub;
  - the factory registry;
  - the routing host;
  - the routing task, proved against a fold `Deliveries` over the received results for the calls it makes, and a fold `FileAfter` over those calls for each file destination's new state.
- **Speech engines** (`null_engine.dfy`, `whisper_engine.dfy`, `engine_registry.dfy`, `asr_host.dfy`):
  - the null engine and the Whisper stub;
  - the engine registry;
  - the host whose per-input task is a sequence of `select!` branches, proved against the value-level step function `Step`/`Run`.
- **Configuration** (`config.dfy`, `config_diff.dfy`):
  - defaults;
  - `${VAR}` interpolation, with a scanner for the placeholder pattern and a model of `str::replace`;
  - the hot-reload diff, proved against a fold over the new inputs.
- **Dashboard** (`tui_types.dfy`, `tui_app.dfy`, `tui_ui.dfy`, `log_layer.dfy`):
  - the router state and commands;
  - the key handler as a class whose methods follow the pure `KeyStep`;
  - the tab index and the log-window arithmetic;
  - the bounded log buffer and its line format.
- **Entry-point glue** (`router.dfy`):
  - the output FIFO size;
  - the filter for enabled inputs;
  - the merge of destination configurations;
  - the state snapshot;
  - the command handler, proved against `RunCommands`.

Shared definitions live in `base.dfy` (Option/Result, integer widths, decimal rendering) and in `core_types.dfy`:

- the chunk, result and error types;
- a TOML value;
- an unbounded channel class with a queue and a receiver-alive flag.

Rust `f32` values are modelled as `real`. `usize` is modelled with the width of `u64`, because the targets are 64-bit.

## Model

| member | source | states |
|---|---|---|
| Base.NatToStringRoundTrip | crates/voxmux-core/src/config_diff.rs:20-30 | The decimal text of a number, as `{}` prints it, reads back as that number. |
| Base.WrappingIncrement | crates/asr-engine/src/null_engine.rs:43 | `fetch_add(1)` on a `usize` adds one below the maximum and wraps to 0 at the maximum. |
| Base.I64AsU64 | crates/voxmux-destination/src/discord_dest.rs:40-47 | `v as u64` keeps non-negative values and adds 2^64 to negative ones. |
| Toml.Get | crates/voxmux-destination/src/file_dest.rs:39-41 | A key is found only in a table that holds it, and the lookup gives that entry. |
| Toml.GetStr | crates/voxmux-destination/src/file_dest.rs:39-44 | `get(key).and_then(as_str)` is Some exactly when the entry exists and is a string. |
| Toml.GetInt | crates/voxmux-destination/src/discord_dest.rs:40-47 | `get(key).and_then(as_integer)` is Some exactly when the entry exists and is an integer. |
| Channels.Channel.Send | crates/asr-engine/src/host.rs:99 | A send appends to the queue while the receiver is alive, and fails without changing the queue once it is dropped. |
| Channels.Channel.Recv | crates/asr-engine/src/host.rs:74-76 | A receive takes the oldest queued value, or reports that nothing is queued. |
| Channels.Channel.DropReceiver | crates/voxmux-audio/src/capture.rs:201-211 | Dropping the receiver keeps the queue, and every later send fails. |
| RingBuffer.SampleRing.constructor | crates/voxmux-audio/src/lib.rs:15-17 | A new FIFO is empty, with the requested capacity. |
| RingBuffer.SampleRing.PushSlice | crates/voxmux-audio/src/lib.rs:68-79 | It pushes min(len, vacant) samples, and exactly those samples are appended. A full buffer accepts none. |
| RingBuffer.SampleRing.PopInto | crates/voxmux-audio/src/lib.rs:40-60 | It pops min(count, occupied) samples into the front of the destination, in order. The rest of the destination is untouched. |
| RingBuffer.SampleRing.TryPop | crates/voxmux-audio/src/lib.rs:62-66 | It gives None on an empty FIFO, and otherwise the oldest sample, which it removes. |
| RingBuffer.PushThenPop | crates/voxmux-audio/src/lib.rs:40-60 | Pushing into a fresh FIFO and popping gives back the first min(n, capacity) samples in order. |
| Mixer.InputControls.SetVolume | crates/voxmux-audio/src/mixer.rs:27-29 | The controls store the volume exactly as given; mute is unchanged. |
| Mixer.InputControls.SetMuted | crates/voxmux-audio/src/mixer.rs:35-37 | It stores the mute flag; the volume is unchanged. |
| Mixer.ClampVolume | crates/voxmux-audio/src/mixer.rs:60-62 | `v.max(0.0)` is never negative, keeps non-negative volumes, and turns negative ones into 0. |
| Mixer.InputHandle.SetVolume | crates/voxmux-audio/src/mixer.rs:60-62 | A handle stores the clamped volume in the shared controls, where every clone sees it. |
| Mixer.InputHandle.SetMuted | crates/voxmux-audio/src/mixer.rs:68-70 | A handle stores mute in the shared controls and leaves the volume alone. |
| Mixer.InputHandle.Clone | crates/voxmux-audio/src/mixer.rs:45-49 | A clone is a new handle over the same controls. |
| Mixer.InputHandle.Volume | crates/voxmux-audio/src/mixer.rs:56-58 | It reads the shared controls' volume. |
| Mixer.InputHandle.IsMuted | crates/voxmux-audio/src/mixer.rs:64-66 | It reads the shared controls' mute flag. |
| Mixer.InputHandle.Id | crates/voxmux-audio/src/mixer.rs:72-74 | It gives the id of the controlled input. |
| Mixer.MixBlock | crates/voxmux-audio/src/mixer.rs:124-143 | The mix buffer is one block long, and each sample is the in-order sum of the scaled lane samples. |
| Mixer.MixAtSplit | crates/voxmux-audio/src/mixer.rs:132-143 | Mixing two groups of inputs is the sum of mixing each group. |
| Mixer.SilentLaneRemovable | crates/voxmux-audio/src/mixer.rs:139-143 | A muted input contributes nothing: removing it leaves every mix sample unchanged. |
| Mixer.MixAtIsSumFromFront | crates/voxmux-audio/src/mixer.rs:132-143 | The mix does not depend on the order of accumulation; front-to-back equals back-to-front. |
| Mixer.MaxReadIsMaximum | crates/voxmux-audio/src/mixer.rs:136-138 | `max_read` is the largest drained count, reached by some input, and is 0 iff every input was empty. |
| Mixer.MixAtBeyondMaxRead | crates/voxmux-audio/src/mixer.rs:132-147 | Beyond `max_read` every mix sample is silence, so only `max_read` samples are pushed. |
| Mixer.AllMutedIsSilent | crates/voxmux-audio/src/mixer.rs:139-143 | With all inputs muted the mix is silent. |
| Mixer.Mixer.constructor | crates/voxmux-audio/src/mixer.rs:94-101 | A new mixer has no inputs and two zeroed buffers of the block size. |
| Mixer.Mixer.AddInput | crates/voxmux-audio/src/mixer.rs:103-114 | It appends an input with fresh controls holding id, volume and mute, and returns a handle sharing them. |
| Mixer.Mixer.MixOnce | crates/voxmux-audio/src/mixer.rs:118-152 | See the list below this table. |
| Mixer.Mixer.DrainInput | crates/voxmux-audio/src/mixer.rs:130-133 | The read buffer is zeroed, and then min(block, backlog) samples are popped into its front. |
| Mixer.Fill | crates/voxmux-audio/src/mixer.rs:126 | Zeroing sets every slot. |
| Mixer.Accumulate | crates/voxmux-audio/src/mixer.rs:139-143 | `mix[i] += read[i] * vol` for i < n; the other slots are unchanged. |
| Capture.EncodeStatus | crates/voxmux-audio/src/capture.rs:37-44 | The codes are 0, 1 and 2, and decoding a stored code gives back the status. |
| Capture.DecodeStatus | crates/voxmux-audio/src/capture.rs:29-35 | Code 1 is Error, 2 is Disabled, and every other code is Ok. |
| Capture.CaptureFlags.constructor | crates/voxmux-audio/src/capture.rs:74-77 | A node starts enabled, with status code 0. |
| Capture.CaptureHandle.SetEnabled | crates/voxmux-audio/src/capture.rs:25-27 | It sets the shared enabled flag; the status is unchanged. |
| Capture.CaptureHandle.SetStatus | crates/voxmux-audio/src/capture.rs:37-44 | It stores the status's code; reading the status back gives it. |
| Capture.CaptureHandle.Clone | crates/voxmux-audio/src/capture.rs:13-18 | A clone shares the flags and keeps the id. |
| Capture.OnStreamError | crates/voxmux-audio/src/capture.rs:79-82 | A stream error stores code 1, read back as Error; enabled is unchanged. |
| Capture.CaptureHandle.IsEnabled | crates/voxmux-audio/src/capture.rs:21-23 | It reads the shared enabled flag. |
| Capture.CaptureHandle.Status | crates/voxmux-audio/src/capture.rs:29-35 | It decodes the shared status code: 1 is Error, 2 is Disabled, anything else is Ok. |
| Capture.OnData | crates/voxmux-audio/src/capture.rs:87-103 | See the list below this table. |
| Output.DecodeStatus | crates/voxmux-audio/src/output.rs:30-35 | Only `STATUS_ERROR` decodes to Error, and an output is never Disabled. |
| Output.OutputFlags.constructor | crates/voxmux-audio/src/output.rs:59-62 | A node starts playing with status Ok. |
| Output.OutputHandle.Clone | crates/voxmux-audio/src/output.rs:15-19 | A clone is a new handle over the same flags. |
| Output.OutputHandle.IsPlaying | crates/voxmux-audio/src/output.rs:22-24 | It reads the shared playing flag. |
| Output.OutputHandle.SetPlaying | crates/voxmux-audio/src/output.rs:26-28 | It sets the shared playing flag. |
| Output.OutputHandle.Status | crates/voxmux-audio/src/output.rs:30-35 | It decodes the shared status code: only `STATUS_ERROR` is Error. |
| Output.OnStreamError | crates/voxmux-audio/src/output.rs:64-67 | A stream error stores `STATUS_ERROR`. |
| Output.PlayedBlock | crates/voxmux-audio/src/output.rs:78-80 | Each slot of the device block holds the next queued sample, or 0.0 once the FIFO is dry. |
| Output.OnData | crates/voxmux-audio/src/output.rs:72-85 | See the list below this table. |
| Output.Silence | crates/voxmux-audio/src/output.rs:74 | `fill(0.0)` silences every slot. |
| FileDest.SendOutcome | crates/voxmux-destination/src/file_dest.rs:49-67 | A send succeeds iff a path is set and the write works. Otherwise it fails with "not initialized" or with the I/O error's text. |
| FileDest.AppendLine | crates/voxmux-destination/src/file_dest.rs:56-63 | Appending creates the file if needed, adds the line at its end, and leaves every other file alone. |
| FileDest.AppendLineTwice | crates/voxmux-destination/src/file_dest.rs:56-63 | Two appends equal one append of both lines, so successive sends accumulate in order. |
| FileDest.FormatLine | crates/voxmux-destination/src/file_dest.rs:62 | `writeln!("{}{}")` writes the prefix, then the text, then a newline. |
| FileDest.FileDestination.constructor | crates/voxmux-destination/src/file_dest.rs:14-19 | A new destination has no path and a zero count, and is not healthy. |
| FileDest.FileDestination.IsHealthy | crates/voxmux-destination/src/file_dest.rs:69-71 | It is healthy iff a path is set. |
| FileDest.FileDestination.Initialize | crates/voxmux-destination/src/file_dest.rs:38-47 | A missing or non-string `path` fails with InitializationFailed; otherwise the path is stored. |
| FileDest.FileDestination.SendText | crates/voxmux-destination/src/file_dest.rs:49-67 | See the list below this table. |
| FileDest.FileDestination.Shutdown | crates/voxmux-destination/src/file_dest.rs:73-75 | Shutting down always succeeds. |
| DiscordDest.IdEntry | crates/voxmux-destination/src/discord_dest.rs:40-47 | An id is taken only from an integer entry, reinterpreted as u64. |
| DiscordDest.SendText | crates/voxmux-destination/src/discord_dest.rs:57-69 | The stub send always succeeds. |
| DiscordDest.DiscordDestination.constructor | crates/voxmux-destination/src/discord_dest.rs:12-18 | A new stub is unconfigured and not healthy. |
| DiscordDest.DiscordDestination.IsHealthy | crates/voxmux-destination/src/discord_dest.rs:71-73 | It is healthy iff a token is set. |
| DiscordDest.DiscordDestination.Initialize | crates/voxmux-destination/src/discord_dest.rs:33-55 | A missing or non-string `token` fails; otherwise the token and both optional ids are stored. |
| DiscordDest.DiscordDestination.Shutdown | crates/voxmux-destination/src/discord_dest.rs:75-77 | Shutting down always succeeds. |
| DestRegistry.Make | crates/voxmux-destination/src/registry.rs:26-31 | A factory makes a fresh, unhealthy destination of its kind. |
| DestRegistry.Initialize | crates/voxmux-destination/src/registry.rs:26-31 | Dispatch succeeds iff the kind accepts the config, and success leaves it healthy. A failure is InitializationFailed and keeps every field: a file destination's path, a Discord destination's token and both ids. A file destination's send count and appended lines never change. |
| DestRegistry.SendText | crates/voxmux-destination/src/file_dest.rs:49-67 | A Discord send succeeds and changes nothing. A file send answers `SendOutcome` of its path and keeps the path. A failed one changes nothing; a successful one wraps the count up by one and appends the formatted line. |
| DestRegistry.BuiltIn | crates/voxmux-destination/src/registry.rs:10-20 | "file" is always registered, and "discord" exactly when its feature is on. |
| DestRegistry.DestinationRegistry.Register | crates/voxmux-destination/src/registry.rs:22-24 | It inserts or replaces the factory for the name. |
| DestRegistry.DestinationRegistry.Create | crates/voxmux-destination/src/registry.rs:26-31 | An unknown name gives NotFound(name); a known one gives a fresh destination of its kind. |
| DestRegistry.DestinationRegistry.ListDestinations | crates/voxmux-destination/src/registry.rs:33-35 | It lists exactly the registered names, each once. |
| DestHost.DeliveriesAppend | crates/voxmux-destination/src/host.rs:60-83 | The routing task handles results one after another: deliveries of a concatenation are concatenated. |
| DestHost.FinalResultFansOut | crates/voxmux-destination/src/host.rs:65-82 | A final result is sent once per route of its input, in route order, with that route's prefix. |
| DestHost.NonFinalIgnored | crates/voxmux-destination/src/host.rs:61-63 | A non-final result causes no delivery. |
| DestHost.DeliveriesUseOwnRoutes | crates/voxmux-destination/src/host.rs:65-73 | Every delivery goes to a route of its own input, and carries the text of a final result from that input. |
| DestHost.UnroutedIgnored | crates/voxmux-destination/src/host.rs:65 | Results from inputs without routes are dropped. |
| DestHost.DeliveriesSnoc | crates/voxmux-destination/src/host.rs:60-83 | One more received result appends exactly its own sends. |
| DestHost.ResultDeliveriesRouted | crates/voxmux-destination/src/host.rs:65-66 | Each send of a result goes to a routed destination, and a file send to a routed file destination. |
| DestHost.DeliveriesRouted | crates/voxmux-destination/src/host.rs:60-83 | Every send of the routing task goes to a routed destination. |
| DestHost.AnswersMatchAppend | crates/voxmux-destination/src/host.rs:60-83 | Two consecutive runs of sends, each answered by its destination, make one such run. |
| DestHost.FileAfterAppend | crates/voxmux-destination/src/host.rs:60-83 | A file destination's state after two runs of sends is its state after their concatenation. |
| DestHost.DeliverResult | crates/voxmux-destination/src/host.rs:61-81 | It calls `send_text` with exactly the (destination, text, metadata) of `ResultDeliveries`, in route order. Each outcome is that destination's answer for its path and I/O result. Every routed file destination's new state is the fold `FileAfter` of those calls, and paths are kept. |
| DestHost.SendRoute | crates/voxmux-destination/src/host.rs:66-80 | The send for the `i`-th route carries the result's text, the input id and the route's prefix, and extends the sends, answers and file states so far by one. |
| DestHost.SendOne | crates/voxmux-destination/src/host.rs:71 | One `send_text` answers `Answer` of its destination's path and extends every routed file's `FileAfter` by that send. |
| DestHost.RouteNext | crates/voxmux-destination/src/host.rs:60-83 | Handling one more result extends the sends by `ResultDeliveries`, keeps every outcome its destination's answer, and extends every file state by those sends. |
| DestHost.DeliveriesStep | crates/voxmux-destination/src/host.rs:60 | The sends of the first j+1 results are those of the first j, then those of result j. |
| DestHost.RoutingTask | crates/voxmux-destination/src/host.rs:52-86 | It calls `send_text` with exactly `Deliveries(routes, results)`, in order. The k-th outcome is its destination's answer to the k-th I/O result, and a failure does not stop the loop. Every routed file destination ends in state `FileAfter` of those calls. |
| DestHost.LinesForLast | crates/voxmux-destination/src/host.rs:60-83 | A run of sends writes what all but its last write, then the last one's line. |
| DestHost.LinesForAppend | crates/voxmux-destination/src/host.rs:60-83 | Consecutive runs of sends write their text one after the other. |
| DestHost.LinesForNone | crates/voxmux-destination/src/host.rs:71-80 | Sends none of which succeed at a file write nothing there. |
| DestHost.LinesForOnly | crates/voxmux-destination/src/host.rs:71-80 | When exactly one send succeeds at a file, its formatted line is all that file receives. |
| DestHost.FileAfterWrites | crates/voxmux-destination/src/file_dest.rs:49-67 | A configured file receives exactly the lines of its successful sends, in order, appended to what it held; without any, no file is created. |
| DestHost.ExamplePrefixedLine | crates/voxmux-destination/src/host.rs:157-182 | A final result routed to a file with a prefix yields the file prefix + text + newline. |
| DestHost.ExampleOwnInputOnly | crates/voxmux-destination/src/host.rs:184-216 | A result reaches only the file routed from its own input; the other file is never created. |
| DestHost.ExampleFanOut | crates/voxmux-destination/src/host.rs:218-250 | One result routed to two files writes it to both, each with its own prefix. |
| DestHost.ExampleUnrouted | crates/voxmux-destination/src/host.rs:252-282 | A result from an input without routes creates no file. |
| DestHost.ExampleArrivalOrder | crates/voxmux-destination/src/host.rs:298-325 | A later result's lines come after all lines of the results before it. |
| DestHost.ExampleFinalOnly | crates/voxmux-destination/src/host.rs:327-353 | A partial result writes nothing; the final one after it writes its line. |
| DestHost.DestinationHost.constructor | crates/voxmux-destination/src/host.rs:20-27 | A new host has a built-in registry, no routes and the receiver. |
| DestHost.DestinationHost.AddRoute | crates/voxmux-destination/src/host.rs:29-50 | An unknown plugin gives NotFound, and a rejected config gives the initialisation error; neither adds a route. Otherwise the route is appended to that input's list. |
| DestHost.DestinationHost.Start | crates/voxmux-destination/src/host.rs:52-58 | Start takes the receiver and the routes, leaving none behind. |
| NullEngine.ResultText | crates/asr-engine/src/null_engine.rs:45 | The text is "[null] N samples", whose digits read back as N. |
| NullEngine.ResultFor | crates/asr-engine/src/null_engine.rs:43-49 | The result is final, with an empty input id, timestamp 0, and the sample-count text. |
| NullEngine.NullEngine.constructor | crates/asr-engine/src/null_engine.rs:14-19 | A new engine has count 0 and no sender. |
| NullEngine.NullEngine.FeedAudio | crates/asr-engine/src/null_engine.rs:42-57 | The count wraps up by one. One result is sent if a live sender is set and its lock is not poisoned. It always gives Ok. |
| NullEngine.NullEngine.Shutdown | crates/asr-engine/src/null_engine.rs:63-65 | Shutting down always succeeds. |
| NullEngine.NullEngine.SetResultSender | crates/asr-engine/src/null_engine.rs:59-61 | It stores the sender. |
| NullEngine.NullEngine.Initialize | crates/asr-engine/src/null_engine.rs:38-40 | It accepts any config. |
| WhisperEngine.WhisperEngine.Initialize | crates/voxmux-engine/src/whisper_engine.rs:34-54 | A missing `model_path` fails; otherwise it stores the path and the optional language. |
| WhisperEngine.WhisperEngine.FeedAudio | crates/voxmux-engine/src/whisper_engine.rs:56-59 | The stub accepts audio and produces nothing. |
| WhisperEngine.WhisperEngine.SetResultSender | crates/voxmux-engine/src/whisper_engine.rs:61-63 | It stores the sender; the configuration is kept. |
| WhisperEngine.WhisperEngine.Shutdown | crates/voxmux-engine/src/whisper_engine.rs:65-67 | Shutting down always succeeds. |
| EngineRegistry.FeedOutput | crates/asr-engine/src/null_engine.rs:42-57 | Feeding the null engine yields one result; feeding Whisper yields none. |
| EngineRegistry.Initialize | crates/asr-engine/src/registry.rs:26-31 | Dispatch succeeds iff the kind accepts the config, and a failure is InitializationFailed. |
| EngineRegistry.FeedAudio | crates/asr-engine/src/host.rs:77 | The sender's queue grows by exactly the engine's output while the receiver is alive. |
| EngineRegistry.Shutdown | crates/voxmux-engine/src/engine_trait.rs:11 | Shutting down either engine succeeds. |
| EngineRegistry.BuiltIn | crates/asr-engine/src/registry.rs:10-20 | "null" is always registered, and "whisper" exactly when its feature is on. |
| EngineRegistry.PluginRegistry.Register | crates/asr-engine/src/registry.rs:22-24 | It inserts or replaces a factory. |
| EngineRegistry.PluginRegistry.Create | crates/asr-engine/src/registry.rs:26-31 | An unknown name gives EngineNotFound(name); a known one gives a fresh engine of its kind. |
| EngineRegistry.PluginRegistry.ListEngines | crates/asr-engine/src/registry.rs:33-35 | It lists exactly the registered names, each once. |
| AsrHost.RunAppend | crates/asr-engine/src/host.rs:72-108 | The input task loop runs its branches in sequence: running two schedules is running their concatenation. |
| AsrHost.RunStopped | crates/asr-engine/src/host.rs:84-104 | After either `break` the input task does nothing more. |
| AsrHost.RunForwardsOwnId | crates/asr-engine/src/host.rs:97-99 | Every result forwarded by an input's task carries that input's id, and earlier ones are kept. |
| AsrHost.RunConservation | crates/asr-engine/src/host.rs:74-83 | Every tap chunk is either still queued or fed to the engine (null: one result each; Whisper: none). |
| AsrHost.NullChunkForwarded | crates/asr-engine/src/host.rs:74-100 | A chunk fed to the null engine comes back as one result on the shared channel, stamped with the input id. |
| AsrHost.TapClosedEndsTask | crates/asr-engine/src/host.rs:84-92 | A closed tap shuts the engine down and ends the input task. |
| AsrHost.SkipAfterStop | crates/asr-engine/src/host.rs:84-104 | Branches scheduled after the input task stopped do not matter. |
| AsrHost.InputTask | crates/asr-engine/src/host.rs:71-109 | The imperative task loop leaves channels and engine exactly as `Run` predicts, for any schedule. |
| AsrHost.AsrHost.constructor | crates/asr-engine/src/host.rs:21-29 | A new host has no inputs and an open shared channel whose receiver it holds. |
| AsrHost.AsrHost.TakeResultReceiver | crates/asr-engine/src/host.rs:31-33 | The first call takes the receiver; later calls get None. |
| AsrHost.AsrHost.AddInput | crates/asr-engine/src/host.rs:35-60 | Unknown engine names and rejected configs fail without adding anything. Otherwise the input is appended, with its engine wired to its own result channel. |
| AsrHost.AsrHost.Start | crates/asr-engine/src/host.rs:62-112 | Every pending input becomes a task, and none is left pending. |
| Config.DefaultGeneralConfig | crates/asr-core/src/config.rs:36-44 | Defaults: log level "info", 48000 Hz, 1024-frame buffer. |
| Config.DefaultOutputConfig | crates/asr-core/src/config.rs:55-62 | Defaults: device "default", playing the mix. |
| Config.DefaultInputConfig | crates/asr-core/src/config.rs:64-82 | Defaults: device "default", enabled, volume 1.0, unmuted, no routes. |
| Config.DefaultWhisperConfig | crates/asr-core/src/config.rs:104-109 | The default language is "ja". |
| Config.DefaultAppConfig | crates/asr-core/src/config.rs:7-22 | A configuration with only defaults has no inputs, no ASR and no destinations. |
| Config.MatchAt | crates/asr-core/src/config.rs:141 | It finds the `${...}` match that starts at a position, if there is one. |
| Config.Scan | crates/asr-core/src/config.rs:145 | Captures are matches, left to right, and do not overlap. |
| Config.ScanCovers | crates/asr-core/src/config.rs:145 | No match is skipped: every match position is inside some capture. |
| Config.Names | crates/asr-core/src/config.rs:146 | Each name is the text between a capture's braces. |
| Config.MatchIsToken | crates/asr-core/src/config.rs:141 | A match is exactly `${` + name + `}`. |
| Config.NamesWellFormed | crates/asr-core/src/config.rs:141-146 | Names are non-empty and brace-free, and each capture's text is the token of its name. |
| Config.NoMatchNoCaptures | crates/asr-core/src/config.rs:145 | Text without a placeholder has no captures. |
| Config.ReplaceAbsent | crates/asr-core/src/config.rs:149 | `replace` leaves text without the pattern unchanged. |
| Config.ReplaceSelf | crates/asr-core/src/config.rs:149 | Replacing a pattern by itself changes nothing. |
| Config.ReplaceRemovesAll | crates/asr-core/src/config.rs:149 | After `replace`, no occurrence of the pattern remains, provided the replacement shares no character with the pattern. |
| Config.InterpolateEnvVars | crates/asr-core/src/config.rs:140-162 | The loop over the captures computes `Interpolate`. |
| Config.MissingFirst | crates/asr-core/src/config.rs:152-158 | Undefined names are collected in order, so the first collected is the first undefined one. |
| Config.InterpolateReportsFirstMissing | crates/asr-core/src/config.rs:156-158 | It fails iff some placeholder is undefined, and then names the first undefined one. |
| Config.NoPlaceholderUnchanged | crates/asr-core/src/config.rs:140-162 | Text without placeholders comes back unchanged. |
| Config.DefinedPlaceholderReplaced | crates/asr-core/src/config.rs:147-150 | Text that is a single placeholder for a defined variable becomes exactly its value; `Config.DefinedPlaceholderInText` covers a placeholder inside other text. |
| Config.NamesOfEmbedded | crates/asr-core/src/config.rs:141-146 | In text with one placeholder and no other '$', that placeholder's name is the only capture. |
| Config.ReplaceEmbedded | crates/asr-core/src/config.rs:149 | `replace` of the one occurrence of a '$'-led pattern puts the replacement there and keeps the text around it. |
| Config.DefinedPlaceholderInText | crates/asr-core/src/config.rs:140-162 | A defined placeholder inside other text becomes its value, and the text around it is kept. |
| ConfigDiff.FindInputSpec | crates/voxmux-core/src/config_diff.rs:48 | `find` gives the first old input with the id, and None iff there is none. |
| ConfigDiff.FindOwnInput | crates/voxmux-core/src/config_diff.rs:48 | With unique ids, an input's own id finds it. |
| ConfigDiff.GeneralWarningsReported | crates/voxmux-core/src/config_diff.rs:20-39 | Each restart warning for sample rate, buffer size and output device is reported exactly when that setting differs. |
| ConfigDiff.AsrWarnings | crates/voxmux-core/src/config_diff.rs:72-80 | At most one warning, given exactly when both configs name an engine and the names differ. |
| ConfigDiff.InputDeltaOfSpec | crates/voxmux-core/src/config_diff.rs:47-68 | See the list below this table. |
| ConfigDiff.Diff | crates/voxmux-core/src/config_diff.rs:16-83 | See the list below this table. |
| ConfigDiff.InputsDeltaAppend | crates/voxmux-core/src/config_diff.rs:47 | The per-input pass distributes over concatenation of the new inputs. |
| ConfigDiff.InputsDeltaSingle | crates/voxmux-core/src/config_diff.rs:47-68 | When only one input changes, the diff is that input's change. |
| ConfigDiff.VolumeChangeMembers | crates/voxmux-core/src/config_diff.rs:50-54 | (id, v) is reported iff some new input with that id and volume v differs by more than EPSILON from the first old input with its id. |
| ConfigDiff.MuteChangeMembers | crates/voxmux-core/src/config_diff.rs:56-60 | (id, m) is reported iff some new input with that id and mute m differs from the first old input with its id. |
| ConfigDiff.NewInputIgnored | crates/voxmux-core/src/config_diff.rs:48 | An input absent from the old config produces nothing. |
| ConfigDiff.DiffOfIdenticalIsEmpty | crates/voxmux-core/src/config_diff.rs:16-83 | Diffing a config with itself reports nothing, when its ids are unique. |
| ConfigDiff.InputDeviceChangeOnlyWarns | crates/voxmux-core/src/config_diff.rs:62-67 | Changing one input's device yields exactly one restart warning and no reloadable change. |
| TuiTypes.DefaultInputStatus | crates/voxmux-core/src/tui_types.rs:2-8 | The default status is Ok. |
| TuiTypes.DefaultInputState | crates/voxmux-core/src/tui_types.rs:11-20 | The default input is empty, disabled, silent, unmuted, and has status Ok. |
| TuiTypes.DefaultOutputState | crates/voxmux-core/src/tui_types.rs:29-36 | The default output is device "default", playing the mix. |
| TuiTypes.DefaultRouterState | crates/voxmux-core/src/tui_types.rs:39-46 | The default state has no inputs, recognitions or warnings, the default output, and is not running. |
| LogLayer.LevelName | crates/voxmux-tui/src/log_layer.rs:51 | Level names are the capitalised tracing names, and contain no `]`. |
| LogLayer.MessageAbsent | crates/voxmux-tui/src/log_layer.rs:26-38 | Without a field named `message`, the message is empty. |
| LogLayer.MessageIsLast | crates/voxmux-tui/src/log_layer.rs:26-38 | Otherwise the message is the text of the last such field, whether it came as str or Debug. |
| LogLayer.FormatLine | crates/voxmux-tui/src/log_layer.rs:51 | The line's length is the sum of its parts plus the five format characters. |
| LogLayer.ParseFormatRoundTrip | crates/voxmux-tui/src/log_layer.rs:51 | Level, target and message can be read back from a line when the target has no colon. |
| LogLayer.FormatExample | crates/voxmux-tui/src/log_layer.rs:103-112 | An event whose only field is its message m is stored as "[LEVEL] target: m"; `info!(target: "voxmux", "hello")` gives "[INFO] voxmux: hello". |
| LogLayer.RetainBelowCapacity | crates/voxmux-tui/src/log_layer.rs:53-58 | Below capacity, a line is appended and nothing is dropped. |
| LogLayer.RetainAtCapacity | crates/voxmux-tui/src/log_layer.rs:54-57 | At capacity the oldest line is dropped and the new one is appended last. |
| LogLayer.RetainWithinCapacity | crates/voxmux-tui/src/log_layer.rs:54-57 | With capacity at least 1, a buffer within capacity stays within it. |
| LogLayer.RetainAllKeepsNewest | crates/voxmux-tui/src/log_layer.rs:53-58 | After any sequence of events, the buffer holds the newest `capacity` lines, oldest first. |
| LogLayer.ZeroCapacityKeepsLast | crates/voxmux-tui/src/log_layer.rs:54-57 | With capacity 0 the buffer still keeps the latest line. |
| LogLayer.TuiLogLayer.OnEvent | crates/voxmux-tui/src/log_layer.rs:41-59 | A formatted line is retained, or nothing changes when the lock fails. |
| TuiApp.InitialView | crates/voxmux-tui/src/app.rs:33-43 | A new app starts on Dashboard with selection 0, not quitting, scroll 0 and auto-scroll on. |
| TuiApp.App.constructor | crates/voxmux-tui/src/app.rs:33-43 | The app starts in the initial view, sharing the given log buffer. |
| TuiApp.App.UpdateState | crates/voxmux-tui/src/app.rs:45-51 | It adopts the state and pulls an out-of-range selection back onto the last input. |
| TuiApp.App.HandleKey | crates/voxmux-tui/src/app.rs:53-86 | The imperative handler follows `KeyStep` and keeps the selection valid. |
| TuiApp.App.HandleInputsKey | crates/voxmux-tui/src/app.rs:88-137 | It follows `InputsKey`. |
| TuiApp.App.HandleOutputsKey | crates/voxmux-tui/src/app.rs:140-147 | It follows `OutputsKey` and changes nothing. |
| TuiApp.App.HandleLogsKey | crates/voxmux-tui/src/app.rs:149-167 | It follows `LogsKey`. |
| TuiApp.UpdateKeepsSelection | crates/voxmux-tui/src/app.rs:45-51 | After `update_state` the selection is valid; it is kept if in range, and otherwise becomes the last index. |
| TuiApp.KeyStepInvariants | crates/voxmux-tui/src/app.rs:53-167 | No key changes the router state or breaks the selection. Only `q` quits, and `q` always does. |
| TuiApp.QuitFromAnyTab | crates/voxmux-tui/src/app.rs:56-59 | `q` sets should_quit and returns Quit from every tab. |
| TuiApp.DigitsSelectTabs | crates/voxmux-tui/src/app.rs:60-75 | `1` to `4` select Dashboard, Inputs, Outputs and Logs, and return None. |
| TuiApp.DashboardInert | crates/voxmux-tui/src/app.rs:84 | The dashboard tab ignores non-global keys. |
| TuiApp.EmptyInputsInert | crates/voxmux-tui/src/app.rs:89-91 | With no inputs the inputs tab ignores every key. |
| TuiApp.SelectionMoves | crates/voxmux-tui/src/app.rs:94-105 | Up and Down move the selection by one, saturating at both ends. |
| TuiApp.VolumeSteps | crates/voxmux-tui/src/app.rs:106-121 | Right and Left request the selected input's volume ±0.05, clamped to at most 1.0 and at least 0.0. |
| TuiApp.VolumeStepsUndo | crates/voxmux-tui/src/app.rs:106-121 | Away from the bounds, a step up followed by a step down returns to the same volume, and so does the reverse. |
| TuiApp.TogglesNegate | crates/voxmux-tui/src/app.rs:122-146 | `m`, `e` and space request the negated flag and leave the app state unchanged. |
| TuiApp.LogKeys | crates/voxmux-tui/src/app.rs:149-167 | On Logs, Up scrolls back (saturating) and stops following; Down scrolls forward to 0; `G` resets and follows. |
| TuiApp.ScrollUpDown | crates/voxmux-tui/src/app.rs:149-160 | Below saturation, Up then Down restores the scroll position. |
| TuiUi.TabIndex | crates/voxmux-tui/src/ui.rs:25-30 | Each tab maps to a title index below 4. |
| TuiUi.TabIndexBijective | crates/voxmux-tui/src/ui.rs:24-30 | The tab map is one-to-one and covers every title. |
| TuiUi.TitleDigitSelectsTab | crates/voxmux-tui/src/ui.rs:24-30 | The digit a tab's title starts with is the key that selects that tab. |
| TuiUi.LogWindow | crates/voxmux-tui/src/ui.rs:147-150 | 0 ≤ start ≤ end ≤ total, the window holds min(total, visible) lines, and the effective scroll is at most total − visible. |
| TuiUi.FollowShowsNewest | crates/voxmux-tui/src/ui.rs:148-157 | With scroll 0 the panel shows the newest lines that fit. |
| TuiUi.ScrollStepsBack | crates/voxmux-tui/src/ui.rs:148-150 | Each extra step of scroll moves the window back one line until the oldest line reaches the top. |
| Router.RingCapacity | src/main.rs:64 | Two seconds of samples never overflow `usize`, and are at least twice the sample rate. |
| Router.EnabledInputs | src/main.rs:71 | The filter keeps exactly the enabled inputs. |
| Router.EnabledInputsAppend | src/main.rs:71 | The filter keeps configuration order. |
| Router.AllEnabledKept | src/main.rs:71 | With every input enabled, all are kept in order. |
| Router.BaseRouteConfig | src/main.rs:124-130 | The base is the global `destinations[plugin]` value, or an empty table when either is absent. |
| Router.MergeRouteConfig | src/main.rs:122-137 | The imperative merge computes `MergedRouteConfig`. |
| Router.Overlay | src/main.rs:133-137 | Inserting every extra entry gives the base map overridden by the extra map. |
| Router.MergeOverrides | src/main.rs:132-137 | Extra keys win, the other global keys are kept, and no other key appears. |
| Router.MergeWithoutGlobal | src/main.rs:124-130 | Without a global table, a table of extras is used as it is. |
| Router.MergeNeedsTwoTables | src/main.rs:132-133 | The overlay happens only when both sides are tables. |
| Router.FirstIndex | src/main.rs:304 | `find` gives the first handle with the id, and None iff none has it. |
| Router.HandleCommands | src/main.rs:300-324 | It applies the commands exactly as `RunCommands` does, and consumes commands up to and including the first Quit. |
| Router.ApplyOne | src/main.rs:302-318 | One command changes the inputs as `ApplyCommand` states. |
| Router.SetVolumeEffect | src/main.rs:303-307 | For a known id, only the first handle with that id gets the clamped volume; an unknown id changes nothing. |
| Router.SetMutedEffect | src/main.rs:308-312 | The same holds for mute. |
| Router.IgnoredCommands | src/main.rs:313-318 | SetEnabled and SetPlayMixedInput change nothing. |
| Router.QuitStops | src/main.rs:319-321 | Commands after a Quit are neither received nor applied. |
| Router.RunCommandsAppend | src/main.rs:301 | Without a Quit, commands are handled one batch after another. |
| Router.Summaries | src/main.rs:256-259 | The captured per-input data is id, device and enabled, in the order of the enabled inputs. |
| Router.SnapshotOf | src/main.rs:269-290 | One entry per (handle, config) pair, in order, with live volume and mute. Peak is 0.0 and status is Ok. Output comes from config, nothing is recognised yet, and the router is running. |
| Router.Snapshot | src/main.rs:269-290 | The snapshot read from the handles' shared controls is `SnapshotOf` of their values. |
| Router.VolumeCommandShown | src/main.rs:269-307 | After a volume command for a listed input, the next snapshot shows the clamped volume for that input only. |

A few rows are too long for one cell. Each of these members states the following.

- **Mixer.Mixer.MixOnce**
  - With no inputs it does nothing and returns 0.
  - Otherwise it appends the first min(max_read, vacant) samples of `MixBlock` over the lanes to the output.
  - Every input FIFO loses exactly what it offered.
  - The inputs are unchanged.
- **Capture.OnData**
  - A disabled node does nothing.
  - An enabled node pushes min(len, vacant) samples, dropping the rest.
  - When the producer's lock is poisoned, an enabled node pushes nothing.
  - An enabled node sends the whole block as one chunk on a live tap, poisoned or not; a failed send leaves the queue alone.
- **Output.OnData**
  - A stopped node writes silence and leaves the FIFO alone.
  - So does a playing node whose consumer lock is poisoned.
  - Otherwise a playing node writes `PlayedBlock` and consumes min(len, available) samples.
- **FileDest.FileDestination.SendText**
  - An uninitialised destination fails with "not initialized".
  - An I/O error fails without changing the count.
  - Otherwise it appends prefix + text + newline to the file and wraps the count up by one.
- **DestHost examples**
  - The `DestHost.Example…` lemmas follow the routing tests of crates/voxmux-destination/src/host.rs.
  - Each is stated for the state `DestHost.RoutingTask` leaves, `FileAfter` of its calls, with every outcome its destination's answer (`AnswersMatch`).
  - Ids, prefixes and texts are arbitrary.
- **ConfigDiff.InputDeltaOfSpec**
  - A new input whose id is absent from the old config contributes nothing.
  - Otherwise it reports:
    - a volume change when |old − new| > EPSILON;
    - a mute change when the flags differ;
    - a device warning when the names differ.
- **ConfigDiff.Diff**
  - The play_mixed change is Some iff the flag differs, and carries the new value.
  - The volume and mute lists are those of the per-input fold.
  - The restart warnings are the general warnings, then the per-input warnings, then the ASR warning.

## Left out

- **Device and stream plumbing.**
  - Device enumeration and stream construction (cpal) are foreign calls.
  - Only the bodies of the callbacks are modelled, as methods on the state they close over.
  - crates/voxmux-audio/src/device.rs is not part of this model.
- **Threads and tasks.**
  - The following are not modelled: `Mixer::run`/`start`, `MixerHandle::stop`/`input_handles`, tokio spawning, `JoinHandle`s, and the awaiting in the hosts' `shutdown`.
  - The routing and engine tasks are modelled as sequential processors over what they receive.
  - For the engine task, a schedule of `select!` branches stands for the runtime's choice.
  - The state broadcast's 33 ms interval and its watch channel are not modelled; `Router.Snapshot` is one tick.
  - The TUI event loop is not modelled either.
- **Concurrency primitives.**
  - Atomics, `Arc` and `Mutex` become plain fields of shared objects.
  - Relaxed ordering and lock contention are not modelled.
  - Mutex poisoning is modelled where the source branches on it, as a `poisoned` parameter: `Capture.OnData`, `Output.OnData`, `NullEngine.NullEngine.FeedAudio` and `LogLayer.TuiLogLayer.OnEvent`.
  - A failed `lock().unwrap()` panics in the source and is not modelled.
- EngineRegistry.FeedAudio: it feeds the null engine with an unpoisoned sender lock, because the engine task owns that lock and no thread panics while holding it.
- **f32.**
  - Volumes, samples and peaks are `real`, so rounding, NaN and `to_bits`/`from_bits` are not modelled.
  - `f32::EPSILON` is the exact constant 2^-23.
  - Sums are exact.
- **Parsing and system access.**
  - TOML deserialisation and serde defaults are not modelled; the default functions give the values.
  - TOML datetime values have no `Toml.TomlValue` variant, because no part of the core reads one.
  - The regex engine is replaced by a scanner for `\$\{([^}]+)\}` (`Config.Scan`).
  - `std::env::var` becomes a map from names to values.
  - Each file destination records the text it appended to each path (`FileDest.AppendLine`); the file system itself is not modelled.
  - An I/O failure is a parameter, and partial writes are not modelled.
  - Two destinations configured with the same path are not modelled as writing the same file. Contents a file held before the first send are not modelled either.
- **Loading.** Loading a configuration file (`load_from_file`, `from_toml_str`) is not modelled beyond interpolation.
- **Configuration shape.**
  - crates/voxmux-core/src/config.rs is not part of this model.
  - The diff and the entry point use the configuration shape of crates/asr-core/src/config.rs, which has the same fields.
- **Dynamic dispatch.**
  - Destinations and engines are closed datatypes over the built-in plugin classes.
  - A registry can register only built-in kinds under any name, not arbitrary factories.
  - Cargo features become constructor booleans.
- **Message text.**
  - Engine and destination error messages are the source's strings.
  - I/O error texts are parameters.
  - Log output written with `tracing` is not modelled.
- **Terminal UI.**
  - Rendering with ratatui is not modelled beyond the tab index and the log window.
  - Key modifiers are not modelled, because the handler never inspects them.
  - Key codes other than the ones handled are one `OtherKey`.
- **Clone.** `Clone` on the dashboard's value types is the value itself. `Clone` on handles shares the underlying object.
- **Entry-point setup.**
  - The setup sequence in src/main.rs is not modelled as a whole. This covers opening devices, wiring taps, spawning tasks, logging setup, and the fallback logger for results without destinations.
  - Its out-of-date call sites to the capture constructor and to the dashboard state are not modelled.
  - The snapshot fills the two fields that the call site omits with their defaults: status Ok and no warnings.
- DestHost.DestinationHost.Start: it requires the receiver to be still held. In the source, a second `start` panics at its `expect`; the entry point calls `start` once.
- **Router.HandleCommands**
  - It requires the handles to control distinct inputs, as they do when each comes from its own `add_input`.
  - Aliased handles are not modelled.
- Config.DefinedPlaceholderInText: it is stated for one placeholder in text that holds no other '$'. Text with several placeholders is covered by `Config.InterpolateEnvVars` and `Config.Interpolate` only.
- **Config.ReplaceRemovesAll**
  - It is proved only when the replacement shares no character with the pattern.
  - Without that condition, a replacement can create a new occurrence.
- **ConfigDiff.DiffOfIdenticalIsEmpty**
  - It requires unique input ids.
  - With a duplicate id, `find` compares a later input with the first input of that id, so an identical configuration can still report changes.
- **LogLayer.ParseFormatRoundTrip**
  - It is stated for targets without a colon.
  - Module-path targets contain `::`, which makes the split ambiguous.
- **TuiApp.App.HandleKey**
  - It requires a valid selection, which every method of `App` keeps.
  - The source would panic when indexing with an out-of-range selection.
- **TuiApp.App.selectedInput**
  - The field is an unbounded `nat`. It stays below the length of a `Vec`, so the `usize` limit never applies.
  - `logScroll` is a 64-bit value whose `saturating_add` is modelled.
