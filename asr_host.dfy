/**
 * The recogniser host: inputs waiting to be started, each an engine with
 * its audio tap and its own result channel, and the per-input task that
 * `start` spawns. The input task is a loop over a `select!` between the tap and
 * the engine's results, modelled as a processor over the sequence of arms
 * the `select!` picks; an arm picked on an empty channel stands for that
 * channel's senders being gone.
 */
module AsrHost {
  import opened Base
  import opened CoreTypes
  import opened Toml
  import opened Channels
  import opened EngineRegistry

  datatype PendingInput = PendingInput(
    id: string,
    engine: Engine,
    tapRx: Channel<AudioChunk>,
    engineResultRx: Channel<RecognitionResult>)

  /** Which arm of the input task's `select!` fires. */
  datatype Branch = TapBranch | ResultBranch

  /**
   * What a task has done so far: the chunks still queued on its tap, the
   * results still queued by its engine, the results it forwarded, how
   * many chunks it fed, and whether it shut the engine down and stopped.
   */
  datatype TaskView = TaskView(
    tap: seq<AudioChunk>,
    engineResults: seq<RecognitionResult>,
    forwarded: seq<RecognitionResult>,
    feeds: nat,
    shutDown: bool,
    stopped: bool)

  /**
   * One turn of the loop of an input `id` whose engine is of kind `k`. A
   * chunk is fed to the engine (an error would only be logged); a closed
   * tap shuts the engine down and ends the input task; an engine result is
   * forwarded with the input's id; a closed result channel ends the input task.
   */
  function Step(k: EngineKind, id: string, v: TaskView, b: Branch): TaskView
  {
    if v.stopped then v
    else match b
      case TapBranch =>
        if v.tap == [] then v.(shutDown := true, stopped := true)
        else v.(tap := v.tap[1..], engineResults := v.engineResults + FeedOutput(k, v.tap[0]), feeds := v.feeds + 1)
      case ResultBranch =>
        if v.engineResults == [] then v.(stopped := true)
        else v.(engineResults := v.engineResults[1..], forwarded := v.forwarded + [v.engineResults[0].(inputId := id)])
  }

  /** The input task after the arms `s`, in order. */
  function Run(k: EngineKind, id: string, v: TaskView, s: seq<Branch>): TaskView
    decreases |s|
  {
    if s == [] then v else Step(k, id, Run(k, id, v, s[..|s| - 1]), s[|s| - 1])
  }

  lemma {:induction false} RunAppend(k: EngineKind, id: string, v: TaskView, a: seq<Branch>, b: seq<Branch>)
    ensures Run(k, id, v, a + b) == Run(k, id, Run(k, id, v, a), b)
    decreases |b|
  {
    if b == [] {
      assert a + b == a;
    } else {
      assert (a + b)[..|a + b| - 1] == a + b[..|b| - 1];
      assert (a + b)[|a + b| - 1] == b[|b| - 1];
      RunAppend(k, id, v, a, b[..|b| - 1]);
    }
  }

  /** Once the loop has ended, nothing further happens. */
  lemma {:induction false} RunStopped(k: EngineKind, id: string, v: TaskView, s: seq<Branch>)
    requires v.stopped
    ensures Run(k, id, v, s) == v
    decreases |s|
  {
    if s != [] {
      RunStopped(k, id, v, s[..|s| - 1]);
    }
  }

  /**
   * Forwarding keeps what was forwarded before, in order, and everything
   * the input task forwards carries its input's id.
   */
  lemma {:induction false} RunForwardsOwnId(k: EngineKind, id: string, v: TaskView, s: seq<Branch>)
    ensures |v.forwarded| <= |Run(k, id, v, s).forwarded|
    ensures Run(k, id, v, s).forwarded[..|v.forwarded|] == v.forwarded
    ensures forall i :: |v.forwarded| <= i < |Run(k, id, v, s).forwarded| ==> Run(k, id, v, s).forwarded[i].inputId == id
    decreases |s|
  {
    if s != [] {
      RunForwardsOwnId(k, id, v, s[..|s| - 1]);
      var w := Run(k, id, v, s[..|s| - 1]);
      assert Run(k, id, v, s) == Step(k, id, w, s[|s| - 1]);
      if !w.stopped && s[|s| - 1] == ResultBranch && w.engineResults != [] {
        assert Run(k, id, v, s).forwarded == w.forwarded + [w.engineResults[0].(inputId := id)];
      }
    }
  }

  /**
   * Nothing is lost: every chunk is either still queued or fed, and with
   * the null engine every fed chunk's result is either still queued or
   * forwarded (the stub engine answers nothing).
   */
  lemma {:induction false} RunConservation(k: EngineKind, id: string, v: TaskView, s: seq<Branch>)
    ensures Run(k, id, v, s).feeds + |Run(k, id, v, s).tap| == v.feeds + |v.tap|
    ensures k == NullKind ==>
      |Run(k, id, v, s).forwarded| + |Run(k, id, v, s).engineResults| ==
      |v.forwarded| + |v.engineResults| + (Run(k, id, v, s).feeds - v.feeds)
    ensures k == WhisperKind ==>
      |Run(k, id, v, s).forwarded| + |Run(k, id, v, s).engineResults| == |v.forwarded| + |v.engineResults|
    decreases |s|
  {
    if s != [] {
      RunConservation(k, id, v, s[..|s| - 1]);
    }
  }

  /** Feeding a chunk to the null engine and then taking its result forwards that chunk's result under the input's id. */
  lemma NullChunkForwarded(id: string, v: TaskView)
    requires !v.stopped && v.tap != [] && v.engineResults == []
    ensures Run(NullKind, id, v, [TapBranch, ResultBranch]).forwarded ==
      v.forwarded + [NullEngine.ResultFor(v.tap[0]).(inputId := id)]
  {
    assert [TapBranch, ResultBranch][..1] == [TapBranch];
    assert [TapBranch][..0] == [];
  }

  /** A closed tap shuts the engine down and ends the input task for good. */
  lemma TapClosedEndsTask(k: EngineKind, id: string, v: TaskView, s: seq<Branch>)
    requires !v.stopped && v.tap == []
    ensures Run(k, id, v, [TapBranch] + s) == v.(shutDown := true, stopped := true)
  {
    RunAppend(k, id, v, [TapBranch], s);
    assert [TapBranch][..0] == [];
    RunStopped(k, id, Run(k, id, v, [TapBranch]), s);
  }

  /** The view a task starts from. */
  function StartView(tap: seq<AudioChunk>, engineResults: seq<RecognitionResult>): TaskView
  {
    TaskView(tap, engineResults, [], 0, false, false)
  }

  /**
   * The actual channels and engine of `input` are as the view `w` says,
   * given what `sharedTx` held (`q0`) and the null engine's count (`c0`)
   * when the input task started.
   */
  ghost predicate Mirrors(input: PendingInput, sharedTx: Channel<RecognitionResult>, w: TaskView,
                          q0: seq<RecognitionResult>, c0: u64, stopped: bool, shutDown: bool)
    reads input.tapRx, input.engineResultRx, Obj(input.engine), sharedTx
  {
    input.tapRx.queue == w.tap && input.engineResultRx.queue == w.engineResults &&
    sharedTx.queue == q0 + (if sharedTx.receiverAlive then w.forwarded else []) &&
    stopped == w.stopped && shutDown == w.shutDown &&
    (input.engine.Null? ==> input.engine.nullEngine.feedCount == (c0 + w.feeds) % 0x1_0000_0000_0000_0000)
  }

  /** Counting one more feed on a wrapping counter that started at `c0`. */
  lemma WrappingCount(c0: u64, f: nat)
    ensures WrappingIncrement((c0 + f) % 0x1_0000_0000_0000_0000) == (c0 + (f + 1)) % 0x1_0000_0000_0000_0000
  {
    var m := 0x1_0000_0000_0000_0000;
    var q := (c0 + f) / m;
    assert c0 + f == q * m + (c0 + f) % m;
    assert c0 + (f + 1) == q * m + ((c0 + f) % m + 1);
    if (c0 + f) % m + 1 == m {
      assert c0 + (f + 1) == (q + 1) * m;
    }
  }

  /** The tap arm: feed the next chunk, or shut down on a closed tap. */
  method TapStep(input: PendingInput, sharedTx: Channel<RecognitionResult>, wasShutDown: bool,
                 ghost v: TaskView, ghost q0: seq<RecognitionResult>, ghost c0: u64)
    returns (stopped: bool, shutDown: bool)
    requires ResultSender(input.engine) == Some(input.engineResultRx) && input.engineResultRx.receiverAlive
    requires input.engineResultRx != sharedTx
    requires Mirrors(input, sharedTx, v, q0, c0, false, wasShutDown)
    modifies input.tapRx, input.engineResultRx, Obj(input.engine)
    ensures ResultSender(input.engine) == Some(input.engineResultRx) && input.engineResultRx.receiverAlive
    ensures Mirrors(input, sharedTx, Step(Kind(input.engine), input.id, v, TapBranch), q0, c0, stopped, shutDown)
  {
    stopped, shutDown := false, wasShutDown;
    var chunk := input.tapRx.Recv();
    if chunk.Some? {
      var _ := FeedAudio(input.engine, input.engineResultRx, chunk.value);
      WrappingCount(c0, v.feeds);
    } else {
      var _ := Shutdown(input.engine);
      stopped, shutDown := true, true;
    }
  }

  /** The result arm: forward the next engine result under the input's id, or stop on a closed channel. */
  method ResultStep(input: PendingInput, sharedTx: Channel<RecognitionResult>, wasShutDown: bool,
                    ghost v: TaskView, ghost q0: seq<RecognitionResult>, ghost c0: u64)
    returns (stopped: bool, shutDown: bool)
    requires input.engineResultRx != sharedTx
    requires Mirrors(input, sharedTx, v, q0, c0, false, wasShutDown)
    modifies input.engineResultRx, sharedTx
    ensures input.engineResultRx.receiverAlive == old(input.engineResultRx.receiverAlive)
    ensures sharedTx.receiverAlive == old(sharedTx.receiverAlive)
    ensures Mirrors(input, sharedTx, Step(Kind(input.engine), input.id, v, ResultBranch), q0, c0, stopped, shutDown)
  {
    stopped, shutDown := false, wasShutDown;
    var result := input.engineResultRx.Recv();
    if result.Some? {
      var _ := sharedTx.Send(result.value.(inputId := input.id));
    } else {
      stopped := true;
    }
  }

  /** One turn of the input task's loop: the arm `b` of the `select!`. */
  method TaskStep(input: PendingInput, sharedTx: Channel<RecognitionResult>, b: Branch, wasShutDown: bool,
                  ghost v: TaskView, ghost q0: seq<RecognitionResult>, ghost c0: u64)
    returns (stopped: bool, shutDown: bool)
    requires ResultSender(input.engine) == Some(input.engineResultRx) && input.engineResultRx.receiverAlive
    requires input.engineResultRx != sharedTx
    requires Mirrors(input, sharedTx, v, q0, c0, false, wasShutDown)
    modifies input.tapRx, input.engineResultRx, Obj(input.engine), sharedTx
    ensures ResultSender(input.engine) == Some(input.engineResultRx) && input.engineResultRx.receiverAlive
    ensures sharedTx.receiverAlive == old(sharedTx.receiverAlive)
    ensures Mirrors(input, sharedTx, Step(Kind(input.engine), input.id, v, b), q0, c0, stopped, shutDown)
  {
    if b == TapBranch {
      stopped, shutDown := TapStep(input, sharedTx, wasShutDown, v, q0, c0);
    } else {
      stopped, shutDown := ResultStep(input, sharedTx, wasShutDown, v, q0, c0);
    }
  }

  /** The null engine's feed counter; the stub has none. */
  function FeedCount(e: Engine): u64
    reads Obj(e)
  {
    if e.Null? then e.nullEngine.feedCount else 0
  }

  /**
   * The input task `start` spawns for one input, forwarding on `sharedTx`: the
   * channels and the engine end as `Run` says for the arms in `schedule`
   * from the queues they held at the start; arms after the loop has ended
   * are never taken.
   */
  method InputTask(input: PendingInput, sharedTx: Channel<RecognitionResult>, schedule: seq<Branch>)
    returns (stopped: bool, shutDown: bool)
    requires ResultSender(input.engine) == Some(input.engineResultRx) && input.engineResultRx.receiverAlive
    requires input.engineResultRx != sharedTx
    modifies input.tapRx, input.engineResultRx, Obj(input.engine), sharedTx
    ensures sharedTx.receiverAlive == old(sharedTx.receiverAlive)
    ensures Mirrors(input, sharedTx,
                    Run(Kind(input.engine), input.id, StartView(old(input.tapRx.queue), old(input.engineResultRx.queue)), schedule),
                    old(sharedTx.queue), old(FeedCount(input.engine)), stopped, shutDown)
  {
    ghost var k := Kind(input.engine);
    ghost var v0 := StartView(input.tapRx.queue, input.engineResultRx.queue);
    ghost var q0 := sharedTx.queue;
    ghost var c0 := FeedCount(input.engine);
    var i := 0;
    stopped, shutDown := false, false;
    while i < |schedule| && !stopped
      invariant 0 <= i <= |schedule|
      invariant ResultSender(input.engine) == Some(input.engineResultRx) && input.engineResultRx.receiverAlive
      invariant sharedTx.receiverAlive == old(sharedTx.receiverAlive)
      invariant Mirrors(input, sharedTx, Run(k, input.id, v0, schedule[..i]), q0, c0, stopped, shutDown)
    {
      stopped, shutDown := TaskStep(input, sharedTx, schedule[i], shutDown, Run(k, input.id, v0, schedule[..i]), q0, c0);
      assert schedule[..i + 1][..i] == schedule[..i];
      i := i + 1;
    }
    SkipAfterStop(k, input.id, v0, schedule, i);
  }

  /** Arms after the loop has stopped change nothing. */
  lemma SkipAfterStop(k: EngineKind, id: string, v0: TaskView, s: seq<Branch>, i: nat)
    requires i <= |s| && (i < |s| ==> Run(k, id, v0, s[..i]).stopped)
    ensures Run(k, id, v0, s) == Run(k, id, v0, s[..i])
  {
    if i < |s| {
      RunAppend(k, id, v0, s[..i], s[i..]);
      RunStopped(k, id, Run(k, id, v0, s[..i]), s[i..]);
      assert s[..i] + s[i..] == s;
    } else {
      assert s[..i] == s;
    }
  }

  class AsrHost {
    var inputs: seq<PendingInput>
    /** The shared result channel: its sending half is cloned into every task. */
    const resultTx: Channel<RecognitionResult>
    var resultRx: Option<Channel<RecognitionResult>>
    /** The inputs handed to spawned tasks, in spawn order. */
    var tasks: seq<PendingInput>

    /** `AsrHost::new`: no inputs, and a fresh result channel whose receiver it holds. */
    constructor ()
      ensures inputs == [] && tasks == [] && fresh(resultTx) && resultRx == Some(resultTx)
      ensures resultTx.queue == [] && resultTx.receiverAlive
    {
      inputs := [];
      tasks := [];
      resultTx := new Channel();
      resultRx := Some(resultTx);
    }

    /** `take_result_receiver`: the receiver the first time, `None` afterwards. */
    method TakeResultReceiver() returns (r: Option<Channel<RecognitionResult>>)
      modifies this
      ensures r == old(resultRx) && resultRx == None
      ensures inputs == old(inputs) && tasks == old(tasks)
    {
      r := resultRx;
      resultRx := None;
    }

    /**
     * `add_input`: creates the engine, gives it a new result channel, then
     * initializes it; only then is a tap made and the input queued. The
     * tap's sending half is returned.
     */
    method AddInput(id: string, engineName: string, config: TomlValue, registry: PluginRegistry)
      returns (r: Result<Channel<AudioChunk>, AsrError>)
      modifies this
      ensures resultRx == old(resultRx) && tasks == old(tasks)
      ensures engineName !in registry.factories ==> r == Err(EngineNotFound(engineName)) && inputs == old(inputs)
      ensures engineName in registry.factories && !InitAccepts(registry.factories[engineName], config) ==>
        r.Err? && r.error.AsrInitializationFailed? && inputs == old(inputs)
      ensures engineName in registry.factories && InitAccepts(registry.factories[engineName], config) ==>
        r.Ok? && fresh(r.value) && |inputs| == |old(inputs)| + 1 && inputs[..|old(inputs)|] == old(inputs) &&
        var added := inputs[|old(inputs)|];
        added.id == id && added.tapRx == r.value && r.value.queue == [] &&
        Kind(added.engine) == registry.factories[engineName] && fresh(Obj(added.engine)) &&
        fresh(added.engineResultRx) && added.engineResultRx.queue == [] && added.engineResultRx.receiverAlive &&
        ResultSender(added.engine) == Some(added.engineResultRx)
    {
      var created := registry.Create(engineName);
      if created.Err? {
        return Err(created.error);
      }
      var engine := created.value;
      var engineResults := new Channel<RecognitionResult>();
      SetResultSender(engine, engineResults);
      var init := Initialize(engine, config);
      if init.Err? {
        return Err(init.error);
      }
      var tap := new Channel<AudioChunk>();
      inputs := inputs + [PendingInput(id, engine, tap, engineResults)];
      r := Ok(tap);
    }

    /** `start`: every pending input becomes a task; none is left pending. */
    method Start()
      modifies this
      ensures inputs == [] && tasks == old(tasks) + old(inputs) && resultRx == old(resultRx)
    {
      tasks := tasks + inputs;
      inputs := [];
    }
  }
}
