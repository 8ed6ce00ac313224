/**
 * The glue the router's entry point adds around its components: the size
 * of the output FIFO, the choice of inputs to wire up, the configuration
 * each destination route receives, the state snapshot sent to the
 * dashboard, and the handler that applies the dashboard's commands to the
 * mixer's input handles.
 */
module Router {
  import opened Base
  import opened Toml
  import opened Config
  import opened Mixer
  import opened TuiTypes

  /** Inputs and the output are opened with one channel. */
  const CHANNELS: u16 := 1

  /** `ring_capacity`: two seconds of samples, computed in `usize`. */
  function RingCapacity(sampleRate: u32, channels: u16): (n: nat)
    ensures n <= USIZE_MAX
    ensures channels >= 1 ==> n >= 2 * sampleRate
  {
    FramesBound(sampleRate, channels);
    sampleRate * channels * 2
  }

  /** A second of audio always fits in 48 bits, so doubling it cannot wrap in `usize`. */
  lemma FramesBound(sampleRate: u32, channels: u16)
    ensures sampleRate * channels < 0x1_0000_0000_0000
    ensures channels >= 1 ==> sampleRate * channels >= sampleRate
  {
    var c: nat := channels;
    MulMonotone(sampleRate, 0xFFFF_FFFF, c);
    MulMonotone(c, 0xFFFF, 0xFFFF_FFFF);
    if c >= 1 {
      MulMonotone(1, c, sampleRate);
    }
  }

  lemma MulMonotone(a: nat, b: nat, c: nat)
    requires a <= b
    ensures a * c <= b * c
  {
  }

  // ── Enabled inputs ────────────────────────────────────────────

  /** `config.input.iter().filter(|i| i.enabled)`. */
  function EnabledInputs(inputs: seq<InputConfig>): (r: seq<InputConfig>)
    ensures |r| <= |inputs|
    ensures forall c :: c in r <==> c in inputs && c.enabled
  {
    if inputs == [] then []
    else
      var rest := EnabledInputs(inputs[..|inputs| - 1]);
      var last := inputs[|inputs| - 1];
      assert inputs == inputs[..|inputs| - 1] + [last];
      if last.enabled then rest + [last] else rest
  }

  /** The filter keeps the configuration's order: it distributes over concatenation. */
  lemma {:induction false} EnabledInputsAppend(a: seq<InputConfig>, b: seq<InputConfig>)
    ensures EnabledInputs(a + b) == EnabledInputs(a) + EnabledInputs(b)
  {
    if b == [] {
      assert a + b == a;
    } else {
      var init := b[..|b| - 1];
      assert (a + b)[..|a + b| - 1] == a + init;
      assert (a + b)[|a + b| - 1] == b[|b| - 1];
      EnabledInputsAppend(a, init);
    }
  }

  /** When every input is enabled, all of them are wired up, in order. */
  lemma {:induction false} AllEnabledKept(inputs: seq<InputConfig>)
    requires forall i :: 0 <= i < |inputs| ==> inputs[i].enabled
    ensures EnabledInputs(inputs) == inputs
  {
    if inputs != [] {
      var init := inputs[..|inputs| - 1];
      var last := inputs[|inputs| - 1];
      AllEnabledKept(init);
      assert last.enabled;
      assert EnabledInputs(inputs) == EnabledInputs(init) + [last];
      assert init + [last] == inputs;
    }
  }

  // ── Destination route configuration ──────────────────────────

  /** The global `[destinations.<plugin>]` value, or an empty table when there is none. */
  function BaseRouteConfig(destinations: Option<TomlValue>, plugin: string): (b: TomlValue)
    ensures destinations.Some? && Get(destinations.value, plugin).Some? ==> b == Get(destinations.value, plugin).value
    ensures destinations.None? || Get(destinations.value, plugin).None? ==> b == EmptyTable
  {
    match destinations
    case Some(d) =>
      (match Get(d, plugin)
       case Some(v) => v
       case None => EmptyTable)
    case None => EmptyTable
  }

  /** The value a route's destination is initialised with. */
  function MergedRouteConfig(destinations: Option<TomlValue>, route: DestinationRouteConfig): TomlValue
  {
    var base := BaseRouteConfig(destinations, route.plugin);
    if base.TTable? && route.extra.TTable? then TTable(base.entries + route.extra.entries) else base
  }

  /** The merge: each extra key of the route is inserted over the global table. */
  method MergeRouteConfig(destinations: Option<TomlValue>, route: DestinationRouteConfig) returns (merged: TomlValue)
    ensures merged == MergedRouteConfig(destinations, route)
  {
    merged := BaseRouteConfig(destinations, route.plugin);
    if merged.TTable? && route.extra.TTable? {
      var entries := Overlay(merged.entries, route.extra.entries);
      merged := TTable(entries);
    }
  }

  /** `for (k, v) in extra { base.insert(k.clone(), v.clone()) }`. */
  method Overlay(base: map<string, TomlValue>, extra: map<string, TomlValue>) returns (r: map<string, TomlValue>)
    ensures r == base + extra
  {
    r := base;
    var pending := extra.Keys;
    ghost var done: set<string> := {};
    while pending != {}
      invariant pending <= extra.Keys && done == extra.Keys - pending
      invariant r == base + (map k | k in done :: extra[k])
      decreases |pending|
    {
      var k :| k in pending;
      r := r[k := extra[k]];
      pending := pending - {k};
      done := done + {k};
    }
    assert (map k | k in done :: extra[k]) == extra;
  }

  /**
   * When the global value and the route's extra are both tables, the extra
   * keys win, the remaining global keys are kept, and nothing else appears.
   */
  lemma MergeOverrides(destinations: Option<TomlValue>, route: DestinationRouteConfig, k: string)
    requires BaseRouteConfig(destinations, route.plugin).TTable? && route.extra.TTable?
    ensures var base := BaseRouteConfig(destinations, route.plugin).entries;
      var merged := MergedRouteConfig(destinations, route);
      merged.TTable? &&
      (k in merged.entries <==> k in base || k in route.extra.entries) &&
      (k in route.extra.entries ==> merged.entries[k] == route.extra.entries[k]) &&
      (k !in route.extra.entries && k in base ==> merged.entries[k] == base[k])
  {
  }

  /** Without a global table for the plugin, a table of extras is used on its own. */
  lemma MergeWithoutGlobal(destinations: Option<TomlValue>, route: DestinationRouteConfig)
    requires destinations.None? || Get(destinations.value, route.plugin).None?
    ensures route.extra.TTable? ==> MergedRouteConfig(destinations, route) == route.extra
    ensures !route.extra.TTable? ==> MergedRouteConfig(destinations, route) == EmptyTable
  {
    assert route.extra.TTable? ==> map[] + route.extra.entries == route.extra.entries;
  }

  /** If either side is not a table, no overlay happens: the global value is passed through. */
  lemma MergeNeedsTwoTables(destinations: Option<TomlValue>, route: DestinationRouteConfig)
    requires !BaseRouteConfig(destinations, route.plugin).TTable? || !route.extra.TTable?
    ensures MergedRouteConfig(destinations, route) == BaseRouteConfig(destinations, route.plugin)
  {
  }

  // ── Input handles as values ──────────────────────────────────

  /** What the dashboard can change about an input. */
  datatype Control = Control(volume: real, muted: bool)

  function Ids(handles: seq<InputHandle>): (ids: seq<string>)
    ensures |ids| == |handles|
    ensures forall i :: 0 <= i < |handles| ==> ids[i] == handles[i].Id()
  {
    seq(|handles|, i requires 0 <= i < |handles| => handles[i].Id())
  }

  function Footprint(handles: seq<InputHandle>): set<InputControls>
  {
    set i | 0 <= i < |handles| :: handles[i].controls
  }

  function Controls(handles: seq<InputHandle>): (cs: seq<Control>)
    reads Footprint(handles)
    ensures |cs| == |handles|
    ensures forall i :: 0 <= i < |handles| ==> cs[i] == Control(handles[i].Volume(), handles[i].IsMuted())
  {
    seq(|handles|, i requires 0 <= i < |handles| reads Footprint(handles) =>
      Control(handles[i].Volume(), handles[i].IsMuted()))
  }

  /** Each handle controls its own input, as the handles `add_input` returns do. */
  ghost predicate DistinctControls(handles: seq<InputHandle>)
  {
    forall i, j :: 0 <= i < j < |handles| ==> handles[i].controls != handles[j].controls
  }

  // ── Commands ──────────────────────────────────────────────────

  /** `iter().find(|h| h.id() == id)`: the first position with the id. */
  function FirstIndex(ids: seq<string>, id: string): (r: Option<nat>)
    ensures r.Some? ==> r.value < |ids| && ids[r.value] == id
    ensures r.Some? ==> forall j :: 0 <= j < r.value ==> ids[j] != id
    ensures r.None? <==> id !in ids
  {
    if ids == [] then None
    else if ids[0] == id then Some(0)
    else match FirstIndex(ids[1..], id)
      case None => None
      case Some(j) => Some(j + 1)
  }

  /** The first position holding the id is the one `FirstIndex` finds. */
  lemma FirstIndexIs(ids: seq<string>, id: string, j: nat)
    requires j < |ids| && ids[j] == id && id !in ids[..j]
    ensures FirstIndex(ids, id) == Some(j)
  {
    assert ids[j] in ids;
  }

  /** One command's effect on the inputs: only volume and mute are acted on. */
  function ApplyCommand(cs: seq<Control>, ids: seq<string>, cmd: UiCommand): (r: seq<Control>)
    requires |cs| == |ids|
    ensures |r| == |cs|
  {
    match cmd
    case SetVolume(id, v) =>
      (match FirstIndex(ids, id)
       case Some(j) => cs[j := cs[j].(volume := ClampVolume(v))]
       case None => cs)
    case SetMuted(id, m) =>
      (match FirstIndex(ids, id)
       case Some(j) => cs[j := cs[j].(muted := m)]
       case None => cs)
    case _ => cs
  }

  /** The commands received, applied in order until the first `Quit`. */
  function RunCommands(cs: seq<Control>, ids: seq<string>, cmds: seq<UiCommand>): (r: seq<Control>)
    requires |cs| == |ids|
    ensures |r| == |cs|
    decreases |cmds|
  {
    if cmds == [] || cmds[0].Quit? then cs
    else RunCommands(ApplyCommand(cs, ids, cmds[0]), ids, cmds[1..])
  }

  /** How many commands are taken from the channel: up to and including the first `Quit`. */
  function Consumed(cmds: seq<UiCommand>): (n: nat)
    ensures n <= |cmds|
  {
    if cmds == [] then 0 else if cmds[0].Quit? then 1 else 1 + Consumed(cmds[1..])
  }

  /**
   * The command handler task: receives the commands sent so far (`cmds`)
   * and applies volume and mute changes to the first handle with the
   * command's id, until it receives `Quit`.
   */
  method HandleCommands(handles: seq<InputHandle>, cmds: seq<UiCommand>) returns (consumed: nat)
    requires DistinctControls(handles)
    modifies Footprint(handles)
    ensures consumed == Consumed(cmds)
    ensures Controls(handles) == RunCommands(old(Controls(handles)), Ids(handles), cmds)
  {
    var ids := Ids(handles);
    ghost var goal := RunCommands(Controls(handles), ids, cmds);
    var i := 0;
    while i < |cmds|
      invariant 0 <= i <= |cmds|
      invariant RunCommands(Controls(handles), ids, cmds[i..]) == goal
      invariant i + Consumed(cmds[i..]) == Consumed(cmds)
      invariant forall j :: 0 <= j < i ==> !cmds[j].Quit?
    {
      var cmd := cmds[i];
      if cmd.Quit? {
        return i + 1;
      }
      ApplyOne(handles, ids, cmd);
      assert cmds[i..][1..] == cmds[i + 1..];
      i := i + 1;
    }
    consumed := i;
  }

  /** One command of the handler's loop, other than `Quit`. */
  method ApplyOne(handles: seq<InputHandle>, ids: seq<string>, cmd: UiCommand)
    requires DistinctControls(handles) && ids == Ids(handles)
    modifies Footprint(handles)
    ensures Controls(handles) == ApplyCommand(old(Controls(handles)), ids, cmd)
  {
    ghost var cs := Controls(handles);
    match cmd {
      case SetVolume(id, v) =>
        var found := FirstIndex(ids, id);
        if found.Some? {
          var j := found.value;
          handles[j].SetVolume(v);
          assert forall k :: 0 <= k < |handles| && k != j ==> handles[k].controls != handles[j].controls;
          assert Controls(handles) == cs[j := cs[j].(volume := ClampVolume(v))];
        }
      case SetMuted(id, m) =>
        var found := FirstIndex(ids, id);
        if found.Some? {
          var j := found.value;
          handles[j].SetMuted(m);
          assert forall k :: 0 <= k < |handles| && k != j ==> handles[k].controls != handles[j].controls;
          assert Controls(handles) == cs[j := cs[j].(muted := m)];
        }
      case SetEnabled(_, _) =>
      case SetPlayMixedInput(_) =>
      case Quit =>
    }
  }

  /**
   * `SetVolume` for a known id stores the clamped volume in the first
   * input with that id and changes nothing else; for an unknown id it
   * changes nothing.
   */
  lemma SetVolumeEffect(cs: seq<Control>, ids: seq<string>, id: string, v: real)
    requires |cs| == |ids|
    ensures id !in ids ==> ApplyCommand(cs, ids, SetVolume(id, v)) == cs
    ensures forall j :: 0 <= j < |ids| && ids[j] == id && id !in ids[..j] ==>
      ApplyCommand(cs, ids, SetVolume(id, v)) == cs[j := Control(ClampVolume(v), cs[j].muted)]
  {
    forall j | 0 <= j < |ids| && ids[j] == id && id !in ids[..j]
      ensures ApplyCommand(cs, ids, SetVolume(id, v)) == cs[j := Control(ClampVolume(v), cs[j].muted)]
    {
      FirstIndexIs(ids, id, j);
    }
  }

  /** `SetMuted` likewise, for the mute flag. */
  lemma SetMutedEffect(cs: seq<Control>, ids: seq<string>, id: string, m: bool)
    requires |cs| == |ids|
    ensures id !in ids ==> ApplyCommand(cs, ids, SetMuted(id, m)) == cs
    ensures forall j :: 0 <= j < |ids| && ids[j] == id && id !in ids[..j] ==>
      ApplyCommand(cs, ids, SetMuted(id, m)) == cs[j := Control(cs[j].volume, m)]
  {
    forall j | 0 <= j < |ids| && ids[j] == id && id !in ids[..j]
      ensures ApplyCommand(cs, ids, SetMuted(id, m)) == cs[j := Control(cs[j].volume, m)]
    {
      FirstIndexIs(ids, id, j);
    }
  }

  /** Enabling and the output's play flag are accepted and ignored. */
  lemma IgnoredCommands(cs: seq<Control>, ids: seq<string>, id: string, b: bool)
    requires |cs| == |ids|
    ensures ApplyCommand(cs, ids, SetEnabled(id, b)) == cs
    ensures ApplyCommand(cs, ids, SetPlayMixedInput(b)) == cs
  {
  }

  /** Nothing after a `Quit` is applied or even received. */
  lemma {:induction false} QuitStops(cs: seq<Control>, ids: seq<string>, before: seq<UiCommand>, after: seq<UiCommand>)
    requires |cs| == |ids|
    requires forall i :: 0 <= i < |before| ==> !before[i].Quit?
    ensures RunCommands(cs, ids, before + [Quit] + after) == RunCommands(cs, ids, before)
    ensures Consumed(before + [Quit] + after) == |before| + 1
    decreases |before|
  {
    if before != [] {
      assert (before + [Quit] + after)[1..] == before[1..] + [Quit] + after;
      QuitStops(ApplyCommand(cs, ids, before[0]), ids, before[1..], after);
    } else {
      assert before + [Quit] + after == [Quit] + after;
    }
  }

  /** Without a `Quit`, handling two batches is handling their concatenation. */
  lemma {:induction false} RunCommandsAppend(cs: seq<Control>, ids: seq<string>, a: seq<UiCommand>, b: seq<UiCommand>)
    requires |cs| == |ids|
    requires forall i :: 0 <= i < |a| ==> !a[i].Quit?
    ensures RunCommands(cs, ids, a + b) == RunCommands(RunCommands(cs, ids, a), ids, b)
    decreases |a|
  {
    if a != [] {
      assert (a + b)[1..] == a[1..] + b;
      RunCommandsAppend(ApplyCommand(cs, ids, a[0]), ids, a[1..], b);
    } else {
      assert a + b == b;
    }
  }

  // ── The dashboard snapshot ────────────────────────────────────

  /** What the snapshot keeps of an enabled input's configuration. */
  datatype InputSummary = InputSummary(id: string, deviceName: string, enabled: bool)

  function Summaries(inputs: seq<InputConfig>): (r: seq<InputSummary>)
    ensures |r| == |inputs|
    ensures forall i :: 0 <= i < |inputs| ==>
      r[i] == InputSummary(inputs[i].id, inputs[i].deviceName, inputs[i].enabled)
  {
    seq(|inputs|, i requires 0 <= i < |inputs| => InputSummary(inputs[i].id, inputs[i].deviceName, inputs[i].enabled))
  }

  function SummaryIds(configs: seq<InputSummary>): (ids: seq<string>)
    ensures |ids| == |configs|
    ensures forall i :: 0 <= i < |configs| ==> ids[i] == configs[i].id
  {
    seq(|configs|, i requires 0 <= i < |configs| => configs[i].id)
  }

  /**
   * The state the dashboard is sent, on values: one entry per pair of
   * input control and configuration (the shorter list decides), the
   * peak level not yet measured and the status left at its default.
   */
  function SnapshotOf(cs: seq<Control>, configs: seq<InputSummary>, output: OutputState): (s: RouterState)
    ensures |s.inputs| == Min(|cs|, |configs|)
    ensures forall i :: 0 <= i < |s.inputs| ==>
      s.inputs[i] == InputState(configs[i].id, configs[i].deviceName, configs[i].enabled,
                                cs[i].volume, cs[i].muted, 0.0, DefaultInputStatus())
    ensures s.output == output && s.latestRecognitions == [] && s.warnings == [] && s.isRunning
  {
    var n := Min(|cs|, |configs|);
    var inputs := seq(n, i requires 0 <= i < n =>
      InputState(configs[i].id, configs[i].deviceName, configs[i].enabled, cs[i].volume, cs[i].muted, 0.0, DefaultInputStatus()));
    RouterState(inputs, OutputState(output.deviceName, output.playMixedInput), [], [], true)
  }

  /** The broadcast task's snapshot, reading each handle's live volume and mute. */
  function Snapshot(handles: seq<InputHandle>, configs: seq<InputSummary>, outputDevice: string, playMixed: bool): (s: RouterState)
    reads Footprint(handles)
    ensures s == SnapshotOf(Controls(handles), configs, OutputState(outputDevice, playMixed))
  {
    var n := Min(|handles|, |configs|);
    var inputs := seq(n, i requires 0 <= i < n reads Footprint(handles) =>
      InputState(configs[i].id, configs[i].deviceName, configs[i].enabled,
                 handles[i].Volume(), handles[i].IsMuted(), 0.0, DefaultInputStatus()));
    RouterState(inputs, OutputState(outputDevice, playMixed), [], [], true)
  }

  /**
   * With handles created in configuration order, a volume command for an
   * input listed in the snapshot shows up, clamped, in the next snapshot
   * at that input's entry, and no other entry changes.
   */
  lemma VolumeCommandShown(cs: seq<Control>, configs: seq<InputSummary>, output: OutputState,
                           k: nat, v: real)
    requires |cs| == |configs| && k < |configs|
    requires configs[k].id !in SummaryIds(configs)[..k]
    ensures var before := SnapshotOf(cs, configs, output);
      var after := SnapshotOf(ApplyCommand(cs, SummaryIds(configs), SetVolume(configs[k].id, v)), configs, output);
      after.inputs[k] == before.inputs[k].(volume := ClampVolume(v)) &&
      forall j :: 0 <= j < |after.inputs| && j != k ==> after.inputs[j] == before.inputs[j]
  {
    SetVolumeEffect(cs, SummaryIds(configs), configs[k].id, v);
  }
}
