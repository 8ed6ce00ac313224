/**
 * The comparison run when the configuration file is reloaded: which
 * changes can be applied to the running router (volume, mute, playing the
 * mix) and which are only reported because they need a restart.
 */
module ConfigDiff {
  import opened Base
  import opened Config

  /** `f32::EPSILON`, 2^-23. */
  const EPSILON: real := 1.0 / 8388608.0

  datatype ConfigDiff = ConfigDiff(
    volumeChanges: seq<(string, real)>,
    muteChanges: seq<(string, bool)>,
    playMixedChange: Option<bool>,
    nonReloadable: seq<string>)

  const EmptyDiff := ConfigDiff([], [], None, [])

  function Abs(x: real): real { if x < 0.0 then -x else x }

  /** Two volumes count as different when they are more than `EPSILON` apart. */
  predicate VolumeDiffers(a: real, b: real)
  {
    Abs(a - b) > EPSILON
  }

  /** `inputs.iter().find(|i| i.id == id)`. */
  function FindInput(inputs: seq<InputConfig>, id: string): Option<InputConfig>
  {
    if inputs == [] then None
    else if inputs[0].id == id then Some(inputs[0])
    else FindInput(inputs[1..], id)
  }

  /** The lookup finds the first input with that id, and nothing only when no input has it. */
  lemma {:induction false} FindInputSpec(inputs: seq<InputConfig>, id: string)
    ensures FindInput(inputs, id).None? <==> forall k :: 0 <= k < |inputs| ==> inputs[k].id != id
    ensures FindInput(inputs, id).Some? ==>
      exists k :: 0 <= k < |inputs| && inputs[k] == FindInput(inputs, id).value && inputs[k].id == id &&
        (forall j :: 0 <= j < k ==> inputs[j].id != id)
  {
    if inputs != [] && inputs[0].id != id {
      FindInputSpec(inputs[1..], id);
      assert forall k :: 1 <= k < |inputs| ==> inputs[k] == inputs[1..][k - 1];
      if FindInput(inputs, id).Some? {
        var k :| 0 <= k < |inputs[1..]| && inputs[1..][k] == FindInput(inputs, id).value && inputs[1..][k].id == id &&
          (forall j :: 0 <= j < k ==> inputs[1..][j].id != id);
        assert inputs[k + 1] == inputs[1..][k];
      }
    } else if inputs != [] {
      assert inputs[0] == FindInput(inputs, id).value;
    }
  }

  predicate UniqueIds(inputs: seq<InputConfig>)
  {
    forall i, j :: 0 <= i < j < |inputs| ==> inputs[i].id != inputs[j].id
  }

  /** With distinct ids, looking up an input's own id finds that input. */
  lemma FindOwnInput(inputs: seq<InputConfig>, k: nat)
    requires UniqueIds(inputs) && k < |inputs|
    ensures FindInput(inputs, inputs[k].id) == Some(inputs[k])
  {
    var r := FindInput(inputs, inputs[k].id);
    FindInputSpec(inputs, inputs[k].id);
    var k' :| 0 <= k' < |inputs| && inputs[k'] == r.value && inputs[k'].id == inputs[k].id &&
      forall j :: 0 <= j < k' ==> inputs[j].id != inputs[k].id;
    assert k' == k;
  }

  function Arrow(): string { " → " }

  function SampleRateMessage(o: u32, n: u32): string
  {
    "sample_rate changed (" + NatToString(o) + Arrow() + NatToString(n) + "), requires restart"
  }

  function BufferSizeMessage(o: u32, n: u32): string
  {
    "buffer_size changed (" + NatToString(o) + Arrow() + NatToString(n) + "), requires restart"
  }

  function OutputDeviceMessage(o: string, n: string): string
  {
    "output device changed ('" + o + "'" + Arrow() + "'" + n + "'), requires restart"
  }

  function InputDeviceMessage(id: string, o: string, n: string): string
  {
    "input '" + id + "' device changed ('" + o + "'" + Arrow() + "'" + n + "'), requires restart"
  }

  function AsrEngineMessage(o: string, n: string): string
  {
    "ASR engine changed ('" + o + "'" + Arrow() + "'" + n + "'), requires restart"
  }

  /** The restart warnings for the general settings and the output device, in that order. */
  function GeneralWarnings(old_: AppConfig, new_: AppConfig): seq<string>
  {
    (if old_.general.sampleRate != new_.general.sampleRate
     then [SampleRateMessage(old_.general.sampleRate, new_.general.sampleRate)] else []) +
    (if old_.general.bufferSize != new_.general.bufferSize
     then [BufferSizeMessage(old_.general.bufferSize, new_.general.bufferSize)] else []) +
    (if old_.output.deviceName != new_.output.deviceName
     then [OutputDeviceMessage(old_.output.deviceName, new_.output.deviceName)] else [])
  }

  /**
   * Each general warning is reported exactly when its setting differs,
   * and there are none when the three settings agree.
   */
  lemma GeneralWarningsReported(old_: AppConfig, new_: AppConfig)
    ensures var w := GeneralWarnings(old_, new_);
      |w| <= 3 &&
      (SampleRateMessage(old_.general.sampleRate, new_.general.sampleRate) in w <==>
        old_.general.sampleRate != new_.general.sampleRate) &&
      (BufferSizeMessage(old_.general.bufferSize, new_.general.bufferSize) in w <==>
        old_.general.bufferSize != new_.general.bufferSize) &&
      (OutputDeviceMessage(old_.output.deviceName, new_.output.deviceName) in w <==>
        old_.output.deviceName != new_.output.deviceName)
    ensures GeneralWarnings(old_, new_) == [] <==>
      old_.general == new_.general.(logLevel := old_.general.logLevel) && old_.output.deviceName == new_.output.deviceName
  {
    var sr := SampleRateMessage(old_.general.sampleRate, new_.general.sampleRate);
    var bs := BufferSizeMessage(old_.general.bufferSize, new_.general.bufferSize);
    var od := OutputDeviceMessage(old_.output.deviceName, new_.output.deviceName);
    assert sr[0] == 's' && bs[0] == 'b' && od[0] == 'o';
    var w := GeneralWarnings(old_, new_);
    assert forall x :: x in w ==> x == sr || x == bs || x == od;
  }

  /** The ASR warning: only when both configurations name an engine and the names differ. */
  function AsrWarnings(old_: AppConfig, new_: AppConfig): (w: seq<string>)
    ensures |w| <= 1
    ensures w != [] <==> old_.asr.Some? && new_.asr.Some? && old_.asr.value.engine != new_.asr.value.engine
  {
    match (old_.asr, new_.asr)
    case (Some(o), Some(n)) =>
      if o.engine != n.engine then [AsrEngineMessage(o.engine, n.engine)] else []
    case _ => []
  }

  /** What the comparison of one input adds to each list. */
  datatype InputDelta = InputDelta(volume: seq<(string, real)>, mute: seq<(string, bool)>, warnings: seq<string>)

  const NoDelta := InputDelta([], [], [])

  function Join(a: InputDelta, b: InputDelta): InputDelta
  {
    InputDelta(a.volume + b.volume, a.mute + b.mute, a.warnings + b.warnings)
  }

  /**
   * One input of the new configuration against the input of the old one
   * with the same id: nothing when there is none, otherwise an entry for
   * each of volume, mute and device that differs.
   */
  function InputDeltaOf(olds: seq<InputConfig>, n: InputConfig): InputDelta
  {
    match FindInput(olds, n.id)
    case None => NoDelta
    case Some(o) =>
      InputDelta(
        if VolumeDiffers(o.volume, n.volume) then [(n.id, n.volume)] else [],
        if o.muted != n.muted then [(n.id, n.muted)] else [],
        if o.deviceName != n.deviceName then [InputDeviceMessage(n.id, o.deviceName, n.deviceName)] else [])
  }

  /**
   * An input adds at most one entry to each list: a volume entry exactly
   * when its old counterpart's volume is more than `EPSILON` away, a mute
   * entry exactly when the mute flags differ, a warning exactly when the
   * device names differ, and nothing when the old configuration lacks its id.
   */
  lemma InputDeltaOfSpec(olds: seq<InputConfig>, n: InputConfig)
    ensures var d := InputDeltaOf(olds, n);
      var o := FindInput(olds, n.id);
      (o.None? ==> d == NoDelta) &&
      (d.volume != [] <==> o.Some? && VolumeDiffers(o.value.volume, n.volume)) &&
      (d.volume != [] ==> d.volume == [(n.id, n.volume)]) &&
      (d.mute != [] <==> o.Some? && o.value.muted != n.muted) &&
      (d.mute != [] ==> d.mute == [(n.id, n.muted)]) &&
      (d.warnings != [] <==> o.Some? && o.value.deviceName != n.deviceName) &&
      |d.warnings| <= 1
  {
  }

  lemma JoinAssoc(x: InputDelta, y: InputDelta, z: InputDelta)
    ensures Join(Join(x, y), z) == Join(x, Join(y, z))
  {
    assert (x.volume + y.volume) + z.volume == x.volume + (y.volume + z.volume);
    assert (x.mute + y.mute) + z.mute == x.mute + (y.mute + z.mute);
    assert (x.warnings + y.warnings) + z.warnings == x.warnings + (y.warnings + z.warnings);
  }

  /** The entries of all new inputs, in the order of the new configuration. */
  function InputsDelta(olds: seq<InputConfig>, news: seq<InputConfig>): InputDelta
    decreases |news|
  {
    if news == [] then NoDelta
    else Join(InputsDelta(olds, news[..|news| - 1]), InputDeltaOf(olds, news[|news| - 1]))
  }

  /** The checks of `diff` that come before the inputs: general settings, output device, playing the mix. */
  method DiffGeneral(old_: AppConfig, new_: AppConfig) returns (d: ConfigDiff)
    ensures d.volumeChanges == [] && d.muteChanges == []
    ensures d.playMixedChange.Some? <==> old_.output.playMixedInput != new_.output.playMixedInput
    ensures d.playMixedChange.Some? ==> d.playMixedChange.value == new_.output.playMixedInput
    ensures d.nonReloadable == GeneralWarnings(old_, new_)
  {
    d := EmptyDiff;
    if old_.general.sampleRate != new_.general.sampleRate {
      d := d.(nonReloadable := d.nonReloadable + [SampleRateMessage(old_.general.sampleRate, new_.general.sampleRate)]);
    }
    if old_.general.bufferSize != new_.general.bufferSize {
      d := d.(nonReloadable := d.nonReloadable + [BufferSizeMessage(old_.general.bufferSize, new_.general.bufferSize)]);
    }
    if old_.output.deviceName != new_.output.deviceName {
      d := d.(nonReloadable := d.nonReloadable + [OutputDeviceMessage(old_.output.deviceName, new_.output.deviceName)]);
    }
    if old_.output.playMixedInput != new_.output.playMixedInput {
      d := d.(playMixedChange := Some(new_.output.playMixedInput));
    }
  }

  /** The body of the loop over the new inputs: the pushes for input `n`. */
  method DiffInput(d: ConfigDiff, olds: seq<InputConfig>, n: InputConfig) returns (d': ConfigDiff)
    ensures d'.volumeChanges == d.volumeChanges + InputDeltaOf(olds, n).volume
    ensures d'.muteChanges == d.muteChanges + InputDeltaOf(olds, n).mute
    ensures d'.nonReloadable == d.nonReloadable + InputDeltaOf(olds, n).warnings
    ensures d'.playMixedChange == d.playMixedChange
  {
    d' := d;
    var found := FindInput(olds, n.id);
    if found.Some? {
      var o := found.value;
      if VolumeDiffers(o.volume, n.volume) {
        d' := d'.(volumeChanges := d'.volumeChanges + [(n.id, n.volume)]);
      }
      if o.muted != n.muted {
        d' := d'.(muteChanges := d'.muteChanges + [(n.id, n.muted)]);
      }
      if o.deviceName != n.deviceName {
        d' := d'.(nonReloadable := d'.nonReloadable + [InputDeviceMessage(n.id, o.deviceName, n.deviceName)]);
      }
    }
  }

  lemma InputsDeltaStep(olds: seq<InputConfig>, news: seq<InputConfig>, i: nat)
    requires i < |news|
    ensures InputsDelta(olds, news[..i + 1]) == Join(InputsDelta(olds, news[..i]), InputDeltaOf(olds, news[i]))
  {
    assert news[..i + 1][..i] == news[..i];
  }

  /**
   * `ConfigDiff::diff`: the general checks, then each input of the new
   * configuration that the old one also has, then the ASR engine.
   */
  method Diff(old_: AppConfig, new_: AppConfig) returns (d: ConfigDiff)
    ensures d.playMixedChange.Some? <==> old_.output.playMixedInput != new_.output.playMixedInput
    ensures d.playMixedChange.Some? ==> d.playMixedChange.value == new_.output.playMixedInput
    ensures d.volumeChanges == InputsDelta(old_.input, new_.input).volume
    ensures d.muteChanges == InputsDelta(old_.input, new_.input).mute
    ensures d.nonReloadable ==
      GeneralWarnings(old_, new_) + InputsDelta(old_.input, new_.input).warnings + AsrWarnings(old_, new_)
  {
    d := DiffGeneral(old_, new_);
    ghost var general := d.nonReloadable;
    ghost var mixed := d.playMixedChange;
    for i := 0 to |new_.input|
      invariant d.volumeChanges == InputsDelta(old_.input, new_.input[..i]).volume
      invariant d.muteChanges == InputsDelta(old_.input, new_.input[..i]).mute
      invariant d.nonReloadable == general + InputsDelta(old_.input, new_.input[..i]).warnings
      invariant d.playMixedChange == mixed
    {
      InputsDeltaStep(old_.input, new_.input, i);
      d := DiffInput(d, old_.input, new_.input[i]);
    }
    assert new_.input[..|new_.input|] == new_.input;
    d := DiffAsr(d, old_, new_);
  }

  /** The last check of `diff`: the ASR engine. */
  method DiffAsr(d: ConfigDiff, old_: AppConfig, new_: AppConfig) returns (d': ConfigDiff)
    ensures d' == d.(nonReloadable := d.nonReloadable + AsrWarnings(old_, new_))
  {
    d' := d;
    match (old_.asr, new_.asr)
    case (Some(o), Some(n)) =>
      if o.engine != n.engine {
        d' := d'.(nonReloadable := d'.nonReloadable + [AsrEngineMessage(o.engine, n.engine)]);
      }
    case _ =>
  }

  /** Comparing the inputs one after another: the entries follow the order of the new inputs. */
  lemma {:induction false} InputsDeltaAppend(olds: seq<InputConfig>, a: seq<InputConfig>, b: seq<InputConfig>)
    decreases |b|
    ensures InputsDelta(olds, a + b) == Join(InputsDelta(olds, a), InputsDelta(olds, b))
  {
    if b == [] {
      assert a + b == a;
    } else {
      var b' := b[..|b| - 1];
      var x := b[|b| - 1];
      assert (a + b)[..|a + b| - 1] == a + b';
      assert (a + b)[|a + b| - 1] == x;
      InputsDeltaAppend(olds, a, b');
      JoinAssoc(InputsDelta(olds, a), InputsDelta(olds, b'), InputDeltaOf(olds, x));
    }
  }

  /**
   * When every new input but the one at `k` adds nothing, the lists are
   * exactly what that one input adds.
   */
  lemma {:induction false} InputsDeltaSingle(olds: seq<InputConfig>, news: seq<InputConfig>, k: int)
    decreases |news|
    requires forall j :: 0 <= j < |news| && j != k ==> InputDeltaOf(olds, news[j]) == NoDelta
    ensures 0 <= k < |news| ==> InputsDelta(olds, news) == InputDeltaOf(olds, news[k])
    ensures !(0 <= k < |news|) ==> InputsDelta(olds, news) == NoDelta
  {
    if news != [] {
      var init := news[..|news| - 1];
      assert forall j :: 0 <= j < |init| ==> init[j] == news[j];
      InputsDeltaSingle(olds, init, k);
      var last := InputDeltaOf(olds, news[|news| - 1]);
      if k == |news| - 1 {
        assert InputsDelta(olds, init) == NoDelta;
        assert Join(NoDelta, last) == last;
      } else {
        assert last == NoDelta;
        assert Join(InputsDelta(olds, init), NoDelta) == InputsDelta(olds, init);
      }
    }
  }

  /** A new input with volume `v` under `id` is reported when the old input with that id is more than `EPSILON` away. */
  ghost predicate VolumeReported(olds: seq<InputConfig>, id: string, v: real)
  {
    FindInput(olds, id).Some? && VolumeDiffers(FindInput(olds, id).value.volume, v)
  }

  ghost predicate MuteReported(olds: seq<InputConfig>, id: string, m: bool)
  {
    FindInput(olds, id).Some? && FindInput(olds, id).value.muted != m
  }

  /**
   * Which volume changes are reported: `(id, v)` appears exactly when some
   * new input has that id and volume `v` and its old counterpart is more
   * than `EPSILON` away.
   */
  lemma {:induction false} VolumeChangeMembers(olds: seq<InputConfig>, news: seq<InputConfig>, id: string, v: real)
    decreases |news|
    ensures (id, v) in InputsDelta(olds, news).volume <==>
      (exists k :: 0 <= k < |news| && news[k].id == id && news[k].volume == v) && VolumeReported(olds, id, v)
  {
    if news != [] {
      var init := news[..|news| - 1];
      var n := news[|news| - 1];
      VolumeChangeMembers(olds, init, id, v);
      InputDeltaOfSpec(olds, n);
      var whole := InputsDelta(olds, news).volume;
      var front := InputsDelta(olds, init).volume;
      var last := InputDeltaOf(olds, n).volume;
      assert whole == front + last;
      assert (id, v) in last <==> n.id == id && n.volume == v && VolumeReported(olds, id, v);
      if (id, v) in front {
        var k :| 0 <= k < |init| && init[k].id == id && init[k].volume == v;
        assert news[k] == init[k];
      }
      if exists k :: 0 <= k < |news| && news[k].id == id && news[k].volume == v {
        var k :| 0 <= k < |news| && news[k].id == id && news[k].volume == v;
        if k < |init| {
          assert init[k] == news[k];
        }
      }
    }
  }

  /** Which mute changes are reported: `(id, m)` appears exactly when some new input has that id and flag `m` and its old counterpart's flag differs. */
  lemma {:induction false} MuteChangeMembers(olds: seq<InputConfig>, news: seq<InputConfig>, id: string, m: bool)
    decreases |news|
    ensures (id, m) in InputsDelta(olds, news).mute <==>
      (exists k :: 0 <= k < |news| && news[k].id == id && news[k].muted == m) && MuteReported(olds, id, m)
  {
    if news != [] {
      var init := news[..|news| - 1];
      var n := news[|news| - 1];
      MuteChangeMembers(olds, init, id, m);
      InputDeltaOfSpec(olds, n);
      var whole := InputsDelta(olds, news).mute;
      var front := InputsDelta(olds, init).mute;
      var last := InputDeltaOf(olds, n).mute;
      assert whole == front + last;
      assert (id, m) in last <==> n.id == id && n.muted == m && MuteReported(olds, id, m);
      if (id, m) in front {
        var k :| 0 <= k < |init| && init[k].id == id && init[k].muted == m;
        assert news[k] == init[k];
      }
      if exists k :: 0 <= k < |news| && news[k].id == id && news[k].muted == m {
        var k :| 0 <= k < |news| && news[k].id == id && news[k].muted == m;
        if k < |init| {
          assert init[k] == news[k];
        }
      }
    }
  }

  /** A new input whose id the old configuration lacks adds nothing, whatever its settings. */
  lemma NewInputIgnored(olds: seq<InputConfig>, n: InputConfig)
    requires forall k :: 0 <= k < |olds| ==> olds[k].id != n.id
    ensures InputDeltaOf(olds, n) == NoDelta
  {
    FindInputSpec(olds, n.id);
  }

  /** Comparing a configuration whose input ids are distinct with itself reports nothing. */
  lemma DiffOfIdenticalIsEmpty(c: AppConfig)
    requires UniqueIds(c.input)
    ensures InputsDelta(c.input, c.input) == NoDelta
    ensures GeneralWarnings(c, c) == [] && AsrWarnings(c, c) == []
  {
    forall j | 0 <= j < |c.input|
      ensures InputDeltaOf(c.input, c.input[j]) == NoDelta
    {
      FindOwnInput(c.input, j);
    }
    InputsDeltaSingle(c.input, c.input, -1);
  }

  /**
   * Changing only the device of input `k` reports a single restart warning
   * for it and nothing reloadable.
   */
  lemma InputDeviceChangeOnlyWarns(c: AppConfig, k: nat, device: string)
    requires UniqueIds(c.input) && k < |c.input|
    requires device != c.input[k].deviceName
    ensures var news := c.input[k := c.input[k].(deviceName := device)];
      InputsDelta(c.input, news) ==
        InputDelta([], [], [InputDeviceMessage(c.input[k].id, c.input[k].deviceName, device)])
  {
    var news := c.input[k := c.input[k].(deviceName := device)];
    forall j | 0 <= j < |news| && j != k
      ensures InputDeltaOf(c.input, news[j]) == NoDelta
    {
      FindOwnInput(c.input, j);
    }
    FindOwnInput(c.input, k);
    InputsDeltaSingle(c.input, news, k);
  }
}
