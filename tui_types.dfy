/**
 * The state the router broadcasts to the terminal dashboard and the
 * commands the dashboard sends back. All of these are plain values; a
 * Rust `clone` of one of them is the value itself.
 */
module TuiTypes {
  import opened CoreTypes

  /** `InputStatus::default()`. */
  function DefaultInputStatus(): (s: InputStatus)
    ensures s == StatusOk
    ensures s != StatusError && s != StatusDisabled
  {
    StatusOk
  }

  /** One capture input as the dashboard shows it; volumes and levels are `f32`. */
  datatype InputState = InputState(
    id: string,
    deviceName: string,
    enabled: bool,
    volume: real,
    muted: bool,
    peakLevel: real,
    status: InputStatus)

  /** The derived `Default`: empty strings, `false`, zero levels and status `Ok`. */
  function DefaultInputState(): (s: InputState)
    ensures s.id == [] && s.deviceName == []
    ensures !s.enabled && !s.muted
    ensures s.volume == 0.0 && s.peakLevel == 0.0
    ensures s.status == DefaultInputStatus()
  {
    InputState([], [], false, 0.0, false, 0.0, DefaultInputStatus())
  }

  datatype OutputState = OutputState(deviceName: string, playMixedInput: bool)

  /** The hand-written `Default`: the system's default device, playing the mix. */
  function DefaultOutputState(): (s: OutputState)
    ensures s.deviceName == "default"
    ensures s.playMixedInput
  {
    OutputState("default", true)
  }

  /** The aggregate published on the watch channel. */
  datatype RouterState = RouterState(
    inputs: seq<InputState>,
    output: OutputState,
    latestRecognitions: seq<string>,
    warnings: seq<string>,
    isRunning: bool)

  /** The derived `Default`: nothing listed, the default output, not running. */
  function DefaultRouterState(): (s: RouterState)
    ensures s.inputs == [] && s.latestRecognitions == [] && s.warnings == []
    ensures s.output == DefaultOutputState()
    ensures !s.isRunning
  {
    RouterState([], DefaultOutputState(), [], [], false)
  }

  /** Commands from the dashboard to the router. */
  datatype UiCommand =
    | SetVolume(inputId: string, volume: real)
    | SetMuted(inputId: string, muted: bool)
    | SetEnabled(inputId: string, enabled: bool)
    | SetPlayMixedInput(play: bool)
    | Quit
}
