/**
 * The dashboard's application state and its key handling: global keys
 * quit or switch tab, and each tab interprets the remaining keys, either
 * moving the dashboard's own cursor and scroll state or producing a
 * command for the router. The router state itself is only replaced by
 * `UpdateState`; no key changes it.
 */
module TuiApp {
  import opened Base
  import opened TuiTypes
  import LogLayer

  datatype Tab = Dashboard | Inputs | Outputs | Logs

  /** What a key asks of the event loop. */
  datatype AppAction = NoAction | QuitAction | Command(command: UiCommand)

  /** The key codes the handler distinguishes; modifiers are never inspected. */
  datatype KeyCode = Char(c: char) | Up | Down | Left | Right | OtherKey

  /** The volume change of one arrow press. */
  const VOLUME_STEP: real := 0.05

  /** The fields of `App` that key handling reads and writes. */
  datatype AppView = AppView(
    tab: Tab,
    state: RouterState,
    selectedInput: nat,
    shouldQuit: bool,
    logScroll: u64,
    logAutoScroll: bool)

  /** `App::new`: the dashboard tab, nothing selected yet, log following on. */
  function InitialView(): (v: AppView)
    ensures v.tab == Dashboard && v.state == DefaultRouterState()
    ensures v.selectedInput == 0 && !v.shouldQuit
    ensures v.logScroll == 0 && v.logAutoScroll
  {
    AppView(Dashboard, DefaultRouterState(), 0, false, 0, true)
  }

  /** The selection points at an input whenever there is one. */
  predicate SelectionValid(v: AppView)
  {
    v.state.inputs != [] ==> v.selectedInput < |v.state.inputs|
  }

  /** `update_state`: the new state, with the selection pulled back onto the last input if it fell off. */
  function UpdatedView(v: AppView, s: RouterState): AppView
  {
    if s.inputs != [] && v.selectedInput >= |s.inputs| then v.(state := s, selectedInput := |s.inputs| - 1)
    else v.(state := s)
  }

  /** The tab a digit key selects. */
  function DigitTab(c: char): Option<Tab>
  {
    if c == '1' then Some(Dashboard)
    else if c == '2' then Some(Inputs)
    else if c == '3' then Some(Outputs)
    else if c == '4' then Some(Logs)
    else None
  }

  /** `handle_key`: global keys first, then the current tab's handler. */
  function KeyStep(v: AppView, key: KeyCode): (AppView, AppAction)
    requires SelectionValid(v)
  {
    if key == Char('q') then (v.(shouldQuit := true), QuitAction)
    else if key.Char? && DigitTab(key.c).Some? then (v.(tab := DigitTab(key.c).value), NoAction)
    else match v.tab
      case Inputs => InputsKey(v, key)
      case Outputs => (v, OutputsKey(v, key))
      case Logs => LogsKey(v, key)
      case Dashboard => (v, NoAction)
  }

  /** `handle_inputs_key`: arrows move the selection or step its volume; `m` and `e` toggle. */
  function InputsKey(v: AppView, key: KeyCode): (AppView, AppAction)
    requires SelectionValid(v)
  {
    if v.state.inputs == [] then (v, NoAction)
    else
      var input := v.state.inputs[v.selectedInput];
      match key
      case Up => (if v.selectedInput > 0 then v.(selectedInput := v.selectedInput - 1) else v, NoAction)
      case Down =>
        (if v.selectedInput + 1 < |v.state.inputs| then v.(selectedInput := v.selectedInput + 1) else v, NoAction)
      case Right => (v, Command(SetVolume(input.id, MinReal(input.volume + VOLUME_STEP, 1.0))))
      case Left => (v, Command(SetVolume(input.id, MaxReal(input.volume - VOLUME_STEP, 0.0))))
      case Char(c) =>
        if c == 'm' then (v, Command(SetMuted(input.id, !input.muted)))
        else if c == 'e' then (v, Command(SetEnabled(input.id, !input.enabled)))
        else (v, NoAction)
      case OtherKey => (v, NoAction)
  }

  /** `handle_outputs_key`: space asks to flip whether the mix is played. */
  function OutputsKey(v: AppView, key: KeyCode): AppAction
  {
    if key == Char(' ') then Command(SetPlayMixedInput(!v.state.output.playMixedInput)) else NoAction
  }

  /** `handle_logs_key`: Up scrolls back and stops following, Down scrolls forward, `G` follows again. */
  function LogsKey(v: AppView, key: KeyCode): (AppView, AppAction)
  {
    match key
    case Up =>
      (v.(logScroll := if v.logScroll < USIZE_MAX then v.logScroll + 1 else v.logScroll, logAutoScroll := false), NoAction)
    case Down => (v.(logScroll := SaturatingSub(v.logScroll, 1)), NoAction)
    case Char(c) => if c == 'G' then (v.(logScroll := 0, logAutoScroll := true), NoAction) else (v, NoAction)
    case _ => (v, NoAction)
  }

  class App {
    var tab: Tab
    var state: RouterState
    var selectedInput: nat
    var shouldQuit: bool
    /** The log lines shared with the logging layer; key handling never touches them. */
    const logs: LogLayer.LogBuffer
    var logScroll: u64
    var logAutoScroll: bool

    function View(): AppView
      reads this
    {
      AppView(tab, state, selectedInput, shouldQuit, logScroll, logAutoScroll)
    }

    ghost predicate Valid()
      reads this
    {
      SelectionValid(View())
    }

    constructor (logs: LogLayer.LogBuffer)
      ensures View() == InitialView() && this.logs == logs
      ensures Valid()
    {
      tab := Dashboard;
      state := DefaultRouterState();
      selectedInput := 0;
      shouldQuit := false;
      this.logs := logs;
      logScroll := 0;
      logAutoScroll := true;
    }

    method UpdateState(newState: RouterState)
      modifies this
      ensures View() == UpdatedView(old(View()), newState)
      ensures Valid()
    {
      state := newState;
      if |state.inputs| != 0 && selectedInput >= |state.inputs| {
        selectedInput := |state.inputs| - 1;
      }
    }

    method HandleKey(key: KeyCode) returns (action: AppAction)
      requires Valid()
      modifies this
      ensures (View(), action) == KeyStep(old(View()), key)
      ensures Valid()
    {
      if key == Char('q') {
        shouldQuit := true;
        return QuitAction;
      }
      if key.Char? && DigitTab(key.c).Some? {
        tab := DigitTab(key.c).value;
        return NoAction;
      }
      match tab {
        case Inputs => action := HandleInputsKey(key);
        case Outputs => action := HandleOutputsKey(key);
        case Logs => action := HandleLogsKey(key);
        case Dashboard => action := NoAction;
      }
    }

    method HandleInputsKey(key: KeyCode) returns (action: AppAction)
      requires Valid()
      modifies this
      ensures (View(), action) == InputsKey(old(View()), key)
      ensures Valid()
    {
      if |state.inputs| == 0 {
        return NoAction;
      }
      var input := state.inputs[selectedInput];
      match key {
        case Up =>
          if selectedInput > 0 {
            selectedInput := selectedInput - 1;
          }
          action := NoAction;
        case Down =>
          if selectedInput + 1 < |state.inputs| {
            selectedInput := selectedInput + 1;
          }
          action := NoAction;
        case Right =>
          action := Command(SetVolume(input.id, MinReal(input.volume + VOLUME_STEP, 1.0)));
        case Left =>
          action := Command(SetVolume(input.id, MaxReal(input.volume - VOLUME_STEP, 0.0)));
        case Char(c) =>
          if c == 'm' {
            action := Command(SetMuted(input.id, !input.muted));
          } else if c == 'e' {
            action := Command(SetEnabled(input.id, !input.enabled));
          } else {
            action := NoAction;
          }
        case OtherKey => action := NoAction;
      }
    }

    /** Takes `&mut self` in the source but changes nothing. */
    method HandleOutputsKey(key: KeyCode) returns (action: AppAction)
      ensures action == OutputsKey(View(), key)
    {
      if key == Char(' ') {
        action := Command(SetPlayMixedInput(!state.output.playMixedInput));
      } else {
        action := NoAction;
      }
    }

    method HandleLogsKey(key: KeyCode) returns (action: AppAction)
      modifies this
      ensures (View(), action) == LogsKey(old(View()), key)
    {
      match key {
        case Up =>
          if logScroll < USIZE_MAX {
            logScroll := logScroll + 1;
          }
          logAutoScroll := false;
        case Down =>
          logScroll := SaturatingSub(logScroll, 1);
        case Char(c) =>
          if c == 'G' {
            logScroll := 0;
            logAutoScroll := true;
          }
        case _ =>
      }
      action := NoAction;
    }
  }

  // ── Properties of key handling ────────────────────────────────

  /** `update_state` always leaves a valid selection, and keeps it when it is still in range. */
  lemma UpdateKeepsSelection(v: AppView, s: RouterState)
    ensures SelectionValid(UpdatedView(v, s))
    ensures UpdatedView(v, s).state == s
    ensures v.selectedInput < |s.inputs| || s.inputs == [] ==> UpdatedView(v, s).selectedInput == v.selectedInput
    ensures v.selectedInput >= |s.inputs| > 0 ==> UpdatedView(v, s).selectedInput == |s.inputs| - 1
  {
  }

  /** Every key keeps the selection valid and leaves the router state and the quit flag's meaning alone. */
  lemma KeyStepInvariants(v: AppView, key: KeyCode)
    requires SelectionValid(v)
    ensures SelectionValid(KeyStep(v, key).0)
    ensures KeyStep(v, key).0.state == v.state
    ensures KeyStep(v, key).0.shouldQuit == (v.shouldQuit || key == Char('q'))
    ensures KeyStep(v, key).1 == QuitAction <==> key == Char('q')
  {
  }

  /** `q` quits from every tab and changes nothing else. */
  lemma QuitFromAnyTab(v: AppView)
    requires SelectionValid(v)
    ensures KeyStep(v, Char('q')) == (v.(shouldQuit := true), QuitAction)
  {
  }

  /** The digits select the tabs in order and change nothing else. */
  lemma DigitsSelectTabs(v: AppView)
    requires SelectionValid(v)
    ensures KeyStep(v, Char('1')) == (v.(tab := Dashboard), NoAction)
    ensures KeyStep(v, Char('2')) == (v.(tab := Inputs), NoAction)
    ensures KeyStep(v, Char('3')) == (v.(tab := Outputs), NoAction)
    ensures KeyStep(v, Char('4')) == (v.(tab := Logs), NoAction)
  {
  }

  /** A key that is not global. */
  predicate IsTabKey(key: KeyCode)
  {
    key != Char('q') && !(key.Char? && DigitTab(key.c).Some?)
  }

  /** The dashboard tab ignores every other key. */
  lemma DashboardInert(v: AppView, key: KeyCode)
    requires SelectionValid(v) && v.tab == Dashboard && IsTabKey(key)
    ensures KeyStep(v, key) == (v, NoAction)
  {
  }

  /** With no inputs the inputs tab ignores every other key. */
  lemma EmptyInputsInert(v: AppView, key: KeyCode)
    requires v.tab == Inputs && v.state.inputs == [] && IsTabKey(key)
    ensures KeyStep(v, key) == (v, NoAction)
  {
  }

  /** Up and Down move the selection by one, stopping at the first and last input. */
  lemma SelectionMoves(v: AppView)
    requires SelectionValid(v) && v.tab == Inputs && v.state.inputs != []
    ensures KeyStep(v, Up) == (v.(selectedInput := Max(v.selectedInput - 1, 0)), NoAction)
    ensures KeyStep(v, Down) == (v.(selectedInput := Min(v.selectedInput + 1, |v.state.inputs| - 1)), NoAction)
  {
  }

  /**
   * Right and Left ask for the selected input's volume one step up or
   * down, never past 1.0 or below 0.0; away from the bounds the step is exact.
   */
  lemma VolumeSteps(v: AppView)
    requires SelectionValid(v) && v.tab == Inputs && v.state.inputs != []
    ensures var input := v.state.inputs[v.selectedInput];
      var up := KeyStep(v, Right);
      up.0 == v && up.1.Command? && up.1.command.SetVolume? &&
      up.1.command.inputId == input.id &&
      up.1.command.volume <= 1.0 &&
      (input.volume <= 1.0 - VOLUME_STEP ==> up.1.command.volume == input.volume + VOLUME_STEP) &&
      (input.volume >= 1.0 - VOLUME_STEP ==> up.1.command.volume == 1.0)
    ensures var input := v.state.inputs[v.selectedInput];
      var down := KeyStep(v, Left);
      down.0 == v && down.1.Command? && down.1.command.SetVolume? &&
      down.1.command.inputId == input.id &&
      down.1.command.volume >= 0.0 &&
      (input.volume >= VOLUME_STEP ==> down.1.command.volume == input.volume - VOLUME_STEP) &&
      (input.volume <= VOLUME_STEP ==> down.1.command.volume == 0.0)
  {
  }

  /** From a volume within [0, 1], a step up and a step down in either order return to it unless a bound was hit. */
  lemma VolumeStepsUndo(x: real)
    requires VOLUME_STEP <= x <= 1.0 - VOLUME_STEP
    ensures MaxReal(MinReal(x + VOLUME_STEP, 1.0) - VOLUME_STEP, 0.0) == x
    ensures MinReal(MaxReal(x - VOLUME_STEP, 0.0) + VOLUME_STEP, 1.0) == x
  {
  }

  /** `m`, `e` and space ask for the negation of the shown flag and change nothing. */
  lemma TogglesNegate(v: AppView)
    requires SelectionValid(v)
    ensures v.tab == Inputs && v.state.inputs != [] ==>
      var input := v.state.inputs[v.selectedInput];
      KeyStep(v, Char('m')) == (v, Command(SetMuted(input.id, !input.muted))) &&
      KeyStep(v, Char('e')) == (v, Command(SetEnabled(input.id, !input.enabled)))
    ensures v.tab == Outputs ==>
      KeyStep(v, Char(' ')) == (v, Command(SetPlayMixedInput(!v.state.output.playMixedInput)))
  {
  }

  /** The log tab's keys: scroll back and stop following, scroll forward to the newest, follow again. */
  lemma LogKeys(v: AppView)
    requires SelectionValid(v) && v.tab == Logs
    ensures KeyStep(v, Up).0 == v.(logScroll := Min(v.logScroll + 1, USIZE_MAX), logAutoScroll := false)
    ensures KeyStep(v, Down).0 == v.(logScroll := Max(v.logScroll - 1, 0))
    ensures KeyStep(v, Char('G')).0 == v.(logScroll := 0, logAutoScroll := true)
    ensures KeyStep(v, Up).1 == NoAction && KeyStep(v, Down).1 == NoAction && KeyStep(v, Char('G')).1 == NoAction
  {
  }

  /** Below the saturation point, Up then Down restores the scroll position. */
  lemma ScrollUpDown(v: AppView)
    requires SelectionValid(v) && v.tab == Logs && v.logScroll < USIZE_MAX
    ensures KeyStep(KeyStep(v, Up).0, Down).0 == v.(logAutoScroll := false)
  {
  }
}
