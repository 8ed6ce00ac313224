/**
 * The two computations of the dashboard's drawing code that decide what
 * is shown: which tab title is highlighted, and which log lines fit the
 * log panel for the current scroll position. Rendering is not modelled.
 */
module TuiUi {
  import opened Base
  import opened TuiApp
  import LogLayer

  /** The tab bar's titles, in display order. */
  const TAB_TITLES: seq<string> := ["1:Dashboard", "2:Inputs", "3:Outputs", "4:Logs"]

  /** The position of a tab's title in the tab bar. */
  function TabIndex(t: Tab): (i: nat)
    ensures i < |TAB_TITLES|
  {
    match t
    case Dashboard => 0
    case Inputs => 1
    case Outputs => 2
    case Logs => 3
  }

  /** Different tabs highlight different titles, and every title belongs to a tab. */
  lemma TabIndexBijective(t: Tab, u: Tab, i: nat)
    ensures TabIndex(t) == TabIndex(u) ==> t == u
    ensures i < |TAB_TITLES| ==> exists w :: TabIndex(w) == i
  {
    if i < |TAB_TITLES| {
      var w := [Dashboard, Inputs, Outputs, Logs][i];
      assert TabIndex(w) == i;
    }
  }

  /** The digit a title starts with is the key that selects its tab. */
  lemma TitleDigitSelectsTab(v: AppView, t: Tab)
    requires SelectionValid(v)
    ensures KeyStep(v, Char(TAB_TITLES[TabIndex(t)][0])) == (v.(tab := t), NoAction)
  {
  }

  /** Rows of the log panel inside its two border rows. */
  function VisibleHeight(height: u16): nat
  {
    SaturatingSub(height, 2)
  }

  /**
   * The lines `[start, end)` of a log of `total` lines that the panel
   * shows: `scroll` lines back from the newest, limited so that the panel
   * never scrolls above a full page of the oldest lines.
   */
  function LogWindow(total: nat, height: u16, scroll: u64): (w: (nat, nat))
    ensures w.0 <= w.1 <= total
    ensures w.1 - w.0 == Min(total, VisibleHeight(height))
    ensures total - w.1 == Min(scroll, SaturatingSub(total, VisibleHeight(height)))
  {
    var visible := VisibleHeight(height);
    var s := Min(scroll, SaturatingSub(total, visible));
    var end := SaturatingSub(total, s);
    var start := SaturatingSub(end, visible);
    (start, end)
  }

  /** The lines the panel lists: `skip(start).take(end - start)`. */
  function VisibleLines(logs: seq<string>, height: u16, scroll: u64): seq<string>
  {
    var w := LogWindow(|logs|, height, scroll);
    logs[w.0..w.1]
  }

  /** Following the log (scroll 0) shows the newest lines that fit. */
  lemma FollowShowsNewest(logs: seq<string>, height: u16)
    ensures VisibleLines(logs, height, 0) == LogLayer.LastN(logs, VisibleHeight(height))
  {
  }

  /** Each step of scroll moves the window one line back until the oldest line is at the top. */
  lemma ScrollStepsBack(total: nat, height: u16, scroll: u64)
    requires scroll < USIZE_MAX
    ensures scroll < SaturatingSub(total, VisibleHeight(height)) ==>
      LogWindow(total, height, scroll + 1).1 == LogWindow(total, height, scroll).1 - 1
    ensures scroll >= SaturatingSub(total, VisibleHeight(height)) ==>
      LogWindow(total, height, scroll + 1) == LogWindow(total, height, scroll)
    ensures scroll >= SaturatingSub(total, VisibleHeight(height)) ==> LogWindow(total, height, scroll).0 == 0
  {
  }
}
