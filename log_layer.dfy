/**
 * The logging layer that feeds the dashboard's log tab: every tracing
 * event is formatted as one line and appended to a bounded buffer shared
 * with the dashboard, dropping the oldest line when the buffer is full.
 */
module LogLayer {
  import opened Base

  /** The severity of an event, written in capitals by the line format. */
  datatype Level = Trace | Debug | Info | Warn | Error

  function LevelName(l: Level): (name: string)
    ensures |name| >= 4 && ']' !in name
  {
    match l
    case Trace => "TRACE"
    case Debug => "DEBUG"
    case Info => "INFO"
    case Warn => "WARN"
    case Error => "ERROR"
  }

  /**
   * A recorded field value: a string recorded with `record_str`, or any
   * other value recorded with `record_debug`, carried as its `{:?}` text.
   */
  datatype FieldValue = StrValue(s: string) | DebugValue(rendered: string)

  datatype Field = Field(name: string, value: FieldValue)

  /** A tracing event: its metadata and its fields in recording order. */
  datatype Event = Event(level: Level, target: string, fields: seq<Field>)

  function FieldText(v: FieldValue): string
  {
    match v
    case StrValue(s) => s
    case DebugValue(r) => r
  }

  /**
   * The visitor's `message`: it starts empty and each field named
   * `message` overwrites it, so the last such field wins.
   */
  function MessageOf(fields: seq<Field>): string
  {
    if fields == [] then ""
    else if fields[|fields| - 1].name == "message" then FieldText(fields[|fields| - 1].value)
    else MessageOf(fields[..|fields| - 1])
  }

  /** No field named `message`: the message is empty. */
  lemma {:induction false} MessageAbsent(fields: seq<Field>)
    requires forall i :: 0 <= i < |fields| ==> fields[i].name != "message"
    ensures MessageOf(fields) == ""
  {
    if fields != [] {
      MessageAbsent(fields[..|fields| - 1]);
    }
  }

  /** Otherwise the message is the text of the last field named `message`; later fields do not matter. */
  lemma {:induction false} MessageIsLast(fields: seq<Field>, k: nat)
    requires k < |fields| && fields[k].name == "message"
    requires forall i :: k < i < |fields| ==> fields[i].name != "message"
    ensures MessageOf(fields) == FieldText(fields[k].value)
  {
    if k < |fields| - 1 {
      MessageIsLast(fields[..|fields| - 1], k);
    }
  }

  /** `format!("[{}] {}: {}", level, target, message)`. */
  function FormatLine(level: Level, target: string, message: string): (line: string)
    ensures |line| == |LevelName(level)| + |target| + |message| + 5
  {
    "[" + LevelName(level) + "] " + (target + ": " + message)
  }

  /**
   * The line written for a macro call such as `info!(target: t, "m")`,
   * whose only field is the `message` recorded through `record_debug`;
   * `info!(target: "voxmux", "hello")` gives "[INFO] voxmux: hello".
   */
  lemma FormatExample(level: Level, target: string, m: string)
    ensures FormatEvent(Event(level, target, [Field("message", DebugValue(m))])) ==
      "[" + LevelName(level) + "] " + target + ": " + m
    ensures FormatEvent(Event(Info, "voxmux", [Field("message", DebugValue("hello"))])) == "[INFO] voxmux: hello"
  {
    var fields := [Field("message", DebugValue(m))];
    assert MessageOf(fields) == m;
    var a, b := "[" + LevelName(level) + "] ", target + ": ";
    assert a + (b + m) == a + b + m;
    assert FormatEvent(Event(level, target, fields)) == a + (b + m);
  }

  function FormatEvent(e: Event): string
  {
    FormatLine(e.level, e.target, MessageOf(e.fields))
  }

  // ── Reading a line back ───────────────────────────────────────

  /** The index of the first `c` in `s`, if any. */
  function IndexOf(s: string, c: char): (r: Option<nat>)
    ensures r.Some? ==> r.value < |s| && s[r.value] == c && c !in s[..r.value]
    ensures r.None? ==> c !in s
  {
    if s == [] then None
    else if s[0] == c then Some(0)
    else match IndexOf(s[1..], c)
      case None => None
      case Some(j) => assert s[..j + 1] == [s[0]] + s[1..][..j]; Some(j + 1)
  }

  function LevelOfName(name: string): Option<Level>
  {
    if name == "TRACE" then Some(Trace)
    else if name == "DEBUG" then Some(Debug)
    else if name == "INFO" then Some(Info)
    else if name == "WARN" then Some(Warn)
    else if name == "ERROR" then Some(Error)
    else None
  }

  /** Reads `[LEVEL] ` off the front of a line, giving the level and what follows. */
  function SplitLevel(line: string): Option<(Level, string)>
  {
    if |line| == 0 || line[0] != '[' then None
    else match IndexOf(line[1..], ']')
      case None => None
      case Some(j) =>
        match LevelOfName(line[1..j + 1])
        case None => None
        case Some(l) =>
          if j + 2 < |line| && line[j + 2] == ' ' then Some((l, line[j + 3..])) else None
  }

  /** Reads `target: ` off the front of the rest of a line, up to the first colon. */
  function SplitTarget(rest: string): Option<(string, string)>
  {
    match IndexOf(rest, ':')
    case None => None
    case Some(t) =>
      if t + 1 < |rest| && rest[t + 1] == ' ' then Some((rest[..t], rest[t + 2..])) else None
  }

  /**
   * Splits a log line into level, target and message, for targets without
   * a colon (a tracing target is a module path, whose `::` separators
   * would make the split ambiguous).
   */
  function ParseLine(line: string): Option<(Level, string, string)>
  {
    match SplitLevel(line)
    case None => None
    case Some((l, rest)) =>
      match SplitTarget(rest)
      case None => None
      case Some((t, m)) => Some((l, t, m))
  }

  lemma LevelNameRoundTrip(l: Level)
    ensures LevelOfName(LevelName(l)) == Some(l)
  {
  }

  lemma SplitLevelOfFormat(level: Level, suffix: string)
    ensures SplitLevel("[" + LevelName(level) + "] " + suffix) == Some((level, suffix))
  {
    var name := LevelName(level);
    var line := "[" + name + "] " + suffix;
    var after := line[1..];
    assert after == name + "] " + suffix;
    assert after[|name|] == ']';
    IndexOfAt(after, ']', |name|);
    assert line[1..|name| + 1] == name;
    LevelNameRoundTrip(level);
    assert line[|name| + 2] == ' ';
    assert line[|name| + 3..] == suffix;
  }

  lemma SplitTargetOfFormat(target: string, message: string)
    requires ':' !in target
    ensures SplitTarget(target + ": " + message) == Some((target, message))
  {
    var rest := target + ": " + message;
    assert rest[..|target|] == target;
    IndexOfAt(rest, ':', |target|);
    assert rest[|target| + 2..] == message;
  }

  /** Level, target and message are recoverable from a formatted line. */
  lemma ParseFormatRoundTrip(level: Level, target: string, message: string)
    requires ':' !in target
    ensures ParseLine(FormatLine(level, target, message)) == Some((level, target, message))
  {
    SplitLevelOfFormat(level, target + ": " + message);
    SplitTargetOfFormat(target, message);
  }

  /** `IndexOf` finds position `k` when `c` first occurs there. */
  lemma {:induction false} IndexOfAt(s: string, c: char, k: nat)
    requires k < |s| && s[k] == c && c !in s[..k]
    ensures IndexOf(s, c) == Some(k)
  {
    if k > 0 {
      assert s[0] in s[..k];
      assert s[1..][..k - 1] == s[1..k];
      assert forall x :: x in s[1..k] ==> x in s[..k];
      IndexOfAt(s[1..], c, k - 1);
    }
  }

  // ── The buffer ────────────────────────────────────────────────

  /** The `VecDeque<String>` behind the mutex shared with the dashboard. */
  class LogBuffer {
    var lines: seq<string>

    constructor ()
      ensures lines == []
    {
      lines := [];
    }
  }

  /**
   * The buffer after one new line at the given capacity: `pop_front` when
   * the length has reached the capacity (which does nothing on an empty
   * buffer), then `push_back`.
   */
  function Retain(lines: seq<string>, capacity: nat, line: string): seq<string>
  {
    (if |lines| >= capacity && lines != [] then lines[1..] else lines) + [line]
  }

  /** The buffer after a series of new lines, oldest first. */
  function RetainAll(lines: seq<string>, capacity: nat, news: seq<string>): seq<string>
  {
    if news == [] then lines
    else Retain(RetainAll(lines, capacity, news[..|news| - 1]), capacity, news[|news| - 1])
  }

  /** The last `n` elements of `s` (all of them when `s` is shorter). */
  function LastN(s: seq<string>, n: nat): (r: seq<string>)
    ensures |r| == Min(n, |s|)
  {
    s[|s| - Min(n, |s|)..]
  }

  /** Below capacity nothing is dropped. */
  lemma RetainBelowCapacity(lines: seq<string>, capacity: nat, line: string)
    requires |lines| < capacity
    ensures Retain(lines, capacity, line) == lines + [line]
  {
  }

  /** At capacity the oldest line is dropped and the new one is last. */
  lemma RetainAtCapacity(lines: seq<string>, capacity: nat, line: string)
    requires |lines| >= capacity && lines != []
    ensures Retain(lines, capacity, line) == lines[1..] + [line]
    ensures |Retain(lines, capacity, line)| == |lines|
  {
  }

  /** With a capacity of at least one, a buffer within capacity stays within it. */
  lemma RetainWithinCapacity(lines: seq<string>, capacity: nat, line: string)
    requires 1 <= capacity && |lines| <= capacity
    ensures |Retain(lines, capacity, line)| <= capacity
    ensures |Retain(lines, capacity, line)| == Min(|lines| + 1, capacity)
  {
  }

  /**
   * From a buffer within a capacity of at least one, the buffer always
   * holds the most recent lines: the last `capacity` of everything seen.
   */
  lemma {:induction false} RetainAllKeepsNewest(lines: seq<string>, capacity: nat, news: seq<string>)
    requires 1 <= capacity && |lines| <= capacity
    ensures RetainAll(lines, capacity, news) == LastN(lines + news, capacity)
  {
    if news != [] {
      var init := news[..|news| - 1];
      var x := news[|news| - 1];
      RetainAllKeepsNewest(lines, capacity, init);
      var b := RetainAll(lines, capacity, init);
      var all := lines + init;
      assert b == LastN(all, capacity);
      assert lines + news == all + [x];
      if |b| >= capacity {
        assert |all| >= capacity;
        assert b[1..] == all[|all| - capacity + 1..];
        assert Retain(b, capacity, x) == (all + [x])[|all| + 1 - capacity..];
      } else {
        assert |all| < capacity && b == all;
        assert Retain(b, capacity, x) == all + [x];
        assert (all + [x])[0..] == all + [x];
      }
    }
  }

  /** Capacity zero behaves as capacity one: each event replaces the only line. */
  lemma ZeroCapacityKeepsLast(lines: seq<string>, line: string)
    requires |lines| <= 1
    ensures Retain(lines, 0, line) == [line]
  {
  }

  /** The layer, holding the shared buffer and its capacity (a `usize`). */
  class TuiLogLayer {
    const buffer: LogBuffer
    const capacity: u64

    constructor (buffer: LogBuffer, capacity: u64)
      ensures this.buffer == buffer && this.capacity == capacity
    {
      this.buffer := buffer;
      this.capacity := capacity;
    }

    /**
     * `on_event`: formats the event and stores it. When the mutex is
     * poisoned (`poisoned`) the lock fails and the event is lost.
     */
    method OnEvent(e: Event, poisoned: bool)
      modifies buffer
      ensures poisoned ==> buffer.lines == old(buffer.lines)
      ensures !poisoned ==> buffer.lines == Retain(old(buffer.lines), capacity, FormatEvent(e))
    {
      var formatted := FormatEvent(e);
      if poisoned {
        return;
      }
      if |buffer.lines| >= capacity && buffer.lines != [] {
        buffer.lines := buffer.lines[1..];
      }
      buffer.lines := buffer.lines + [formatted];
    }
  }
}
