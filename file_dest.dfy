/**
 * The "file" text destination: appends one line per delivered text to the
 * file named by its configuration and counts successful sends. The file
 * system is abstracted as the text this destination appended to each path;
 * an I/O failure of opening or writing is an input of `SendText`.
 */
module FileDest {
  import opened Base
  import opened CoreTypes
  import opened Toml

  const NAME: string := "file"

  /** `files` with `line` appended to the file at `path` (created empty when missing). */
  function AppendLine(files: map<string, string>, path: string, line: string): (r: map<string, string>)
    ensures r.Keys == files.Keys + {path}
    ensures r[path] == (if path in files then files[path] else "") + line
    ensures forall p :: p in files && p != path ==> r[p] == files[p]
  {
    files[path := (if path in files then files[path] else "") + line]
  }

  /** Two successive appends to one path leave both lines in order. */
  lemma AppendLineTwice(files: map<string, string>, path: string, a: string, b: string)
    ensures AppendLine(AppendLine(files, path, a), path, b) == AppendLine(files, path, a + b)
  {
    var x := if path in files then files[path] else "";
    assert (x + a) + b == x + (a + b);
  }

  /** The line `writeln!` writes for one text. */
  function FormatLine(prefix: string, text: string): (line: string)
    ensures |line| == |prefix| + |text| + 1 && line[|line| - 1] == '\n'
    ensures line[..|prefix|] == prefix && line[|prefix|..|line| - 1] == text
  {
    prefix + text + "\n"
  }

  /** The part of a file destination's state that sends read and change. */
  datatype FileState = FileState(outputPath: Option<string>, sendCount: u64, appended: map<string, string>)

  /** The result of one `send_text` by a destination configured with `path`. */
  function SendOutcome(path: Option<string>, ioError: Option<string>): (r: Result<Unit, DestinationError>)
    ensures r.Ok? <==> path.Some? && ioError.None?
    ensures path.None? ==> r == Err(SendFailed("not initialized"))
    ensures path.Some? && ioError.Some? ==> r == Err(SendFailed(ioError.value))
  {
    if path.None? then Err(SendFailed("not initialized"))
    else if ioError.Some? then Err(SendFailed(ioError.value))
    else Ok(Unit)
  }

  class FileDestination {
    var outputPath: Option<string>
    var sendCount: u64
    /** What this destination appended to each file, by path. */
    var appended: map<string, string>

    /** `FileDestination::new`: no path yet, nothing sent. */
    constructor ()
      ensures outputPath == None && sendCount == 0 && appended == map[]
      ensures !IsHealthy()
    {
      outputPath := None;
      sendCount := 0;
      appended := map[];
    }

    function State(): FileState
      reads this
    {
      FileState(outputPath, sendCount, appended)
    }

    /** Healthy exactly when a path is configured. */
    function IsHealthy(): (b: bool)
      reads this
      ensures b <==> outputPath.Some?
    {
      outputPath.Some?
    }

    /** `shutdown`: there is nothing to release, so it always succeeds. */
    method Shutdown() returns (r: Result<Unit, DestinationError>)
      ensures r == Ok(Unit)
    {
      r := Ok(Unit);
    }

    /** `initialize`: takes the string `path` of the table, or fails leaving the path as it was. */
    method Initialize(config: TomlValue) returns (r: Result<Unit, DestinationError>)
      modifies this
      ensures GetStr(config, "path").None? ==>
        r == Err(InitializationFailed("missing 'path' in config")) && outputPath == old(outputPath)
      ensures GetStr(config, "path").Some? ==>
        r == Ok(Unit) && outputPath == GetStr(config, "path") && IsHealthy()
      ensures sendCount == old(sendCount) && appended == old(appended)
    {
      var path := GetStr(config, "path");
      if path.None? {
        return Err(InitializationFailed("missing 'path' in config"));
      }
      outputPath := path;
      r := Ok(Unit);
    }

    /**
     * `send_text`: before `initialize` it fails without touching anything;
     * `ioError` is the error of opening or writing the file, if any. A
     * successful send appends `prefix ++ text ++ "\n"` and counts one send.
     */
    method SendText(text: string, metadata: TextMetadata, ioError: Option<string>)
      returns (r: Result<Unit, DestinationError>)
      modifies this
      ensures outputPath == old(outputPath)
      ensures old(outputPath).None? ==>
        r == Err(SendFailed("not initialized")) && sendCount == old(sendCount) && appended == old(appended)
      ensures old(outputPath).Some? && ioError.Some? ==>
        r == Err(SendFailed(ioError.value)) && sendCount == old(sendCount) && appended == old(appended)
      ensures old(outputPath).Some? && ioError.None? ==>
        r == Ok(Unit) && sendCount == WrappingIncrement(old(sendCount)) &&
        appended == AppendLine(old(appended), old(outputPath).value, FormatLine(metadata.prefix, text))
    {
      if outputPath.None? {
        return Err(SendFailed("not initialized"));
      }
      if ioError.Some? {
        return Err(SendFailed(ioError.value));
      }
      appended := AppendLine(appended, outputPath.value, FormatLine(metadata.prefix, text));
      sendCount := WrappingIncrement(sendCount);
      r := Ok(Unit);
    }
  }
}
