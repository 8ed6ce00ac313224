/**
 * Text destinations behind one interface, and the registry that maps
 * plugin names to the factories creating them. The two built-in plugins
 * are the only factories: a registered name maps to one of them.
 */
module DestRegistry {
  import opened Base
  import opened CoreTypes
  import opened Toml
  import FileDest
  import DiscordDest

  /** A factory: which plugin a name creates. */
  datatype DestKind = FileKind | DiscordKind

  /** A boxed destination. */
  datatype Dest =
    | File(file: FileDest.FileDestination)
    | Discord(discord: DiscordDest.DiscordDestination)

  function Kind(d: Dest): DestKind
  {
    match d
    case File(_) => FileKind
    case Discord(_) => DiscordKind
  }

  /** The name every destination a factory creates reports. */
  function KindName(k: DestKind): (n: string)
    ensures n == if k == FileKind then FileDest.NAME else DiscordDest.NAME
  {
    match k
    case FileKind => FileDest.NAME
    case DiscordKind => DiscordDest.NAME
  }

  /** `name()`. */
  function Name(d: Dest): (n: string)
    ensures n == KindName(Kind(d))
  {
    match d
    case File(_) => FileDest.NAME
    case Discord(_) => DiscordDest.NAME
  }

  /** The object holding a destination's state. */
  function Obj(d: Dest): object
  {
    match d
    case File(f) => f
    case Discord(c) => c
  }

  function IsHealthy(d: Dest): bool
    reads Obj(d)
  {
    match d
    case File(f) => f.IsHealthy()
    case Discord(c) => c.IsHealthy()
  }

  /** Whether `initialize` of a destination of kind `k` accepts `config`. */
  function InitAccepts(k: DestKind, config: TomlValue): bool
  {
    match k
    case FileKind => GetStr(config, "path").Some?
    case DiscordKind => GetStr(config, "token").Some?
  }

  /** Calling a factory: a new, unconfigured and so unhealthy destination of kind `k`. */
  method Make(k: DestKind) returns (d: Dest)
    ensures Kind(d) == k && fresh(Obj(d)) && !IsHealthy(d)
    ensures d.File? ==> d.file.sendCount == 0 && d.file.appended == map[]
  {
    match k
    case FileKind =>
      var f := new FileDest.FileDestination();
      d := File(f);
    case DiscordKind =>
      var c := new DiscordDest.DiscordDestination();
      d := Discord(c);
  }

  /** `initialize` of either destination: succeeds exactly when its required key is a string. */
  method Initialize(d: Dest, config: TomlValue) returns (r: Result<Unit, DestinationError>)
    modifies Obj(d)
    ensures r.Ok? <==> InitAccepts(Kind(d), config)
    ensures r.Ok? ==> IsHealthy(d)
    ensures r.Err? ==> r.error.InitializationFailed?
    ensures r.Err? && d.File? ==> d.file.outputPath == old(d.file.outputPath)
    ensures r.Err? && d.Discord? ==>
      d.discord.token == old(d.discord.token) &&
      d.discord.guildId == old(d.discord.guildId) && d.discord.channelId == old(d.discord.channelId)
    ensures d.File? ==> d.file.sendCount == old(d.file.sendCount) && d.file.appended == old(d.file.appended)
  {
    match d
    case File(f) => r := f.Initialize(config);
    case Discord(c) => r := c.Initialize(config);
  }

  /**
   * `send_text` of either destination; `ioError` is the file system's
   * answer for a file destination and ignored by the stub.
   */
  method SendText(d: Dest, text: string, metadata: TextMetadata, ioError: Option<string>)
    returns (r: Result<Unit, DestinationError>)
    modifies Obj(d)
    ensures d.Discord? ==> r == Ok(Unit) && unchanged(d.discord)
    ensures d.File? ==> r == FileDest.SendOutcome(old(d.file.outputPath), ioError)
    ensures d.File? ==> d.file.outputPath == old(d.file.outputPath)
    ensures d.File? && r.Err? ==> d.file.sendCount == old(d.file.sendCount) && d.file.appended == old(d.file.appended)
    ensures d.File? && r.Ok? ==>
      d.file.sendCount == WrappingIncrement(old(d.file.sendCount)) &&
      d.file.appended == FileDest.AppendLine(old(d.file.appended), old(d.file.outputPath).value,
                                             FileDest.FormatLine(metadata.prefix, text))
  {
    match d
    case File(f) => r := f.SendText(text, metadata, ioError);
    case Discord(_) => r := DiscordDest.SendText(text, metadata);
  }

  /** The factories registered by `new`: "file", and "discord" when that feature is built. */
  function BuiltIn(discordFeature: bool): (m: map<string, DestKind>)
    ensures FileDest.NAME in m && m[FileDest.NAME] == FileKind
    ensures DiscordDest.NAME in m <==> discordFeature
    ensures discordFeature ==> m[DiscordDest.NAME] == DiscordKind
    ensures |m.Keys| == if discordFeature then 2 else 1
  {
    var m := map[FileDest.NAME := FileKind];
    if discordFeature then m[DiscordDest.NAME := DiscordKind] else m
  }

  class DestinationRegistry {
    var factories: map<string, DestKind>

    /** `DestinationRegistry::new`, built with or without the `discord` feature. */
    constructor (discordFeature: bool)
      ensures factories == BuiltIn(discordFeature)
    {
      factories := BuiltIn(discordFeature);
    }

    /** `register`: adds the name, replacing an earlier factory of that name. */
    method Register(name: string, k: DestKind)
      modifies this
      ensures factories == old(factories)[name := k]
    {
      factories := factories[name := k];
    }

    /** `create`: a new destination from the named factory, or `NotFound` carrying the name. */
    method Create(name: string) returns (r: Result<Dest, DestinationError>)
      ensures name !in factories ==> r == Err(NotFound(name))
      ensures name in factories ==>
        r.Ok? && Kind(r.value) == factories[name] && Name(r.value) == KindName(factories[name]) &&
        fresh(Obj(r.value)) && !IsHealthy(r.value)
    {
      if name !in factories {
        return Err(NotFound(name));
      }
      var d := Make(factories[name]);
      r := Ok(d);
    }

    /** `list_destinations`: every registered name once, in an unspecified order. */
    method ListDestinations() returns (names: seq<string>)
      ensures forall n :: n in names <==> n in factories
      ensures |names| == |factories.Keys|
      ensures forall i, j :: 0 <= i < j < |names| ==> names[i] != names[j]
    {
      names := [];
      var left := factories.Keys;
      while left != {}
        invariant left <= factories.Keys
        invariant forall n :: n in names <==> n in factories && n !in left
        invariant |names| + |left| == |factories.Keys|
        invariant forall i, j :: 0 <= i < j < |names| ==> names[i] != names[j]
        decreases |left|
      {
        var n :| n in left;
        names := names + [n];
        left := left - {n};
      }
    }
  }
}
