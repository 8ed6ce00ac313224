/**
 * The "discord" text destination, a stub: it validates and keeps its
 * configuration, and accepts every text without sending anything.
 */
module DiscordDest {
  import opened Base
  import opened CoreTypes
  import opened Toml

  const NAME: string := "discord"

  /** An optional id: an integer entry, reinterpreted as `u64`; any other entry or none gives `None`. */
  function IdEntry(config: TomlValue, key: string): (r: Option<u64>)
    ensures r.Some? <==> GetInt(config, key).Some?
    ensures r.Some? ==> r.value == I64AsU64(GetInt(config, key).value)
  {
    match GetInt(config, key)
    case Some(v) => Some(I64AsU64(v))
    case None => None
  }

  /** The stub send: every text is accepted. */
  function SendText(text: string, metadata: TextMetadata): (r: Result<Unit, DestinationError>)
    ensures r.Ok?
  {
    Ok(Unit)
  }

  class DiscordDestination {
    var token: Option<string>
    var guildId: Option<u64>
    var channelId: Option<u64>

    /** `DiscordDestination::new`: nothing configured. */
    constructor ()
      ensures token == None && guildId == None && channelId == None
      ensures !IsHealthy()
    {
      token, guildId, channelId := None, None, None;
    }

    /** Healthy exactly when a token is configured. */
    function IsHealthy(): (b: bool)
      reads this
      ensures b <==> token.Some?
    {
      token.Some?
    }

    /** `shutdown`: there is nothing to release, so it always succeeds. */
    method Shutdown() returns (r: Result<Unit, DestinationError>)
      ensures r == Ok(Unit)
    {
      r := Ok(Unit);
    }

    /**
     * `initialize`: a string `token` is required; `guild_id` and
     * `channel_id` are taken when they are integers. Without a token
     * nothing changes.
     */
    method Initialize(config: TomlValue) returns (r: Result<Unit, DestinationError>)
      modifies this
      ensures GetStr(config, "token").None? ==>
        r == Err(InitializationFailed("missing 'token' in config")) &&
        token == old(token) && guildId == old(guildId) && channelId == old(channelId)
      ensures GetStr(config, "token").Some? ==>
        r == Ok(Unit) && token == GetStr(config, "token") && IsHealthy() &&
        guildId == IdEntry(config, "guild_id") && channelId == IdEntry(config, "channel_id")
    {
      var t := GetStr(config, "token");
      if t.None? {
        return Err(InitializationFailed("missing 'token' in config"));
      }
      token := t;
      guildId := IdEntry(config, "guild_id");
      channelId := IdEntry(config, "channel_id");
      r := Ok(Unit);
    }
  }
}
