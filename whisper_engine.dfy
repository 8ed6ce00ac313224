/**
 * The "whisper" recogniser, a stub: it validates and keeps its
 * configuration, stores its result sender, and emits nothing.
 */
module WhisperEngine {
  import opened Base
  import opened CoreTypes
  import opened Toml
  import opened Channels

  const NAME: string := "whisper"

  class WhisperEngine {
    var modelPath: Option<string>
    var language: Option<string>
    var resultSender: Option<Channel<RecognitionResult>>

    /** `WhisperEngine::new`: nothing configured. */
    constructor ()
      ensures modelPath == None && language == None && resultSender == None
    {
      modelPath, language, resultSender := None, None, None;
    }

    /**
     * `initialize`: a string `model_path` is required; `language` is kept
     * when it is a string and cleared otherwise. Without a model path
     * nothing changes.
     */
    method Initialize(config: TomlValue) returns (r: Result<Unit, AsrError>)
      modifies this
      ensures resultSender == old(resultSender)
      ensures GetStr(config, "model_path").None? ==>
        r == Err(AsrInitializationFailed("missing 'model_path' in whisper config")) &&
        modelPath == old(modelPath) && language == old(language)
      ensures GetStr(config, "model_path").Some? ==>
        r == Ok(Unit) && modelPath == GetStr(config, "model_path") && language == GetStr(config, "language")
    {
      var path := GetStr(config, "model_path");
      if path.None? {
        return Err(AsrInitializationFailed("missing 'model_path' in whisper config"));
      }
      modelPath := path;
      language := GetStr(config, "language");
      r := Ok(Unit);
    }

    method SetResultSender(sender: Channel<RecognitionResult>)
      modifies this
      ensures resultSender == Some(sender)
      ensures modelPath == old(modelPath) && language == old(language)
    {
      resultSender := Some(sender);
    }

    /** `feed_audio`: no inference; always succeeds and sends nothing. */
    method FeedAudio(chunk: AudioChunk) returns (r: Result<Unit, AsrError>)
      ensures r == Ok(Unit)
    {
      r := Ok(Unit);
    }

    method Shutdown() returns (r: Result<Unit, AsrError>)
      ensures r == Ok(Unit)
    {
      r := Ok(Unit);
    }
  }
}
