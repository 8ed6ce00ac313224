/**
 * The "null" recogniser: accepts any configuration, counts the chunks fed
 * to it and answers each one with a final result naming its sample count.
 */
module NullEngine {
  import opened Base
  import opened CoreTypes
  import opened Toml
  import opened Channels

  const NAME: string := "null"

  /** The text of the result for a chunk of `n` samples: `[null] {n} samples`. */
  function ResultText(n: nat): (t: string)
    ensures |t| >= 16 && t[..7] == "[null] " && t[|t| - 8..] == " samples"
    ensures forall i :: 7 <= i < |t| - 8 ==> '0' <= t[i] <= '9'
    ensures DecimalValue(t[7..|t| - 8]) == n
  {
    var digits := NatToString(n);
    var t := "[null] " + digits + " samples";
    assert t[7..|t| - 8] == digits;
    NatToStringRoundTrip(n);
    t
  }

  /** The result emitted for one chunk: final, with no input id and timestamp 0. */
  function ResultFor(chunk: AudioChunk): (r: RecognitionResult)
    ensures r.isFinal && r.inputId == "" && r.timestamp == 0.0
    ensures r.text == ResultText(|chunk.samples|)
  {
    RecognitionResult(ResultText(|chunk.samples|), "", 0.0, true)
  }

  class NullEngine {
    var feedCount: u64
    var resultSender: Option<Channel<RecognitionResult>>

    /** `NullEngine::new`: nothing fed, no sender. */
    constructor ()
      ensures feedCount == 0 && resultSender == None
    {
      feedCount := 0;
      resultSender := None;
    }

    /** `initialize` ignores its configuration and succeeds. */
    method Initialize(config: TomlValue) returns (r: Result<Unit, AsrError>)
      ensures r == Ok(Unit)
    {
      r := Ok(Unit);
    }

    method SetResultSender(sender: Channel<RecognitionResult>)
      modifies this
      ensures resultSender == Some(sender) && feedCount == old(feedCount)
    {
      resultSender := Some(sender);
    }

    /**
     * `feed_audio`: counts the chunk and, when a sender is set, sends
     * `ResultFor(chunk)` on it (ignoring a dropped receiver). When the
     * sender's mutex is poisoned (`poisoned`) nothing is sent, but the chunk
     * is still counted. Always succeeds.
     */
    method FeedAudio(chunk: AudioChunk, poisoned: bool) returns (r: Result<Unit, AsrError>)
      modifies this, if resultSender.Some? then {resultSender.value} else {}
      ensures r == Ok(Unit)
      ensures feedCount == WrappingIncrement(old(feedCount)) && resultSender == old(resultSender)
      ensures resultSender.Some? ==> resultSender.value.receiverAlive == old(resultSender.value.receiverAlive)
      ensures resultSender.Some? && old(resultSender.value.receiverAlive) && !poisoned ==>
        resultSender.value.queue == old(resultSender.value.queue) + [ResultFor(chunk)]
      ensures resultSender.Some? && !(old(resultSender.value.receiverAlive) && !poisoned) ==>
        resultSender.value.queue == old(resultSender.value.queue)
    {
      feedCount := WrappingIncrement(feedCount);
      if !poisoned && resultSender.Some? {
        var _ := resultSender.value.Send(ResultFor(chunk));
      }
      r := Ok(Unit);
    }

    method Shutdown() returns (r: Result<Unit, AsrError>)
      ensures r == Ok(Unit)
    {
      r := Ok(Unit);
    }
  }
}
