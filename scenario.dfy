/// A client of the session manager that runs one restart cycle end to end,
/// using nothing but the manager's contracts.
module Scenario {
  import opened Bridging
  import opened Streaming

  /** Ten seconds of audio in 100 chunks under a 10000 ms limit, a final
      result ending at 9.5 s, a restart, one more chunk and a final result at
      0.7 s of the new stream: the new stream receives the last 5 chunks of the
      old buffer followed by the live chunk, the bridging offset becomes
      500 ms, and the two results land at 9500 ms and 10200 ms on the
      corrected timeline, in order. */
  method TenSecondRestart(chunks: seq<Chunk>, live: Chunk)
    returns (sent: seq<Chunk>, offset: int, firstTime: int, secondTime: int)
    requires |chunks| == 100
    ensures sent == chunks[95..] + [live]
    ensures offset == 500
    ensures firstTime == 9500 && secondTime == 10200 && firstTime <= secondTime
  {
    ResultTimes();
    var manager := FirstStream(chunks);
    firstTime := manager.OnResult(9, 500000000, true, ["first"]);
    sent := RestartAndBridge(manager, chunks, live);
    offset := manager.bridgingOffset;
    secondTime := manager.OnResult(0, 700000000, true, ["second"]);
  }

  /** The two result times of the scenario: 9.5 s in stream 0 with offset 0,
      and 0.7 s in stream 1 with offset 500 ms. */
  lemma ResultTimes()
    ensures ResultEndMillis(9, 500000000) == 9500 && ResultEndMillis(0, 700000000) == 700
    ensures CorrectedTime(9500, 0, 10000, 0) == 9500 && CorrectedTime(700, 500, 10000, 1) == 10200
  {
  }

  /** Opens the first stream of a manager under a 10000 ms limit and feeds
      it the chunks. */
  method FirstStream(chunks: seq<Chunk>) returns (manager: SessionManager)
    requires |chunks| == 100
    ensures fresh(manager) && fresh(manager.recognizeStream)
    ensures manager.Valid() && manager.streamingLimit == 10000
    ensures manager.audioInput == chunks
    ensures manager.bridgingOffset == 0 && manager.restartCounter == 0
  {
    manager := new SessionManager(10000);
    manager.Start();
    FillFirstStream(manager, chunks);
  }

  /** Feeds the chunks of the first stream, one at a time, before any result
      or restart. */
  method FillFirstStream(manager: SessionManager, chunks: seq<Chunk>)
    requires manager.Valid() && manager.recognizeStream != null
    requires manager.audioInput == [] && manager.lastAudioInput == [] && manager.newStream
    modifies manager, manager.recognizeStream
    ensures manager.Valid() && manager.recognizeStream == old(manager.recognizeStream)
    ensures manager.audioInput == chunks && manager.lastAudioInput == [] && manager.newStream
    ensures manager.bridgingOffset == old(manager.bridgingOffset)
    ensures manager.restartCounter == old(manager.restartCounter)
    ensures manager.resultEndTime == old(manager.resultEndTime)
    ensures manager.finalRequestEndTime == old(manager.finalRequestEndTime)
  {
    var i := 0;
    while i < |chunks|
      invariant 0 <= i <= |chunks|
      invariant manager.Valid() && manager.recognizeStream == old(manager.recognizeStream)
      invariant manager.audioInput == chunks[..i] && manager.lastAudioInput == [] && manager.newStream
      invariant manager.bridgingOffset == old(manager.bridgingOffset)
      invariant manager.restartCounter == old(manager.restartCounter)
      invariant manager.resultEndTime == old(manager.resultEndTime)
      invariant manager.finalRequestEndTime == old(manager.finalRequestEndTime)
    {
      assert chunks[..i + 1] == chunks[..i] + [chunks[i]];
      manager.OnChunk(chunks[i]);
      i := i + 1;
    }
    assert chunks[..|chunks|] == chunks;
  }

  /** Restarts after the final result at 9500 ms and feeds one live chunk;
      returns what the new stream received. */
  method RestartAndBridge(manager: SessionManager, chunks: seq<Chunk>, live: Chunk) returns (sent: seq<Chunk>)
    requires manager.Valid() && manager.streamingLimit == 10000
    requires |chunks| == 100 && manager.audioInput == chunks
    requires manager.resultEndTime == 9500 && manager.isFinalEndTime == 9500
    requires manager.bridgingOffset == 0 && manager.restartCounter == 0
    modifies manager, manager.recognizeStream
    ensures manager.Valid() && sent == chunks[95..] + [live]
    ensures manager.bridgingOffset == 500 && manager.restartCounter == 1
  {
    manager.Restart();
    sent := BridgeFirstChunk(manager, chunks, live);
  }

  /** The first chunk after that restart: the previous buffer is the 100
      chunks, 9500 ms of it were acknowledged, and the offset is 0. */
  method BridgeFirstChunk(manager: SessionManager, chunks: seq<Chunk>, live: Chunk) returns (sent: seq<Chunk>)
    requires manager.Valid() && manager.streamingLimit == 10000 && manager.newStream
    requires |chunks| == 100 && manager.lastAudioInput == chunks
    requires manager.finalRequestEndTime == 9500 && manager.bridgingOffset == 0
    requires manager.recognizeStream != null && manager.recognizeStream.written == []
    modifies manager, manager.recognizeStream
    ensures manager.Valid() && sent == chunks[95..] + [live]
    ensures manager.bridgingOffset == 500 && manager.restartCounter == old(manager.restartCounter)
  {
    TenSecondExample(chunks);
    assert ChunksFromMs(9500, ClampOffset(0, 9500), 100, 10000) == 95;
    manager.OnChunk(live);
    assert manager.recognizeStream.written == [] + Replay(chunks, 95) + [live];
    assert [] + Replay(chunks, 95) == chunks[95..];
    sent := manager.recognizeStream.written;
  }
}
