/// The session-continuity engine of `infiniteStream`: one manager object that
/// owns the audio buffers, the timing state and the current recognizer stream,
/// and restarts that stream so transcription can run past the recognizer's
/// per-stream time limit.
module Streaming {
  import opened Bridging

  /** One captured audio chunk: an opaque byte payload. */
  datatype Chunk = Chunk(bytes: seq<bv8>)

  /** `t` ends with `s`. */
  ghost predicate IsSuffix<T>(s: seq<T>, t: seq<T>)
  {
    |s| <= |t| && t[|t| - |s|..] == s
  }

  /** The transcript text of a result: its first alternative, or the empty
      text when it has none. */
  function TranscriptText(alternatives: seq<string>): string
  {
    if |alternatives| > 0 then alternatives[0] else ""
  }

  /** One recognizer stream, seen only through what the engine does to it:
      every chunk written to it, in order, and whether its result listener
      is still attached. */
  class RecognizeStream {
    var written: seq<Chunk>
    var listening: bool

    constructor ()
      ensures written == [] && listening
    {
      written := [];
      listening := true;
    }

    method Write(chunk: Chunk)
      modifies this
      ensures written == old(written) + [chunk]
      ensures listening == old(listening)
    {
      written := written + [chunk];
    }

    method RemoveListener()
      modifies this
      ensures written == old(written)
      ensures !listening
    {
      listening := false;
    }
  }

  class SessionManager {
    /** The recognizer's maximum stream duration in ms. */
    const streamingLimit: nat

    var recognizeStream: RecognizeStream?
    var restartCounter: nat
    var audioInput: seq<Chunk>
    var lastAudioInput: seq<Chunk>
    var resultEndTime: nat
    var isFinalEndTime: nat
    var finalRequestEndTime: nat
    var newStream: bool
    var bridgingOffset: int
    var lastTranscriptWasFinal: bool
    /** The final transcripts sent to the clients. */
    var emitted: seq<string>

    /** Every chunk ever received from the capture device, in order. */
    ghost var captured: seq<Chunk>
    /** The chunks of all buffers already rotated out or cleared, in order. */
    ghost var retired: seq<Chunk>
    /** What was replayed into the current stream from the previous buffer. */
    ghost var replayed: seq<Chunk>
    /** The streams a restart detached (listener removed, reference dropped;
        never ended), oldest first. */
    ghost var detached: seq<RecognizeStream>

    /** The manager's invariant. The buffers split the captured audio in order
        (the previous buffer is the end of what was retired); the current
        stream received exactly its replayed lead-in followed by every chunk
        of the current buffer; the lead-in is a tail of the previous buffer;
        and a replay is still pending only while nothing was replayed and, if
        there is anything to replay, no live chunk has arrived yet. */
    ghost predicate Valid()
      reads this, recognizeStream
    {
      && captured == retired + audioInput
      && IsSuffix(lastAudioInput, retired)
      && IsSuffix(replayed, lastAudioInput)
      && (newStream ==> replayed == [])
      && (newStream && lastAudioInput != [] ==> audioInput == [])
      && (recognizeStream == null ==> lastAudioInput == [])
      && (recognizeStream != null ==>
            && recognizeStream !in detached
            && recognizeStream.listening
            && recognizeStream.written == replayed + audioInput)
    }

    /** The state in which a stream may be opened: none is open, and the
        buffers are ready to be split once the current one is cleared. */
    ghost predicate Startable()
      reads this
    {
      && recognizeStream == null
      && captured == retired + audioInput
      && IsSuffix(lastAudioInput, retired + audioInput)
    }

    /** The state before the first stream is opened. */
    constructor (streamingLimit: nat)
      ensures Valid() && Startable()
      ensures this.streamingLimit == streamingLimit
      ensures recognizeStream == null && restartCounter == 0
      ensures audioInput == [] && lastAudioInput == []
      ensures resultEndTime == 0 && isFinalEndTime == 0 && finalRequestEndTime == 0
      ensures newStream && bridgingOffset == 0 && !lastTranscriptWasFinal
      ensures emitted == [] && captured == [] && detached == []
    {
      this.streamingLimit := streamingLimit;
      recognizeStream := null;
      restartCounter := 0;
      audioInput := [];
      lastAudioInput := [];
      resultEndTime := 0;
      isFinalEndTime := 0;
      finalRequestEndTime := 0;
      newStream := true;
      bridgingOffset := 0;
      lastTranscriptWasFinal := false;
      emitted := [];
      captured := [];
      retired := [];
      replayed := [];
      detached := [];
    }

    /** Opens a stream: clears the current buffer and attaches a fresh
        recognizer stream that has received nothing. */
    method Start()
      requires Startable()
      modifies this
      ensures Valid()
      ensures recognizeStream != null && fresh(recognizeStream)
      ensures recognizeStream.written == [] && recognizeStream.listening
      ensures audioInput == [] && replayed == []
      ensures retired == old(retired) + old(audioInput)
      ensures lastAudioInput == old(lastAudioInput) && restartCounter == old(restartCounter)
      ensures resultEndTime == old(resultEndTime) && isFinalEndTime == old(isFinalEndTime)
      ensures finalRequestEndTime == old(finalRequestEndTime) && bridgingOffset == old(bridgingOffset)
      ensures newStream == old(newStream) && lastTranscriptWasFinal == old(lastTranscriptWasFinal)
      ensures emitted == old(emitted) && captured == old(captured) && detached == old(detached)
    {
      retired := retired + audioInput;
      audioInput := [];
      replayed := [];
      recognizeStream := new RecognizeStream();
    }

    /** One chunk from the capture device. On the first chunk after a restart
        the unacknowledged tail of the previous buffer is replayed into the new
        stream and the bridging offset is recomputed; then the chunk is
        buffered and, when a stream is open, forwarded to it. */
    method OnChunk(chunk: Chunk)
      requires Valid()
      modifies this, recognizeStream
      ensures Valid()
      ensures recognizeStream == old(recognizeStream) && detached == old(detached)
      ensures audioInput == old(audioInput) + [chunk]
      ensures captured == old(captured) + [chunk] && retired == old(retired)
      ensures lastAudioInput == old(lastAudioInput) && restartCounter == old(restartCounter)
      ensures resultEndTime == old(resultEndTime) && isFinalEndTime == old(isFinalEndTime)
      ensures finalRequestEndTime == old(finalRequestEndTime)
      ensures lastTranscriptWasFinal == old(lastTranscriptWasFinal) && emitted == old(emitted)
      ensures newStream == (old(newStream) && lastAudioInput == [])
      ensures var len := |lastAudioInput|;
              var bridging := old(newStream) && len != 0 && streamingLimit != 0;
              var from := if bridging
                          then ChunksFromMs(finalRequestEndTime, ClampOffset(old(bridgingOffset), finalRequestEndTime), len, streamingLimit)
                          else len;
              && bridgingOffset == (if bridging then NextOffset(len, from, streamingLimit) else old(bridgingOffset))
              && replayed == (if bridging then Replay(lastAudioInput, from) else old(replayed))
              && (recognizeStream != null ==>
                    recognizeStream.written == old(recognizeStream.written) + Replay(lastAudioInput, from) + [chunk])
    {
      if newStream && |lastAudioInput| != 0 {
        ReplayPending();
      }

      audioInput := audioInput + [chunk];
      captured := captured + [chunk];

      if recognizeStream != null {
        recognizeStream.Write(chunk);
      }
    }

    /** The replay at the head of the first chunk after a restart: clamps the
        bridging offset, counts the acknowledged chunks of the previous buffer,
        recomputes the offset, writes the unacknowledged tail to the new stream
        and clears the pending mark. A streaming limit of 0 (a chunk time of 0)
        skips the replay but still clears the mark. */
    method ReplayPending()
      requires Valid() && newStream && lastAudioInput != []
      modifies this, recognizeStream
      ensures Valid() && !newStream
      ensures recognizeStream == old(recognizeStream) && detached == old(detached)
      ensures audioInput == old(audioInput) == [] && captured == old(captured) && retired == old(retired)
      ensures lastAudioInput == old(lastAudioInput) && restartCounter == old(restartCounter)
      ensures resultEndTime == old(resultEndTime) && isFinalEndTime == old(isFinalEndTime)
      ensures finalRequestEndTime == old(finalRequestEndTime)
      ensures lastTranscriptWasFinal == old(lastTranscriptWasFinal) && emitted == old(emitted)
      ensures var len := |lastAudioInput|;
              var from := if streamingLimit != 0
                          then ChunksFromMs(finalRequestEndTime, ClampOffset(old(bridgingOffset), finalRequestEndTime), len, streamingLimit)
                          else len;
              && bridgingOffset == (if streamingLimit != 0 then NextOffset(len, from, streamingLimit) else old(bridgingOffset))
              && replayed == Replay(lastAudioInput, from)
              && recognizeStream != null
              && recognizeStream.written == old(recognizeStream.written) + Replay(lastAudioInput, from)
    {
      if streamingLimit != 0 {
        bridgingOffset := ClampOffset(bridgingOffset, finalRequestEndTime);
        var chunksFromMs := ChunksFromMs(finalRequestEndTime, bridgingOffset, |lastAudioInput|, streamingLimit);
        bridgingOffset := NextOffset(|lastAudioInput|, chunksFromMs, streamingLimit);
        WriteTail(recognizeStream, lastAudioInput, chunksFromMs);
        replayed := Replay(lastAudioInput, chunksFromMs);
      }
      newStream := false;
    }

    /** The replay loop: writes `buffer[from..]` to `stream`, one chunk at a
        time and in order (nothing when `from` is past the end). */
    static method WriteTail(stream: RecognizeStream, buffer: seq<Chunk>, from: int)
      requires 0 <= from
      modifies stream
      ensures stream.written == old(stream.written) + Replay(buffer, from)
      ensures stream.listening == old(stream.listening)
    {
      var i := from;
      while i < |buffer|
        invariant from <= i
        invariant i > |buffer| ==> i == from
        invariant stream.written == old(stream.written) + (if i <= |buffer| then buffer[from..i] else [])
        invariant stream.listening == old(stream.listening)
      {
        stream.Write(buffer[i]);
        assert buffer[from..i + 1] == buffer[from..i] + [buffer[i]];
        i := i + 1;
      }
    }

    /** Replaces the current stream by a fresh one: detaches the old stream,
        carries the last final end time forward when the closing stream
        produced any result, rotates the buffers, counts the restart and marks
        a replay as pending. */
    method Restart()
      requires Valid()
      modifies this, recognizeStream
      ensures Valid()
      ensures recognizeStream != null && fresh(recognizeStream) && recognizeStream.written == []
      ensures old(recognizeStream) != null ==>
                && detached == old(detached) + [old(recognizeStream)]
                && !old(recognizeStream).listening
                && old(recognizeStream).written == old(recognizeStream.written)
      ensures old(recognizeStream) == null ==> detached == old(detached)
      ensures finalRequestEndTime == if old(resultEndTime) > 0 then old(isFinalEndTime) else old(finalRequestEndTime)
      ensures resultEndTime == 0 && restartCounter == old(restartCounter) + 1
      ensures lastAudioInput == old(audioInput) && audioInput == [] && newStream
      ensures retired == old(retired) + old(audioInput) && captured == old(captured)
      ensures isFinalEndTime == old(isFinalEndTime) && bridgingOffset == old(bridgingOffset)
      ensures lastTranscriptWasFinal == old(lastTranscriptWasFinal) && emitted == old(emitted)
    {
      DetachStream();
      if resultEndTime > 0 {
        finalRequestEndTime := isFinalEndTime;
      }
      resultEndTime := 0;
      lastAudioInput := audioInput;
      restartCounter := restartCounter + 1;
      newStream := true;
      assert (retired + audioInput)[|retired|..] == audioInput;
      assert Startable();
      Start();
    }

    /** The first step of `Restart`, and used by nothing else: detaches the
        current stream, if any. Its result listener is removed and the
        manager drops it; what was written to it stays as it was. The manager
        is left without a stream while the previous buffer may be non-empty,
        so `Valid()` holds again only once `Restart` has opened a new one. */
    method DetachStream()
      requires Valid()
      modifies this, recognizeStream
      ensures recognizeStream == null
      ensures old(recognizeStream) != null ==>
                && detached == old(detached) + [old(recognizeStream)]
                && !old(recognizeStream).listening
                && old(recognizeStream).written == old(recognizeStream.written)
      ensures old(recognizeStream) == null ==> detached == old(detached)
      ensures captured == old(captured) && retired == old(retired) && replayed == old(replayed)
      ensures audioInput == old(audioInput) && lastAudioInput == old(lastAudioInput)
      ensures restartCounter == old(restartCounter) && resultEndTime == old(resultEndTime)
      ensures isFinalEndTime == old(isFinalEndTime) && finalRequestEndTime == old(finalRequestEndTime)
      ensures newStream == old(newStream) && bridgingOffset == old(bridgingOffset)
      ensures lastTranscriptWasFinal == old(lastTranscriptWasFinal) && emitted == old(emitted)
    {
      if recognizeStream != null {
        recognizeStream.RemoveListener();
        detached := detached + [recognizeStream];
        recognizeStream := null;
      }
    }

    /** One result event of the current stream: records its end time, works
        out its time on the corrected timeline, and for a final result records
        the end time as acknowledged and emits its text. */
    method OnResult(seconds: nat, nanos: nat, isFinal: bool, alternatives: seq<string>) returns (correctedTime: int)
      requires Valid()
      modifies this
      ensures Valid()
      ensures resultEndTime == ResultEndMillis(seconds, nanos)
      ensures correctedTime == CorrectedTime(resultEndTime, bridgingOffset, streamingLimit, restartCounter)
      ensures isFinal ==> isFinalEndTime == resultEndTime && lastTranscriptWasFinal
      ensures isFinal ==> emitted == old(emitted) + [TranscriptText(alternatives)]
      ensures !isFinal ==> isFinalEndTime == old(isFinalEndTime) && !lastTranscriptWasFinal && emitted == old(emitted)
      ensures recognizeStream == old(recognizeStream) && restartCounter == old(restartCounter)
      ensures audioInput == old(audioInput) && lastAudioInput == old(lastAudioInput)
      ensures finalRequestEndTime == old(finalRequestEndTime) && bridgingOffset == old(bridgingOffset)
      ensures newStream == old(newStream)
      ensures captured == old(captured) && retired == old(retired)
      ensures replayed == old(replayed) && detached == old(detached)
    {
      resultEndTime := ResultEndMillis(seconds, nanos);
      correctedTime := CorrectedTime(resultEndTime, bridgingOffset, streamingLimit, restartCounter);
      var text := TranscriptText(alternatives);
      if isFinal {
        emitted := emitted + [text];
        isFinalEndTime := resultEndTime;
        lastTranscriptWasFinal := true;
      } else {
        lastTranscriptWasFinal := false;
      }
    }

    /** The open stream has received a contiguous tail of the captured audio:
        nothing in it is missing, reordered or repeated. */
    lemma StreamIsCapturedTail()
      requires Valid() && recognizeStream != null
      ensures IsSuffix(recognizeStream.written, captured)
    {
    }
  }
}
