# Session continuity for infinite streaming transcription

This project models the session-continuity engine inside `infiniteStream` in
`index.js`. The engine sends live microphone audio to a streaming speech
recognizer, and that recognizer limits how long one stream may last. To keep
transcribing past the limit, the engine restarts the recognizer stream on a
timer. On the first audio chunk after a restart it replays into the new stream
the part of the previous stream's audio buffer that came after the last final
result. It also keeps a bridging offset, so that result times from every
stream fall on one corrected timeline.

The model has three modules.

- `Bridging` (`bridging.dfy`) holds the pure arithmetic:
  - the millisecond conversion of a result end time;
  - the clamp of the bridging offset;
  - the number of acknowledged chunks (`chunksFromMS`) and the next offset;
  - the replayed tail of the buffer;
  - the corrected time, `resultEndTime - bridgingOffset + streamingLimit * restartCounter`.

  The source computes the per-chunk time `streamingLimit / lastAudioInput.length`
  in floating point. Here it is exact: `floor(x / (L / len))` becomes
  `(x * len) / L`, and `floor(n * (L / len))` becomes `(n * L) / len`. Dafny's `/`
  with a positive divisor is the floor, so this is the same function on rational
  numbers.
- `Streaming` (`streaming.dfy`) holds the stateful part:
  - a `SessionManager` class whose fields are the closure variables of
    `infiniteStream` (`restartCounter`, `audioInput`, `lastAudioInput`,
    `resultEndTime`, `isFinalEndTime`, `finalRequestEndTime`, `newStream`,
    `bridgingOffset`, `lastTranscriptWasFinal`, `recognizeStream`);
  - a `RecognizeStream` class for the recognizer stream, which records every
    chunk written to it and whether its `data` listener is still attached.

  The methods are:
  - `OnChunk`, the `transform` callback;
  - `Restart`, `restartStream`;
  - `Start`, the state part of `startStream`;
  - `OnResult`, `speechCallback`.

  Ghost fields track every captured chunk, the retired buffers, what was
  replayed into the current stream, and the detached streams. `Valid()` states how
  these fit together:
  - the buffers split the captured audio in order;
  - the open stream has received exactly its replayed lead-in and then every
    chunk of the current buffer;
  - the lead-in is a tail of the previous buffer;
  - a replay is pending only until the first chunk after a restart.
- `Scenario` (`scenario.dfy`) is a client. It uses only the contracts to run
  one full cycle: 100 chunks under a 10000 ms limit, a final result at 9.5 s, a
  restart, one live chunk and a second result.

Some behaviours of `index.js` are easy to misread, and the model keeps them as
written:

- **No acknowledged time replays the whole buffer.** Suppose `finalRequestEndTime`
  is 0, for example because no final result arrived before the first restart.
  The code then clamps the offset to 0 and computes `chunksFromMS = 0`. It
  replays the whole previous buffer and, in exact arithmetic, sets the new
  offset to the full `streamingLimit` (`NothingAcknowledgedReplaysAll`,
  `NextOffsetRange`).
- **No error triggers a restart.** The `restartStream()` call for
  `err.code === 11` is commented out (index.js:87-88), so only the timer
  restarts a stream. The model has no error-triggered restart.
- **Only final results reach the clients, and the corrected time goes nowhere.**
  The code sends only the text of final results (`socket.emit`). It computes
  `correctedTime` but never uses it. `OnResult` returns the corrected time, and
  `emitted` records the final texts.
- **`isFinalEndTime` is never reset at a restart.** A stream that produced only
  interim results therefore carries the previous stream's final end time into
  `finalRequestEndTime` at the next restart. The request sets
  `interimResults: false` (index.js:49), so every result is final and this does
  not happen. The interim branch of `OnResult` is modelled as written.
- **A negative leftover offset can reorder the corrected timeline.** A replay
  can count more chunks than the buffer held. That happens when
  `finalRequestEndTime - bridgingOffset` exceeds `streamingLimit` by at least
  one chunk time (`streamingLimit / len`), and the next offset is then
  negative (`NextOffsetRange`). The stream it belongs to subtracts a negative
  number in `correctedTime`, which puts its results later than the audio
  warrants. The next replay clamps the offset to 0, so that stream's results
  can land after results of the following stream
  (`NegativeOffsetBreaksOrder`). For every non-negative offset, every result
  of the following stream that ends after its first replayed chunk lands
  after the last final (`OrderedAcrossRestart`).
- **A restart detaches the old stream but never ends it.** `restartStream` only
  removes the `data` listener and drops the reference (index.js:173-176). The
  ghost field `detached` records these streams.

## Model

| member | source | states |
|---|---|---|
| `Bridging.ResultEndMillis` | index.js:101-103 | The end time is at least 1000 ms per whole second. The remaining milliseconds are the nanoseconds rounded to the nearest millisecond, with halves rounded up. |
| `Bridging.ClampOffset` | index.js:142-147 | The offset used lies in `[0, finalRequestEndTime]`. A negative offset becomes 0, and an offset past the acknowledged time becomes that time. An offset already in range is kept. |
| `Bridging.ChunksFromMs` | index.js:140-150 | `chunksFromMS` is the number of whole chunks, each lasting `streamingLimit / len` ms, that fit in the acknowledged span `finalRequestEndTime - offset`. It is not negative once the offset is clamped. |
| `Bridging.NextOffset` | index.js:151-153 | The new bridging offset is the floor, in ms, of the duration of the `len - chunksFromMS` chunks that were not acknowledged. |
| `Bridging.Replay` | index.js:155-157 | The loop from `chunksFromMS` to the buffer's end, unrolled one iteration per call, writes exactly the buffer's tail `buffer[chunksFromMS..]`. It writes nothing when `chunksFromMS >= len`. |
| `Bridging.CorrectedTime` | index.js:106-107 | Stream k covers the window `[L*k, L*(k+1)]` of the corrected timeline. A result ending after the stream's lead-in lands at or after the window's start. A result ending at most `L` ms past the lead-in lands at or before the window's end. |
| `Bridging.ChunksWithinBuffer` | index.js:140-153 | If `finalRequestEndTime <= streamingLimit`, then after the clamp `0 <= chunksFromMS <= len` and the new offset is not negative. |
| `Bridging.NextOffsetRange` | index.js:151-153 | The new offset is at most `streamingLimit`. It is negative exactly when `chunksFromMS > len`, which is the case the clamp at lines 142-144 repairs. It equals `streamingLimit` exactly when `chunksFromMS == 0`, that is, when the whole buffer is replayed. |
| `Bridging.ReplayStartAligned` | index.js:151-157 | The new stream begins with replayed chunk `chunksFromMS`, whose start lies `chunksFromMS * L / len` ms into the previous window. The new offset puts the new stream's time 0 at that point on the corrected timeline, or less than 1 ms after it because the offset is floored. |
| `Bridging.NothingAcknowledgedReplaysAll` | index.js:142-157 | When `finalRequestEndTime == 0`, the clamped offset is 0, no chunk counts as acknowledged, and, in exact arithmetic, the new offset is `streamingLimit`. |
| `Bridging.TenSecondExample` | index.js:140-157 | With limit 10000, 100 chunks, acknowledged time 9500 and offset 0: 95 chunks are acknowledged, the last 5 are replayed, and the new offset is 500. |
| `Bridging.MonotoneAcrossRestart` | index.js:106-107 | Suppose stream k's offset already lies in `[0, finalRequestEndTime]`, so the clamp leaves it as it is. Then the last final result of stream k lies strictly before, on the corrected timeline, every result of stream k+1 that ends after that stream's first replayed chunk. Stream k+1's offset is the one `NextOffset` computed. |
| `Bridging.OrderedAcrossRestart` | index.js:106-107 | The same order holds for any non-negative offset left by the previous replay, with the clamp at index.js:142-147 applied first. This covers the last final ending inside the replayed lead-in, where the clamp gives `chunksFromMS = 0` and the next offset is `streamingLimit`. |
| `Bridging.NegativeOffsetBreaksOrder` | index.js:142-153 | Stream 1 holds a leftover offset of -1000, its last final ends at 5000 ms, there are 100 chunks and the limit is 10000 ms. The clamp gives 0, 50 chunks are acknowledged and the next offset is 5000. The final then lands at 16000 ms, and a stream-2 result at 200 ms lands earlier, at 15200 ms. |
| `Streaming.TranscriptText` | index.js:111-114 | The displayed and emitted text is the first alternative's transcript, or the empty text when the result has no alternative. |
| `Streaming.RecognizeStream.constructor` | index.js:84-93 | A new recognizer stream has received nothing and has its result listener attached. |
| `Streaming.RecognizeStream.Write` | index.js:156 | A write appends one chunk to what the stream has received. |
| `Streaming.RecognizeStream.RemoveListener` | index.js:174 | Removing the listener detaches results and leaves what was written unchanged. |
| `Streaming.SessionManager.constructor` | index.js:52-61 | The initial state: no stream open, counters and times 0, both buffers empty, `newStream` set, `lastTranscriptWasFinal` cleared. |
| `Streaming.SessionManager.Start` | index.js:76-97 | Clears the current buffer and opens a fresh, empty recognizer stream. Nothing else in the timing state changes, and the invariant holds afterwards. |
| `Streaming.SessionManager.OnChunk` | index.js:137-170 | The chunk is appended to `audioInput` exactly once and captured exactly once. If a replay is pending and both the previous buffer and the limit are non-zero, the stream receives `old ++ lastAudioInput[chunksFromMS..] ++ [chunk]` and the offset becomes `NextOffset`; otherwise the stream receives `old ++ [chunk]` and the offset is unchanged. `newStream` is cleared whenever the previous buffer is non-empty, including when the limit is 0. No other timing field changes. |
| `Streaming.SessionManager.ReplayPending` | index.js:138-160 | Clamps the offset, computes `chunksFromMS`, writes the unacknowledged tail to the open stream in order before any live chunk, and clears the pending mark. With a limit of 0 it replays nothing and keeps the offset. |
| `Streaming.SessionManager.WriteTail` | index.js:155-157 | Writes `buffer[from..]` to the stream one chunk at a time and in order. |
| `Streaming.SessionManager.Restart` | index.js:172-200 | `restartCounter` is incremented. `resultEndTime` becomes 0. `finalRequestEndTime` takes `isFinalEndTime` when a result was seen, and is otherwise unchanged. `lastAudioInput` becomes the old `audioInput`, and `audioInput` becomes empty. `newStream` is set. The old stream is detached (its listener removed) with its writes intact, and a fresh empty stream is opened. The offset, `isFinalEndTime` and the emitted texts are unchanged. |
| `Streaming.SessionManager.DetachStream` | index.js:173-176 | The current stream, if any, loses its listener and is dropped, and what it received is unchanged. |
| `Streaming.SessionManager.OnResult` | index.js:99-134 | `resultEndTime` is the rounded millisecond end time. The returned corrected time is `resultEndTime - bridgingOffset + streamingLimit * restartCounter`. A final result sets `isFinalEndTime` and `lastTranscriptWasFinal` and emits its first alternative's text, or empty text. An interim result clears `lastTranscriptWasFinal` and changes nothing else. |
| `Streaming.SessionManager.StreamIsCapturedTail` | index.js:137-200 | The open stream has received a contiguous tail of all captured audio, with no chunk missing, reordered or repeated. |
| `Scenario.TenSecondRestart` | index.js:99-200 | After 100 chunks, a final result at 9.5 s and a restart, the next chunk makes the new stream receive exactly `chunks[95..] ++ [live]`. The offset becomes 500, and the two results land at 9500 ms and 10200 ms, in order. |

## Left out

- The Google Cloud Speech client, the request configuration and the event subscription (index.js:37, 43-50, 84-93). These are foreign calls. A recognizer stream is an abstract sink that records the chunks written to it and whether its listener is attached.
- The error handler and its classification of error codes (index.js:86-91). It only logs, and its restart on code 11 is commented out.
- The `setTimeout` restart timer and the Node event loop's interleaving (index.js:96). A restart is an explicit `Restart()` call between sequential `OnChunk` and `OnResult` calls.
- Express, http, socket.io and `setupSocket` (index.js:18-34, 62-74). These are network plumbing. `socket.emit` of a final transcript is modelled as appending to `emitted`.
- Console output through chalk and `process.stdout`, including the truncation of interim text to the terminal width (index.js:109-110, 118-119, 125-130, 187-195). This is terminal formatting.
- The microphone capture through `node-record-lpcm16` and the piping of its stream (index.js:203-215). Chunks are method arguments.
- The yargs command line (index.js:220-268). `streamingLimit` is a constructor parameter. yargs accepts any number (`type: 'number'`, index.js:256-262), but the model takes a whole, non-negative number of milliseconds, so fractional and negative limits are not modelled.
- The no-op `lastAudioInput = []` at index.js:182, which the next line overwrites.
- Bridging.ChunksFromMs: does not model the IEEE double rounding of `streamingLimit / lastAudioInput.length`, because the model computes the same quotient exactly on integers. When the exact quotient is a whole number, the source's `Math.floor` can come out one lower. For example, with L = 10000, len = 14, F = 5000 and offset 0 the exact count is 7 but `Math.floor(5000 / (10000 / 14))` is 6, so the source replays one more chunk.
- Bridging.NextOffset: does not model the IEEE double rounding of `(len - chunksFromMS) * chunkTime`. At exact multiples the source's floor can be 1 ms lower: with len = 139 and chunksFromMS = 0 the source gets 9999, not 10000. Through `chunksFromMS`, the offset can also differ by a whole chunk (5714 instead of 5000 in the example above).
- Bridging.ResultEndMillis: does not model the double division `nanos / 1000000` before `Math.round`. It takes seconds and nanoseconds as non-negative integers, which is what a non-negative duration gives, so negative durations are not modelled.
- The recognizer stream's end-of-life. A restart never calls `end()` or `destroy()` on the old stream, and its `error` listener stays attached (index.js:173-176). The model has no closing operation; the old stream is only detached.
- A response with an empty `results` array. index.js:102 reads `stream.results[0].resultEndTime` before the guard at line 112, so such a response throws a TypeError inside the `data` handler. `OnResult` takes the first result's fields as arguments and cannot express that input.
