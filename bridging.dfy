/// The arithmetic of the session-continuity engine: converting result end times
/// to milliseconds, clamping the bridging offset, deciding how much of the
/// previous stream's audio buffer was already acknowledged, and folding
/// per-stream times into one timeline.
///
/// The source divides `streamingLimit` by the buffer length in floating point;
/// here every quotient is computed exactly on integers, so that
/// `floor(x / (L / len))` becomes `(x * len) / L` (Dafny's `/` with a positive
/// divisor is the mathematical floor).
module Bridging {

  /** Milliseconds of a result end time given as whole seconds and nanoseconds:
      the nanoseconds are rounded to the nearest millisecond, halves upwards
      (`Math.round` on a non-negative value). */
  function ResultEndMillis(seconds: nat, nanos: nat): (ms: nat)
    ensures ms >= 1000 * seconds
    ensures (ms - 1000 * seconds) * 1000000 - 500000 <= nanos < (ms - 1000 * seconds) * 1000000 + 500000
  {
    seconds * 1000 + (nanos + 500000) / 1000000
  }

  /** The bridging offset after the two repairs made before it is used:
      a negative value becomes 0, a value beyond the last acknowledged
      time becomes that time. */
  function ClampOffset(offset: int, finalRequestEndTime: nat): (r: int)
    ensures 0 <= r <= finalRequestEndTime
    ensures 0 <= offset <= finalRequestEndTime ==> r == offset
    ensures offset < 0 ==> r == 0
    ensures offset > finalRequestEndTime ==> r == finalRequestEndTime
  {
    var raised := if offset < 0 then 0 else offset;
    if raised > finalRequestEndTime then finalRequestEndTime else raised
  }

  /** How many whole chunks of a buffer of `bufferLen` chunks, each lasting
      `streamingLimit / bufferLen` ms, fit into the acknowledged span from
      `offset` to `finalRequestEndTime`. */
  function ChunksFromMs(finalRequestEndTime: int, offset: int, bufferLen: nat, streamingLimit: nat): (c: int)
    requires bufferLen > 0 && streamingLimit > 0
    ensures c * streamingLimit <= (finalRequestEndTime - offset) * bufferLen < c * streamingLimit + streamingLimit
    ensures offset <= finalRequestEndTime ==> 0 <= c
  {
    var scaled := (finalRequestEndTime - offset) * bufferLen;
    DivBounds(scaled, streamingLimit);
    QuotientNonNegative(finalRequestEndTime - offset, bufferLen, streamingLimit);
    scaled / streamingLimit
  }

  /** The next bridging offset: the duration, floored to whole milliseconds,
      of the `bufferLen - chunksFromMs` chunks that were not acknowledged. */
  function NextOffset(bufferLen: nat, chunksFromMs: int, streamingLimit: nat): (o: int)
    requires bufferLen > 0
    ensures o * bufferLen <= (bufferLen - chunksFromMs) * streamingLimit < o * bufferLen + bufferLen
  {
    var scaled := (bufferLen - chunksFromMs) * streamingLimit;
    DivBounds(scaled, bufferLen);
    scaled / bufferLen
  }

  /** The chunks written by the replay loop `for i := from; i < |buffer|; i++`,
      one iteration per step: the tail of `buffer` starting at `from`, empty
      when `from` is past its end. */
  function Replay<T>(buffer: seq<T>, from: int): (r: seq<T>)
    requires 0 <= from
    ensures r == if from <= |buffer| then buffer[from..] else []
    decreases |buffer| - from
  {
    if from < |buffer| then [buffer[from]] + Replay(buffer, from + 1) else []
  }

  /** A result's end time on the single timeline that spans all streams.
      Stream number `restartCounter` owns the window
      `[streamingLimit * restartCounter, streamingLimit * (restartCounter + 1)]`:
      a result ending after the stream's replayed lead-in lands at or after
      the window's start, and one ending within `streamingLimit` ms past the
      lead-in lands at or before its end. */
  function CorrectedTime(resultEndTime: int, bridgingOffset: int, streamingLimit: nat, restartCounter: nat): (t: int)
    ensures bridgingOffset <= resultEndTime ==> streamingLimit * restartCounter <= t
    ensures resultEndTime - bridgingOffset <= streamingLimit ==> t <= streamingLimit * restartCounter + streamingLimit
  {
    resultEndTime - bridgingOffset + streamingLimit * restartCounter
  }

  /** When the last acknowledged time lies within the streaming limit, the
      acknowledged prefix never exceeds the buffer, so the replay is a proper
      range of it and the next offset is not negative. */
  lemma ChunksWithinBuffer(finalRequestEndTime: nat, offset: int, bufferLen: nat, streamingLimit: nat)
    requires bufferLen > 0 && streamingLimit > 0
    requires finalRequestEndTime <= streamingLimit
    ensures var c := ChunksFromMs(finalRequestEndTime, ClampOffset(offset, finalRequestEndTime), bufferLen, streamingLimit);
            0 <= c <= bufferLen && 0 <= NextOffset(bufferLen, c, streamingLimit)
  {
    var b := ClampOffset(offset, finalRequestEndTime);
    var span := finalRequestEndTime - b;
    var c := ChunksFromMs(finalRequestEndTime, b, bufferLen, streamingLimit);
    MulMonotone(span, streamingLimit, bufferLen);
    MulCommutes(streamingLimit, bufferLen);
    // span * bufferLen <= bufferLen * streamingLimit, so the quotient is at most bufferLen
    DivMonotone(span * bufferLen, bufferLen * streamingLimit, streamingLimit);
    DivExact(bufferLen, streamingLimit);
    NextOffsetRange(bufferLen, c, streamingLimit);
  }

  /** The next offset never exceeds the streaming limit; it is negative exactly
      when the acknowledged prefix is longer than the buffer, and it equals the
      streaming limit exactly when nothing was acknowledged and the whole
      buffer is replayed. */
  lemma NextOffsetRange(bufferLen: nat, chunksFromMs: int, streamingLimit: nat)
    requires bufferLen > 0 && streamingLimit > 0 && 0 <= chunksFromMs
    ensures NextOffset(bufferLen, chunksFromMs, streamingLimit) <= streamingLimit
    ensures 0 <= NextOffset(bufferLen, chunksFromMs, streamingLimit) <==> chunksFromMs <= bufferLen
    ensures NextOffset(bufferLen, chunksFromMs, streamingLimit) == streamingLimit <==> chunksFromMs == 0
  {
    var rest := bufferLen - chunksFromMs;
    var o := NextOffset(bufferLen, chunksFromMs, streamingLimit);
    assert o == (rest * streamingLimit) / bufferLen;
    MulCommutes(streamingLimit, bufferLen);
    DivExact(streamingLimit, bufferLen);
    if chunksFromMs == 0 {
      assert rest * streamingLimit == streamingLimit * bufferLen;
    } else {
      // rest * streamingLimit <= streamingLimit * bufferLen - streamingLimit
      MulMonotone(rest, bufferLen - 1, streamingLimit);
      MulDistributes(bufferLen, streamingLimit);
      DivMonotone(rest * streamingLimit, streamingLimit * bufferLen - 1, bufferLen);
      DivBounds(streamingLimit * bufferLen - 1, bufferLen);
      if (streamingLimit * bufferLen - 1) / bufferLen >= streamingLimit {
        MulMonotone(streamingLimit, (streamingLimit * bufferLen - 1) / bufferLen, bufferLen);
        assert false;
      }
    }
    if chunksFromMs <= bufferLen {
      MulNonNegative(rest, streamingLimit);
      DivNonNegative(rest * streamingLimit, bufferLen);
    } else {
      MulMonotone(rest, -1, streamingLimit);
      DivMonotone(rest * streamingLimit, -1, bufferLen);
      DivOfMinusOne(bufferLen);
    }
  }

  /** The new stream starts with chunk `chunksFromMs` of the previous buffer,
      which began `chunksFromMs * streamingLimit / bufferLen` ms into the
      previous window. The new offset places the new stream's time 0 at
      `streamingLimit - offset` ms into that window on the corrected timeline:
      at that start or less than one millisecond after it, since the offset
      is floored. */
  lemma ReplayStartAligned(bufferLen: nat, chunksFromMs: int, streamingLimit: nat)
    requires bufferLen > 0
    ensures var start := (streamingLimit - NextOffset(bufferLen, chunksFromMs, streamingLimit)) * bufferLen;
            chunksFromMs * streamingLimit <= start < chunksFromMs * streamingLimit + bufferLen
  {
    var o := NextOffset(bufferLen, chunksFromMs, streamingLimit);
    MulSubtracts(streamingLimit, o, bufferLen);
    MulSubtracts(bufferLen, chunksFromMs, streamingLimit);
    MulCommutes(streamingLimit, bufferLen);
  }

  /** With no acknowledged time (`finalRequestEndTime` is 0) the clamped offset
      is 0, nothing counts as acknowledged, the whole previous buffer is
      replayed and the next offset is the full streaming limit. */
  lemma NothingAcknowledgedReplaysAll(offset: int, bufferLen: nat, streamingLimit: nat)
    requires bufferLen > 0 && streamingLimit > 0
    ensures ClampOffset(offset, 0) == 0
    ensures ChunksFromMs(0, ClampOffset(offset, 0), bufferLen, streamingLimit) == 0
    ensures NextOffset(bufferLen, 0, streamingLimit) == streamingLimit
  {
    NextOffsetRange(bufferLen, 0, streamingLimit);
  }

  /** The end-to-end example: a 10000 ms limit, 100 buffered chunks (100 ms
      each), a last final result at 9500 ms and a starting offset of 0 give 95
      acknowledged chunks, 5 replayed chunks and a new offset of 500 ms. */
  lemma TenSecondExample<T>(buffer: seq<T>)
    requires |buffer| == 100
    ensures ClampOffset(0, 9500) == 0
    ensures ChunksFromMs(9500, 0, 100, 10000) == 95
    ensures Replay(buffer, 95) == buffer[95..] && |Replay(buffer, 95)| == 5
    ensures NextOffset(100, 95, 10000) == 500
  {
  }

  /** The corrected timeline across one restart, when the clamp leaves the
      offset as it is: the last final result of stream `restartCounter`,
      which ended at `finalRequestEndTime` under that stream's offset
      `bridgingOffset` (already within `[0, finalRequestEndTime]`), lies
      strictly before every result of the next stream that ends after that
      stream's first replayed chunk, where the next stream's offset is the
      one the replay computed. */
  lemma MonotoneAcrossRestart(finalRequestEndTime: nat, bridgingOffset: int, bufferLen: nat,
                              streamingLimit: nat, restartCounter: nat, resultEndTime: int)
    requires bufferLen > 0 && streamingLimit > 0
    requires 0 <= bridgingOffset <= finalRequestEndTime
    requires resultEndTime * bufferLen >= streamingLimit
    ensures var c := ChunksFromMs(finalRequestEndTime, bridgingOffset, bufferLen, streamingLimit);
            CorrectedTime(finalRequestEndTime, bridgingOffset, streamingLimit, restartCounter)
            < CorrectedTime(resultEndTime, NextOffset(bufferLen, c, streamingLimit), streamingLimit, restartCounter + 1)
  {
    var c := ChunksFromMs(finalRequestEndTime, bridgingOffset, bufferLen, streamingLimit);
    var o := NextOffset(bufferLen, c, streamingLimit);
    ReplayStartAligned(bufferLen, c, streamingLimit);
    // (F - b) * len < c * L + L <= (L - o) * len + r * len, so F - b < L - o + r
    var gap := (finalRequestEndTime - bridgingOffset) - (streamingLimit - o) - resultEndTime;
    MulSubtracts((finalRequestEndTime - bridgingOffset) - (streamingLimit - o), resultEndTime, bufferLen);
    MulSubtracts(finalRequestEndTime - bridgingOffset, streamingLimit - o, bufferLen);
    if gap >= 0 {
      MulMonotone(0, gap, bufferLen);
      assert false;
    }
    MulDistributesOver(streamingLimit, restartCounter);
  }

  /** The corrected timeline across one restart, for any non-negative offset
      left by the previous replay. The replay first clamps that offset
      against the last final end time. When the last final ended inside the
      replayed lead-in (the offset exceeds `finalRequestEndTime`), the clamp
      makes nothing count as acknowledged, and the next offset is the full
      streaming limit. Either way, every result of the next stream that ends
      after its first replayed chunk lands after the last final of this one. */
  lemma OrderedAcrossRestart(finalRequestEndTime: nat, bridgingOffset: int, bufferLen: nat,
                             streamingLimit: nat, restartCounter: nat, resultEndTime: int)
    requires bufferLen > 0 && streamingLimit > 0
    requires 0 <= bridgingOffset
    requires resultEndTime * bufferLen >= streamingLimit
    ensures var c := ChunksFromMs(finalRequestEndTime, ClampOffset(bridgingOffset, finalRequestEndTime), bufferLen, streamingLimit);
            CorrectedTime(finalRequestEndTime, bridgingOffset, streamingLimit, restartCounter)
            < CorrectedTime(resultEndTime, NextOffset(bufferLen, c, streamingLimit), streamingLimit, restartCounter + 1)
  {
    if bridgingOffset <= finalRequestEndTime {
      MonotoneAcrossRestart(finalRequestEndTime, bridgingOffset, bufferLen, streamingLimit, restartCounter, resultEndTime);
    } else {
      // the clamped span is empty, so nothing is acknowledged
      var c := ChunksFromMs(finalRequestEndTime, finalRequestEndTime, bufferLen, streamingLimit);
      if c > 0 {
        MulMonotone(1, c, streamingLimit);
      }
      NextOffsetRange(bufferLen, 0, streamingLimit);
      if resultEndTime <= 0 {
        MulMonotone(resultEndTime, 0, bufferLen);
      }
      MulDistributesOver(streamingLimit, restartCounter);
    }
  }

  /** A negative offset left over from a replay that counted more chunks than
      the buffer held (possible once `finalRequestEndTime - bridgingOffset`
      exceeds the streaming limit by at least one chunk time) breaks that
      order. Stream 1 (stream 0 never replays, since its previous buffer is
      empty) holds offset -1000 and its last final ends at 5000 ms; with 100
      chunks and a 10000 ms limit it lands at 16000 ms, and a result of
      stream 2 ending at 200 ms lands earlier, at 15200 ms. */
  lemma NegativeOffsetBreaksOrder()
    ensures ClampOffset(-1000, 5000) == 0 && ChunksFromMs(5000, 0, 100, 10000) == 50
    ensures NextOffset(100, 50, 10000) == 5000
    ensures CorrectedTime(5000, -1000, 10000, 1) == 16000
    ensures CorrectedTime(200, NextOffset(100, 50, 10000), 10000, 2) == 15200
  {
  }

  // Small facts of integer arithmetic used above.

  lemma MulMonotone(a: int, b: int, k: nat)
    requires a <= b
    ensures a * k <= b * k
  {
    MulNonNegative(b - a, k);
    assert (b - a) * k == b * k - a * k;
  }

  lemma MulNonNegative(a: int, b: int)
    requires 0 <= a && 0 <= b
    ensures 0 <= a * b
  {
  }

  lemma MulCommutes(a: int, b: int)
    ensures a * b == b * a
  {
  }

  lemma MulDistributes(a: int, k: int)
    ensures (a - 1) * k == a * k - k
  {
  }

  lemma MulDistributesOver(k: int, n: int)
    ensures k * (n + 1) == k * n + k
  {
  }

  lemma MulSubtracts(a: int, b: int, k: int)
    ensures (a - b) * k == a * k - b * k
  {
  }

  lemma DivBounds(x: int, y: int)
    requires y > 0
    ensures (x / y) * y <= x < (x / y) * y + y
  {
    assert x == (x / y) * y + x % y;
  }

  lemma DivNonNegative(x: int, y: int)
    requires 0 <= x && 0 < y
    ensures 0 <= x / y
  {
  }

  lemma QuotientNonNegative(a: int, b: nat, y: int)
    requires 0 < y
    ensures 0 <= a ==> 0 <= (a * b) / y
  {
    if 0 <= a {
      MulNonNegative(a, b);
      DivNonNegative(a * b, y);
    }
  }

  lemma DivOfMinusOne(y: int)
    requires 0 < y
    ensures -1 / y == -1
  {
    DivBounds(-1, y);
    if -1 / y < -1 {
      MulMonotone(-1 / y, -2, y);
    } else if -1 / y >= 0 {
      MulNonNegative(-1 / y, y);
    }
  }

  lemma DivExact(q: int, y: int)
    requires y > 0
    ensures (q * y) / y == q
  {
    DivBounds(q * y, y);
    var d := (q * y) / y;
    if d < q {
      MulMonotone(d + 1, q, y);
    }
  }

  lemma DivMonotone(x1: int, x2: int, y: int)
    requires x1 <= x2 && 0 < y
    ensures x1 / y <= x2 / y
  {
    DivBounds(x1, y);
    DivBounds(x2, y);
    if x1 / y > x2 / y {
      MulMonotone(x2 / y + 1, x1 / y, y);
    }
  }
}
