/** The buffered, chunked output of one source, and the unbuffered stream it stands for. */
module Writer {
  import opened Bits
  import opened Decoder
  import opened Records

  const BUFFER_SIZE := 131072
  const FLUSH_MARGIN := 256
  const NUM_EVENTS_WRITE := 100
  const MAX_FILE_SIZE := 10 * 1024 * 1024 * 1024

  /** Writing at the end of the current chunk appends to the stream. */
  lemma AppendToLast(chunks: seq<seq<Byte>>, data: seq<Byte>)
    requires chunks != []
    ensures var n := |chunks| - 1;
            Flatten(chunks[n := chunks[n] + data]) == Flatten(chunks) + data
  {
    var n := |chunks| - 1;
    var after := chunks[n := chunks[n] + data];
    assert after[..n] == chunks[..n];
  }

  lemma NewChunkIsEmpty(chunks: seq<seq<Byte>>)
    ensures Flatten(chunks + [[]]) == Flatten(chunks)
  {
    assert (chunks + [[]])[..|chunks|] == chunks;
  }

  /** What the files of one open hold: full chunks, then the current one. `limit` bounds the last. */
  ghost predicate ChunksBounded(chunks: seq<seq<Byte>>, limit: nat) {
    && chunks != []
    && (forall k | 0 <= k < |chunks| - 1 :: MAX_FILE_SIZE <= |chunks[k]| < MAX_FILE_SIZE + BUFFER_SIZE)
    && |chunks[|chunks| - 1]| < limit
  }

  class TankWriter {
    const format: Format
    const writeBuffer: array<Byte>
    var bufferUsed: nat
    var bytesWritten: nat
    var eventsWritten: nat
    var chunkIndex: nat
    /** Payload of every file written since the open; the last one is the output file. */
    var chunks: seq<seq<Byte>>

    /** Holds whenever an event is about to be written. */
    ghost predicate Valid()
      reads this
    {
      && writeBuffer.Length == BUFFER_SIZE
      && bufferUsed <= BUFFER_SIZE - FLUSH_MARGIN
      && ChunksBounded(chunks, MAX_FILE_SIZE)
      && bytesWritten == |chunks[|chunks| - 1]|
      && chunkIndex + 1 == |chunks|
    }

    /** The unbuffered stream: everything flushed, then everything still in the buffer. */
    ghost function Stream(): seq<Byte>
      requires bufferUsed <= writeBuffer.Length
      reads this, writeBuffer
    {
      Flatten(chunks) + writeBuffer[..bufferUsed]
    }

    /** A successful OPEN; the count of events survives from an earlier one. */
    constructor (format: Format, eventsWritten: nat)
      ensures Valid() && Stream() == [] && chunks == [[]] && fresh(writeBuffer)
      ensures this.format == format && this.eventsWritten == eventsWritten
    {
      this.format := format;
      writeBuffer := new Byte[BUFFER_SIZE](_ => 0);
      bufferUsed := 0;
      bytesWritten := 0;
      this.eventsWritten := eventsWritten;
      chunkIndex := 0;
      chunks := [[]];
      new;
      assert chunks[..0] == [];
    }

    /** memcpy or snprintf into the buffer; one byte is left for the terminator of the latter. */
    method Append(record: seq<Byte>)
      requires writeBuffer.Length == BUFFER_SIZE && bufferUsed + |record| < BUFFER_SIZE
      modifies this`bufferUsed, writeBuffer
      ensures bufferUsed == old(bufferUsed) + |record|
      ensures writeBuffer[..bufferUsed] == old(writeBuffer[..bufferUsed]) + record
    {
      for i := 0 to |record|
        invariant bufferUsed == old(bufferUsed)
        invariant writeBuffer[..bufferUsed + i] == old(writeBuffer[..bufferUsed]) + record[..i]
      {
        writeBuffer[bufferUsed + i] := record[i];
        assert writeBuffer[..bufferUsed + i + 1] == writeBuffer[..bufferUsed + i] + [record[i]];
      }
      bufferUsed := bufferUsed + |record|;
      assert record[..|record|] == record;
    }

    /** Writes the buffer to the output file; no file is changed besides. */
    method WriteOut()
      requires writeBuffer.Length == BUFFER_SIZE && bufferUsed <= BUFFER_SIZE && chunks != []
      modifies this`bufferUsed, this`bytesWritten, this`chunks
      ensures bufferUsed == 0 && Stream() == old(Stream())
      ensures bytesWritten == old(bytesWritten + bufferUsed)
      ensures var n := |old(chunks)| - 1; chunks == old(chunks)[n := old(chunks)[n] + old(writeBuffer[..bufferUsed])]
    {
      var n := |chunks| - 1;
      AppendToLast(chunks, writeBuffer[..bufferUsed]);
      chunks := chunks[n := chunks[n] + writeBuffer[..bufferUsed]];
      bytesWritten := bytesWritten + bufferUsed;
      bufferUsed := 0;
      assert writeBuffer[..0] == [];
    }

    method Rollover()
      requires writeBuffer.Length == BUFFER_SIZE && bufferUsed == 0
      requires chunkIndex + 1 == |chunks| && ChunksBounded(chunks, MAX_FILE_SIZE + BUFFER_SIZE)
      requires MAX_FILE_SIZE <= |chunks[|chunks| - 1]|
      modifies this`bytesWritten, this`chunkIndex, this`chunks
      ensures Valid() && Stream() == old(Stream())
    {
      NewChunkIsEmpty(chunks);
      chunkIndex := chunkIndex + 1;
      chunks := chunks + [[]];
      bytesWritten := 0;
    }

    method Flush()
      requires writeBuffer.Length == BUFFER_SIZE && bufferUsed < BUFFER_SIZE
      requires ChunksBounded(chunks, MAX_FILE_SIZE)
      requires bytesWritten == |chunks[|chunks| - 1]| && chunkIndex + 1 == |chunks|
      modifies this`bufferUsed, this`bytesWritten, this`chunkIndex, this`chunks
      ensures Valid() && bufferUsed == 0 && Stream() == old(Stream())
    {
      WriteOut();
      if bytesWritten >= MAX_FILE_SIZE {
        Rollover();
      }
    }

    /** One accepted event. It always fits, and the stream grows by exactly its record. */
    method WriteEvent(f: Fields)
      requires Valid() && InRange(f)
      modifies this, writeBuffer
      ensures Valid() && Stream() == old(Stream()) + Encode(format, f)
      ensures eventsWritten == old(eventsWritten) + 1
      ensures eventsWritten % NUM_EVENTS_WRITE == 0 ==> bufferUsed == 0
    {
      var record := Encode(format, f);
      RecordFits(format, f);
      Append(record);
      eventsWritten := eventsWritten + 1;
      assert Stream() == old(Stream()) + record;
      if bufferUsed > BUFFER_SIZE - FLUSH_MARGIN {
        Flush();
      } else if eventsWritten % NUM_EVENTS_WRITE == 0 {
        Flush();
      }
    }

    /** One event of a batch: skipped if its check fails or it is all zero. */
    method ProcessEvent(event: seq<Byte>)
      requires Valid() && |event| == EVENT_SIZE_BYTES
      modifies this, writeBuffer
      ensures Valid()
      ensures Stream() == old(Stream()) + Output(format, event)
    {
      var cutBuffer := CutWords(event);
      var status := CheckCrc(cutBuffer);
      if status != 0 {
        return;
      }
      var f := DecodeFields(cutBuffer);
      CoarseTimeIsLossless(EventBits(event));
      if f.coarse == 0 && f.time16 == 0 && f.energy == 0 {
        return;
      }
      WriteEvent(f);
    }

    /** One data batch: damaged and all-zero events are skipped, the others written in order. */
    method ProcessBatch(payload: seq<Byte>)
      requires Valid()
      modifies this, writeBuffer
      ensures Valid()
      ensures Stream() == old(Stream()) + Encodings(format, payload, |payload| / EVENT_SIZE_BYTES)
      ensures Stream() == old(Stream()) + Flatten(Outputs(format, payload))
    {
      var numEvents := |payload| / EVENT_SIZE_BYTES;
      for e := 0 to numEvents
        invariant Valid()
        invariant Stream() == old(Stream()) + Encodings(format, payload, e)
      {
        EncodingsStep(format, payload, e, old(Stream()));
        ProcessEvent(EventAt(payload, e));
      }
      EncodingsAreOutputs(format, payload);
    }

    /** A CLOSE leaves nothing buffered: the files are the whole stream. */
    method Close()
      requires Valid()
      modifies this
      ensures bufferUsed == 0 && Flatten(chunks) == old(Stream())
      ensures ChunksBounded(chunks, MAX_FILE_SIZE + BUFFER_SIZE)
    {
      if bufferUsed > 0 {
        WriteOut();
      }
      assert Stream() == Flatten(chunks) + [];
    }
  }

  ghost function AllEncodings(format: Format, batches: seq<seq<Byte>>): seq<Byte> {
    if batches == [] then []
    else
      var last := batches[|batches| - 1];
      AllEncodings(format, batches[..|batches| - 1]) + Encodings(format, last, |last| / EVENT_SIZE_BYTES)
  }

  /** The outputs of all events, batch by batch, each cut from its payload. */
  ghost function AllOutputs(format: Format, batches: seq<seq<Byte>>): (all: seq<seq<Byte>>)
    ensures |all| == |batches|
    ensures forall b | 0 <= b < |batches| :: all[b] == Flatten(Outputs(format, batches[b]))
  {
    seq(|batches|, b requires 0 <= b < |batches| => Flatten(Outputs(format, batches[b])))
  }

  lemma {:induction false} EncodingsOfAll(format: Format, batches: seq<seq<Byte>>)
    ensures AllEncodings(format, batches) == Flatten(AllOutputs(format, batches))
  {
    if batches != [] {
      var n := |batches| - 1;
      EncodingsOfAll(format, batches[..n]);
      EncodingsAreOutputs(format, batches[n]);
      assert AllOutputs(format, batches)[..n] == AllOutputs(format, batches[..n]);
    }
  }

  /** A whole acquisition of one source, from OPEN to CLOSE: the chunk payloads in order are the
      records of all accepted events, each event being the 16 bytes at its place in its batch, and
      each chunk stays below 10 GiB plus one buffer. */
  method Acquire(format: Format, eventsBefore: nat, batches: seq<seq<Byte>>) returns (chunks: seq<seq<Byte>>)
    ensures Flatten(chunks) == Flatten(AllOutputs(format, batches))
    ensures chunks != [] && forall chunk | chunk in chunks :: |chunk| < MAX_FILE_SIZE + BUFFER_SIZE
  {
    var writer := new TankWriter(format, eventsBefore);
    for i := 0 to |batches|
      invariant writer.Valid() && fresh(writer) && fresh(writer.writeBuffer) && writer.format == format
      invariant writer.Stream() == AllEncodings(format, batches[..i])
    {
      assert batches[..i + 1][..i] == batches[..i];
      writer.ProcessBatch(batches[i]);
    }
    assert batches[..|batches|] == batches;
    writer.Close();
    chunks := writer.chunks;
    EncodingsOfAll(format, batches);
  }
}
