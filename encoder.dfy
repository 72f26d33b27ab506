/** A `MediaRecorder` together with the closure array `chunks` its
    `ondataavailable` handler fills. The encoder's `state`, the bytes it has
    encoded but not yet handed out, and the queued end-of-recording events are
    explicit; the ghost `captured` is everything it ever encoded. */
module Encoding {
  import opened Media
  import opened MimeTypes

  datatype RecorderState = Inactive | Recording | Paused

  /** What `stop()` has queued and not yet delivered: a last `dataavailable`
      followed by `stop`, or only the `stop`. */
  datatype StopEvents = NotStopping | DataThenStop | StopOnly

  class Encoder {
    const options: RecorderOptions
    /** `mediaRecorder.mimeType`. */
    const mimeType: string
    var state: RecorderState
    /** The argument of `start(timeslice)`. */
    var timeslice: Option<nat>
    /** Encoded bytes not yet delivered in a `dataavailable` event. */
    var buffer: seq<byte>
    /** The closure array: every non-empty payload delivered, in order. */
    var chunks: seq<Chunk>
    var queued: StopEvents
    ghost var captured: seq<byte>

    /** Nothing encoded is lost or reordered: the chunks handed out, followed by
        the pending bytes, are exactly what was encoded. */
    ghost predicate Valid()
      reads this
    {
      Concat(chunks) + buffer == captured
      && (forall i :: 0 <= i < |chunks| ==> |chunks[i]| > 0)
      && (queued != NotStopping ==> state == Inactive)
      && (queued == StopOnly ==> buffer == [])
    }

    /** `new MediaRecorder(stream, options)` with a fresh `chunks = []`. */
    constructor (options: RecorderOptions, platformDefault: string)
      ensures Valid() && this.options == options
      ensures mimeType == ReportedMimeType(options, platformDefault)
      ensures state == Inactive && queued == NotStopping && timeslice == None
      ensures buffer == [] && chunks == [] && captured == []
    {
      this.options := options;
      mimeType := ReportedMimeType(options, platformDefault);
      state := Inactive;
      timeslice := None;
      buffer := [];
      chunks := [];
      queued := NotStopping;
      captured := [];
    }

    /** `start(timeslice)`. */
    method Start(slice: Option<nat>)
      requires Valid() && state == Inactive && queued == NotStopping
      modifies this
      ensures Valid() && state == Recording && timeslice == slice && queued == NotStopping
      ensures buffer == old(buffer) && chunks == old(chunks) && captured == old(captured)
    {
      state := Recording;
      timeslice := slice;
    }

    /** The encoder turning captured media into bytes; it only runs while recording. */
    method Capture(data: seq<byte>)
      requires Valid() && state == Recording
      modifies this
      ensures Valid() && state == Recording && queued == old(queued) && timeslice == old(timeslice)
      ensures buffer == old(buffer) + data && chunks == old(chunks)
      ensures captured == old(captured) + data
    {
      buffer := buffer + data;
      captured := captured + data;
    }

    /** A `dataavailable` event, whether the timeslice elapsed, `requestData()` was
        called, or it is the last one `stop()` queued. Its payload is every pending
        byte; the handler keeps it only when `e.data.size > 0`. */
    method Emit() returns (data: Chunk)
      requires Valid() && (state != Inactive || queued == DataThenStop)
      modifies this
      ensures Valid() && state == old(state) && timeslice == old(timeslice)
      ensures data == old(buffer) && buffer == [] && captured == old(captured)
      ensures chunks == old(chunks) + (if |data| > 0 then [data] else [])
      ensures queued == (if old(queued) == DataThenStop then StopOnly else old(queued))
    {
      data := buffer;
      if |data| > 0 {
        ConcatAppend(chunks, data);
        assert forall i :: 0 <= i < |chunks + [data]| ==> |(chunks + [data])[i]| > 0 by {
          forall i | 0 <= i < |chunks + [data]| ensures |(chunks + [data])[i]| > 0 {
            if i < |chunks| {
              assert (chunks + [data])[i] == chunks[i];
            }
          }
        }
        chunks := chunks + [data];
      }
      assert Concat(chunks) + [] == captured;
      buffer := [];
      if queued == DataThenStop {
        queued := StopOnly;
      }
    }

    /** `pause()`. */
    method Pause()
      requires Valid() && state != Inactive
      modifies this
      ensures Valid() && state == Paused && queued == old(queued) && timeslice == old(timeslice)
      ensures buffer == old(buffer) && chunks == old(chunks) && captured == old(captured)
    {
      state := Paused;
    }

    /** `resume()`. */
    method Resume()
      requires Valid() && state != Inactive
      modifies this
      ensures Valid() && state == Recording && queued == old(queued) && timeslice == old(timeslice)
      ensures buffer == old(buffer) && chunks == old(chunks) && captured == old(captured)
    {
      state := Recording;
    }

    /** `stop()`: the recorder becomes inactive at once and queues a last
        `dataavailable` followed by `stop`. */
    method Stop()
      requires Valid() && state != Inactive
      modifies this
      ensures Valid() && state == Inactive && queued == DataThenStop && timeslice == old(timeslice)
      ensures buffer == old(buffer) && chunks == old(chunks) && captured == old(captured)
    {
      state := Inactive;
      queued := DataThenStop;
    }

    /** The `stop` event: the handler builds its Blob from the whole closure array,
        which by then holds every byte the encoder produced. */
    method Finish() returns (payload: seq<byte>)
      requires Valid() && queued == StopOnly
      modifies this
      ensures Valid() && state == Inactive && queued == NotStopping
      ensures buffer == [] && chunks == old(chunks) && captured == old(captured)
      ensures payload == Concat(chunks) && payload == captured
      ensures payload == [] <==> chunks == []
    {
      queued := NotStopping;
      payload := Concat(chunks);
      NonEmptyChunks(chunks);
    }
  }

  /** A list of non-empty chunks has no bytes only when it is empty: `chunks.length > 0`
      and "the Blob has content" are the same test. */
  lemma {:induction false} NonEmptyChunks(chunks: seq<Chunk>)
    requires forall i :: 0 <= i < |chunks| ==> |chunks[i]| > 0
    ensures Concat(chunks) == [] <==> chunks == []
  {
    if chunks != [] {
      assert |Concat(chunks)| >= |chunks[0]|;
    }
  }
}
