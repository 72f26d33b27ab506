/** Values shared by every recorder variant: bytes and chunks, blobs and history
    entries, the facing mode, the webcam element as the handlers see it, and the
    notices the page shows. */
module Media {

  datatype Option<+T> = None | Some(value: T)

  newtype byte = x: int | 0 <= x < 256

  /** One `dataavailable` payload; its `size` is its length. */
  type Chunk = seq<byte>

  /** The bytes of a Blob built from a chunk list: the chunks one after another. */
  function Concat(chunks: seq<Chunk>): seq<byte>
  {
    if chunks == [] then [] else chunks[0] + Concat(chunks[1..])
  }

  /** Appending one chunk appends its bytes: arrival order is the byte order. */
  lemma {:induction false} ConcatAppend(chunks: seq<Chunk>, c: Chunk)
    ensures Concat(chunks + [c]) == Concat(chunks) + c
  {
    if chunks == [] {
      assert chunks + [c] == [c];
      assert [c][1..] == [];
    } else {
      assert (chunks + [c])[0] == chunks[0];
      assert (chunks + [c])[1..] == chunks[1..] + [c];
      ConcatAppend(chunks[1..], c);
    }
  }

  /** `s` is what is left of `t` after dropping some prefix. */
  ghost predicate IsSuffix<T>(s: seq<T>, t: seq<T>)
  {
    |s| <= |t| && t[|t| - |s|..] == s
  }

  lemma SuffixExtend<T>(s: seq<T>, t: seq<T>, x: T)
    requires IsSuffix(s, t)
    ensures IsSuffix(s + [x], t + [x])
  {
    assert (t + [x])[|t + [x]| - |s + [x]|..] == t[|t| - |s|..] + [x];
  }

  /** A Blob: its bytes and its `type`. */
  datatype Blob = Blob(payload: seq<byte>, mimeType: string)

  /** A history entry `{blob, url, timestamp}`; the object URL is identified with the blob. */
  datatype Artifact = Artifact(blob: Blob, timestamp: string)

  /** What a click on the generated download anchor saves. */
  datatype Download = Download(fileName: string, payload: seq<byte>)

  datatype Facing = User | Environment

  /** The facing-mode toggle `facingMode === 'user' ? 'environment' : 'user'`. */
  function Flip(f: Facing): (g: Facing)
    ensures g != f
  {
    if f == User then Environment else User
  }

  /** The tracks of a stream, counted by kind. */
  datatype Tracks = Tracks(videoTracks: nat, audioTracks: nat)

  /** What `webcamRef.current` offers when a handler runs: whether it has a video
      element, the stream it holds (None when the ref or its stream is missing),
      and the video element's intrinsic size. */
  datatype Webcam = Webcam(video: bool, stream: Option<Tracks>, videoWidth: nat, videoHeight: nat)

  /** Why `startActualRecording` threw. */
  datatype StartFailure =
    | CameraOrCanvasMissing
    | StreamMissing
    | NoVideoTrack
    | NoAudioTrack
    | NoSupportedFormat

  /** How a `startActualRecording` attempt ends: a recorder on the chosen type, or the error it threw. */
  datatype StartOutcome = Started(mimeType: string) | Failed(reason: StartFailure)

  /** The transient `error` message, by kind. */
  datatype Notice =
    | CameraAccessFailed
    | SwitchCameraFailed
    | NoActiveStream
    | StartFailed(reason: StartFailure)
    | NothingSelected
}
