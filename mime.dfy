/** Choosing the recording format: the first MIME type of an ordered
    preference list that `MediaRecorder.isTypeSupported` accepts, and the
    options object handed to the `MediaRecorder` constructor. */
module MimeTypes {
  import opened Media

  /** The preference list of RecorderV4.js and the V2 variant. */
  const WebmFirst: seq<string> :=
    ["video/webm;codecs=h264,opus", "video/webm;codecs=vp8,opus", "video/webm", "video/mp4"]

  /** The preference list of the V1 variant. */
  const Mp4First: seq<string> :=
    ["video/mp4;codecs=h264,aac", "video/webm;codecs=vp8,opus", "video/webm", "video/mp4"]

  /** The two types Recorder.js asks about, in the order it asks. */
  const Vp9First: seq<string> := ["video/webm;codecs=vp9", "video/webm"]

  /** The options object: `{}`, `{mimeType}`, or `{mimeType, videoBitsPerSecond, audioBitsPerSecond}`. */
  datatype RecorderOptions =
    | DefaultOptions
    | MimeOnly(mimeType: string)
    | WithBitrates(mimeType: string, videoBitsPerSecond: nat, audioBitsPerSecond: nat)

  /** The index of the first type the predicate accepts, if any. */
  function FirstSupportedIndex(types: seq<string>, isTypeSupported: string -> bool): (r: Option<nat>)
    ensures r.Some? ==> r.value < |types| && isTypeSupported(types[r.value])
    ensures r.Some? ==> forall j :: 0 <= j < r.value ==> !isTypeSupported(types[j])
    ensures r.None? ==> forall j :: 0 <= j < |types| ==> !isTypeSupported(types[j])
  {
    if types == [] then None
    else if isTypeSupported(types[0]) then Some(0)
    else match FirstSupportedIndex(types[1..], isTypeSupported)
      case None => None
      case Some(k) => Some(k + 1)
  }

  /** `types.find(t => MediaRecorder.isTypeSupported(t))`, with None for `undefined`. */
  function PickMimeType(types: seq<string>, isTypeSupported: string -> bool): (r: Option<string>)
    ensures r.Some? ==> r.value in types && isTypeSupported(r.value)
    ensures r.None? <==> forall j :: 0 <= j < |types| ==> !isTypeSupported(types[j])
  {
    match FirstSupportedIndex(types, isTypeSupported)
    case None => None
    case Some(k) => Some(types[k])
  }

  /** Whatever one asks, the pick is determined by the first accepted position:
      a type is picked exactly when it is accepted and no earlier one is. */
  lemma PickIsFirstAccepted(types: seq<string>, isTypeSupported: string -> bool, k: nat)
    requires k < |types| && isTypeSupported(types[k])
    requires forall j :: 0 <= j < k ==> !isTypeSupported(types[j])
    ensures FirstSupportedIndex(types, isTypeSupported) == Some(k)
    ensures PickMimeType(types, isTypeSupported) == Some(types[k])
  {
  }

  /** The `if / else if / else` chain of Recorder.js: vp9, then plain webm, then `{}`. */
  function PreferredOptions(isTypeSupported: string -> bool): (o: RecorderOptions)
    ensures o == match PickMimeType(Vp9First, isTypeSupported)
                 case Some(m) => MimeOnly(m)
                 case None => DefaultOptions
  {
    if isTypeSupported("video/webm;codecs=vp9") then
      PickIsFirstAccepted(Vp9First, isTypeSupported, 0);
      MimeOnly("video/webm;codecs=vp9")
    else if isTypeSupported("video/webm") then
      PickIsFirstAccepted(Vp9First, isTypeSupported, 1);
      MimeOnly("video/webm")
    else
      DefaultOptions
  }

  /** The type a `MediaRecorder` reports: the requested one, or the platform's own
      choice when the options name none. This is an assumption about the platform,
      not a property of the program. */
  function ReportedMimeType(options: RecorderOptions, platformDefault: string): string
  {
    if options.DefaultOptions? then platformDefault else options.mimeType
  }
}
