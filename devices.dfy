/** The camera stream a recorder holds in `streamRef`, and the streams whose
    tracks are still running. A stream is a number; acquiring one is
    `getUserMedia`, whose outcome the caller supplies. */
module Devices {
  import opened Media

  datatype Stream = Stream(id: nat, facing: Facing)

  /** A set inside which every element is one given value has at most one element. */
  lemma AtMostOneLive(live: set<nat>, held: Option<Stream>)
    requires forall id :: id in live ==> held.Some? && id == held.value.id
    ensures |live| <= 1
  {
    if live != {} {
      var id :| id in live;
      assert live == {id};
    }
  }

  class DeviceStreams {
    /** `streamRef.current`. */
    var current: Option<Stream>
    /** The streams `openCamera`/`toggleCamera` requested whose tracks have not been
        stopped. The `Webcam` element's own stream is not among them. */
    var live: set<nat>
    var nextId: nat

    ghost predicate Valid()
      reads this
    {
      (forall id :: id in live ==> id < nextId)
      && (current.Some? ==> current.value.id < nextId)
    }

    /** Every running requested stream is the one `streamRef` holds. */
    ghost predicate NoLeak()
      reads this
    {
      forall id :: id in live ==> current.Some? && id == current.value.id
    }

    constructor ()
      ensures Valid() && NoLeak() && current == None && live == {} && nextId == 0
    {
      current := None;
      live := {};
      nextId := 0;
    }

    /** `streamRef.current.getTracks().forEach(track => track.stop())` when the ref is set;
        the ref itself keeps the stopped stream. */
    method StopTracks()
      requires Valid()
      modifies this
      ensures Valid() && current == old(current) && nextId == old(nextId)
      ensures live == if current.Some? then old(live) - {current.value.id} else old(live)
      ensures old(NoLeak()) ==> live == {}
    {
      if current.Some? {
        live := live - {current.value.id};
      }
    }

    /** `await getUserMedia(...)`: a fresh running stream when the platform grants it. */
    method Acquire(facing: Facing, granted: bool) returns (s: Option<Stream>)
      requires Valid()
      modifies this
      ensures Valid() && current == old(current)
      ensures granted ==> s == Some(Stream(old(nextId), facing)) && old(nextId) !in old(live)
                          && live == old(live) + {old(nextId)} && nextId == old(nextId) + 1
      ensures !granted ==> s == None && live == old(live) && nextId == old(nextId)
    {
      if granted {
        s := Some(Stream(nextId, facing));
        live := live + {nextId};
        nextId := nextId + 1;
      } else {
        s := None;
      }
    }

    /** `streamRef.current = stream`. */
    method Hold(s: Stream)
      requires Valid() && s.id < nextId
      modifies this
      ensures Valid() && current == Some(s) && live == old(live) && nextId == old(nextId)
    {
      current := Some(s);
    }

    /** `stream.getTracks().forEach(track => track.stop())` on a stream the ref does not hold. */
    method StopStream(s: Stream)
      requires Valid()
      modifies this
      ensures Valid() && current == old(current) && nextId == old(nextId)
      ensures live == old(live) - {s.id}
    {
      live := live - {s.id};
    }

    /** The camera-closing step: stop the held stream's tracks and clear the ref. */
    method Release()
      requires Valid()
      modifies this
      ensures Valid() && current == None && nextId == old(nextId)
      ensures live == if old(current).Some? then old(live) - {old(current).value.id} else old(live)
      ensures old(NoLeak()) ==> live == {} && NoLeak()
    {
      StopTracks();
      current := None;
    }
  }
}
