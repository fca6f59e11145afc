/** The ordered AEAD stream under the lanes, with an ideal cipher.

    A frame is either sealed under a key and a counter, or made up by somebody without the key. A frame
    opens only under its own key and counter. The network may deliver any frames in any order, any number
    of times; what it cannot do is produce a frame sealed under the sender's key that the sender did not
    seal (the idealisation of ChaCha20-Poly1305, section 2.8 of RFC 8439). */
module SecureLink {
  import opened Wrappers
  import opened Octets
  import opened Lanes

  datatype Frame = Sealed(key: nat, counter: nat, plain: Bytes) | Forged(bytes: Bytes)

  datatype ChannelError = Auth | Exhausted

  const COUNTER_MAX: nat := 0xffff_ffff_ffff_ffff

  class Sealer {
    const key: nat
    var counter: nat

    constructor (key: nat)
      ensures this.key == key && counter == 0
    {
      this.key, counter := key, 0;
    }

    /** Seals under the next counter value; the last value of all is refused. */
    method Seal(plain: Bytes) returns (r: Result<Frame, ChannelError>)
      requires counter <= COUNTER_MAX
      modifies this
      ensures old(counter) < COUNTER_MAX ==> r == Ok(Sealed(key, old(counter), plain)) && counter == old(counter) + 1
      ensures old(counter) == COUNTER_MAX ==> r == Err(Exhausted) && counter == old(counter)
    {
      if counter == COUNTER_MAX {
        return Err(Exhausted);
      }
      r := Ok(Sealed(key, counter, plain));
      counter := counter + 1;
    }
  }

  /** What opening `f` at `counter` gives. */
  function OpenAt(key: nat, counter: nat, f: Frame): Result<Bytes, ChannelError> {
    if !(f.Sealed? && f.key == key && f.counter == counter) then Err(Auth)
    else if counter >= COUNTER_MAX then Err(Exhausted)
    else Ok(f.plain)
  }

  class Opener {
    const key: nat
    var counter: nat

    constructor (key: nat)
      ensures this.key == key && counter == 0
    {
      this.key, counter := key, 0;
    }

    /** A frame that does not open leaves the counter where it is. */
    method Open(f: Frame) returns (r: Result<Bytes, ChannelError>)
      modifies this
      ensures r == OpenAt(key, old(counter), f)
      ensures counter == old(counter) + if r.Ok? then 1 else 0
    {
      if !(f.Sealed? && f.key == key && f.counter == counter) {
        return Err(Auth);
      }
      if counter >= COUNTER_MAX {
        return Err(Exhausted);
      }
      r := Ok(f.plain);
      counter := counter + 1;
    }
  }

  /** The receiving side: the opener's counter and the lane reader behind it. */
  datatype Receiver = Receiver(counter: nat, reader: Reader)

  const WAITING := Receiver(0, LISTENING)

  function Deliver(accept: Bytes -> bool, key: nat, r: Receiver, f: Frame): (t: Receiver)
    requires ReaderOk(r.reader)
    ensures ReaderOk(t.reader)
  {
    if !r.reader.listening then r
    else
      match OpenAt(key, r.counter, f)
      case Ok(plain) => Receiver(r.counter + 1, Receive(accept, r.reader, plain))
      case _ => r.(reader := Closed(r.reader))
  }

  function DeliverAll(accept: Bytes -> bool, key: nat, frames: seq<Frame>): (r: Receiver)
    ensures ReaderOk(r.reader)
  {
    if frames == [] then WAITING
    else Deliver(accept, key, DeliverAll(accept, key, frames[..|frames| - 1]), frames[|frames| - 1])
  }

  /** The frames the sender makes of its units. */
  function FramesOf(key: nat, units: seq<Bytes>): (r: seq<Frame>)
    ensures |r| == |units|
    ensures forall i :: 0 <= i < |r| ==> r[i] == Sealed(key, i, units[i])
  {
    seq(|units|, i requires 0 <= i < |units| => Sealed(key, i, units[i]))
  }

  /** Nobody but the sender seals under the sender's key. */
  predicate Unforged(key: nat, units: seq<Bytes>, frames: seq<Frame>) {
    forall i :: 0 <= i < |frames| && frames[i].Sealed? && frames[i].key == key ==>
      frames[i].counter < |units| && frames[i].plain == units[frames[i].counter]
  }

  /** How many frames from the front are, in order, the sender's own first frames. */
  function Genuine(key: nat, units: seq<Bytes>, frames: seq<Frame>): (k: nat)
    ensures k <= |frames| && k <= |units|
  {
    if frames == [] then 0
    else
      var n := |frames| - 1;
      var k := Genuine(key, units, frames[..n]);
      if k == n && k < |units| && frames[n] == Sealed(key, k, units[k]) then k + 1 else k
  }

  lemma {:induction false} GenuineIsCommonPrefix(key: nat, units: seq<Bytes>, frames: seq<Frame>)
    ensures var k := Genuine(key, units, frames);
            && frames[..k] == FramesOf(key, units)[..k]
            && (k < |frames| && k < |units| ==> frames[k] != FramesOf(key, units)[k])
  {
    if frames != [] {
      var n := |frames| - 1;
      GenuineIsCommonPrefix(key, units, frames[..n]);
      var k := Genuine(key, units, frames[..n]);
      assert frames[..n][..k] == frames[..k];
      if k < n {
        assert frames[..n][k] == frames[k];
      }
    }
  }

  /** Whatever the network delivers, the receiver has handed up exactly what it would have after just the
      genuine frames at the front, and is closed if anything else has arrived. */
  lemma {:induction false} OnlyGenuineFramesCount(accept: Bytes -> bool, key: nat, units: seq<Bytes>, frames: seq<Frame>)
    requires |units| <= COUNTER_MAX && Unforged(key, units, frames)
    ensures var k, r := Genuine(key, units, frames), DeliverAll(accept, key, frames);
            var honest := ReceiveAll(accept, units[..k]);
            && (r.reader == honest || r.reader == Closed(honest))
            && (k == |frames| ==> r.reader == honest && (honest.listening ==> r.counter == k))
            && (k < |frames| ==> !r.reader.listening)
    decreases |frames|
  {
    if frames == [] {
      assert units[..0] == [];
    } else {
      var n := |frames| - 1;
      var front := frames[..n];
      OnlyGenuineFramesCount(accept, key, units, front);
      var k, r := Genuine(key, units, front), DeliverAll(accept, key, front);
      if k == n && k < |units| && frames[n] == Sealed(key, k, units[k]) {
        NextUnit(accept, units, k);
      }
    }
  }

  lemma NextUnit(accept: Bytes -> bool, units: seq<Bytes>, k: nat)
    requires k < |units|
    ensures ReceiveAll(accept, units[..k + 1]) == Receive(accept, ReceiveAll(accept, units[..k]), units[k])
  {
    assert units[..k + 1][..k] == units[..k];
  }

  lemma {:induction false} DeliveredGrows(accept: Bytes -> bool, units: seq<Bytes>, k: nat, l: nat)
    requires k <= |units| && l < LANES
    ensures ReceiveAll(accept, units[..k]).delivered[l] <= ReceiveAll(accept, units).delivered[l]
    decreases |units| - k
  {
    if k == |units| {
      assert units[..k] == units;
    } else {
      NextUnit(accept, units, k);
      DeliveredGrows(accept, units, k + 1, l);
    }
  }

  /** Under any delivery of frames, at any moment, each lane has handed up a prefix of the messages the
      sender committed to it. */
  lemma HandedUpIsPrefix(accept: Bytes -> bool, key: nat, steps: seq<Step>, frames: seq<Frame>, l: nat)
    requires l < LANES && Unforged(key, Run(steps).units, frames)
    ensures DeliverAll(accept, key, frames).reader.delivered[l] <= Run(steps).committed[l]
  {
    var units := Run(steps).units;
    OnlyGenuineFramesCount(accept, key, units, frames);
    DeliveredGrows(accept, units, Genuine(key, units, frames), l);
    ReaderInStep(accept, steps);
  }

  /** After the first frame that is not the sender's next one, nothing more is handed up, whatever follows. */
  lemma NothingAfterRejection(accept: Bytes -> bool, key: nat, units: seq<Bytes>, frames: seq<Frame>, i: nat)
    requires |units| <= COUNTER_MAX && Unforged(key, units, frames)
    requires i < |frames| && (i >= |units| || frames[i] != Sealed(key, i, units[i]))
    ensures DeliverAll(accept, key, frames).reader.delivered == DeliverAll(accept, key, frames[..i]).reader.delivered
    ensures !DeliverAll(accept, key, frames).reader.listening
  {
    GenuineStopsAt(key, units, frames, i);
    assert frames[..i + 1][..i] == frames[..i];
    OnlyGenuineFramesCount(accept, key, units, frames[..i + 1]);
    ClosedForGood(accept, key, frames, i + 1);
    assert frames[..i + 1][i] == frames[i];
    RejectedHandsUpNothing(accept, key, units, frames[..i], frames[i]);
  }

  lemma RejectedHandsUpNothing(accept: Bytes -> bool, key: nat, units: seq<Bytes>, front: seq<Frame>, f: Frame)
    requires |units| <= COUNTER_MAX && Unforged(key, units, front + [f])
    requires |front| >= |units| || f != Sealed(key, |front|, units[|front|])
    ensures DeliverAll(accept, key, front + [f]).reader.delivered == DeliverAll(accept, key, front).reader.delivered
  {
    assert (front + [f])[..|front|] == front;
    assert (front + [f])[|front|] == f;
    forall i | 0 <= i < |front|
      ensures (front + [f])[i] == front[i]
    {
    }
    assert Unforged(key, units, front);
    OnlyGenuineFramesCount(accept, key, units, front);
  }

  lemma {:induction false} GenuineStopsAt(key: nat, units: seq<Bytes>, frames: seq<Frame>, i: nat)
    requires i < |frames| && (i >= |units| || frames[i] != Sealed(key, i, units[i]))
    ensures Genuine(key, units, frames[..i + 1]) < i + 1
  {
    assert frames[..i + 1][..i] == frames[..i];
  }

  lemma {:induction false} ClosedForGood(accept: Bytes -> bool, key: nat, frames: seq<Frame>, i: nat)
    requires i <= |frames| && !DeliverAll(accept, key, frames[..i]).reader.listening
    ensures DeliverAll(accept, key, frames) == DeliverAll(accept, key, frames[..i])
    decreases |frames| - i
  {
    if i == |frames| {
      assert frames[..i] == frames;
    } else {
      assert frames[..i + 1][..i] == frames[..i];
      ClosedForGood(accept, key, frames, i + 1);
    }
  }

  /** An undisturbed stream gets every completed message through on every lane. */
  lemma UndisturbedStreamDeliversAll(accept: Bytes -> bool, key: nat, steps: seq<Step>, l: nat)
    requires l < LANES && AllAccepted(accept, Run(steps))
    ensures var r := DeliverAll(accept, key, FramesOf(key, Run(steps).units)).reader;
            r.listening && r.delivered[l] == Completed(Run(steps), l)
  {
    var units := Run(steps).units;
    var frames := FramesOf(key, units);
    GenuineAll(key, units, |units|);
    assert frames[..|units|] == frames && units[..|units|] == units;
    OnlyGenuineFramesCount(accept, key, units, frames);
    FragmentationRoundTrip(accept, steps);
  }

  lemma {:induction false} GenuineAll(key: nat, units: seq<Bytes>, n: nat)
    requires n <= |units|
    ensures Genuine(key, units, FramesOf(key, units)[..n]) == n
  {
    if n > 0 {
      GenuineAll(key, units, n - 1);
      assert FramesOf(key, units)[..n][..n - 1] == FramesOf(key, units)[..n - 1];
    }
  }

  /** Replaying, reordering, dropping or reflecting even one frame ends the stream at that point. */
  lemma EveryDisturbanceIsNoticed(accept: Bytes -> bool, key: nat, units: seq<Bytes>, frames: seq<Frame>)
    requires |units| <= COUNTER_MAX && Unforged(key, units, frames)
    ensures DeliverAll(accept, key, frames).reader.listening ==>
              |frames| <= |units| && frames == FramesOf(key, units)[..|frames|]
  {
    OnlyGenuineFramesCount(accept, key, units, frames);
    GenuineIsCommonPrefix(key, units, frames);
    assert frames[..|frames|] == frames;
  }

  /** Whatever is delivered, the counter stays within its 64 bits, and once it is used up nothing more opens. */
  lemma {:induction false} CounterStaysInRange(accept: Bytes -> bool, key: nat, frames: seq<Frame>)
    ensures DeliverAll(accept, key, frames).counter <= COUNTER_MAX
    ensures forall f :: OpenAt(key, COUNTER_MAX, f).Err?
  {
    if frames != [] {
      CounterStaysInRange(accept, key, frames[..|frames| - 1]);
    }
  }
}
