/** The receiving side with any number of transfers of one name, and a file in place or not. */
module PartReceiver {
  import opened Wrappers
  import opened Octets
  import opened Files
  import S = PartSharing

  class PartReceiver {
    const hash: Bytes -> Digest
    var part: Option<nat>
    var target: Option<nat>
    var files: seq<Bytes>
    var live: map<S.Id, S.Handle>

    ghost function State(): S.World
      reads this
    {
      S.World(part, target, files, live)
    }

    constructor (hash: Bytes -> Digest)
      ensures this.hash == hash && State() == S.NOTHING_YET
    {
      this.hash := hash;
      part, target, files, live := None, None, [], map[];
    }

    /** An accepted offer: a part file without a finished one is resumed, whoever else has it open. */
    method StartIncoming(id: S.Id, expected: nat) returns (from: nat)
      requires S.Sound(State()) && id !in live
      modifies this
      ensures State() == S.Next(hash, old(State()), S.Start(id, expected))
      ensures id in live && live[id].received == from <= expected
      ensures from > 0 ==> old(part).Some? && old(target).None? && from == |old(files)[old(part).value]|
    {
      if part.Some? && target.None? {
        var n := part.value;
        OpenedPartIsKept(Some(files[n]), expected, true);
        from := Kept(Some(files[n]), expected, true);
        if from == 0 {
          files := files[n := []];
        }
        live := live[id := S.Handle(n, true, expected, from)];
      } else {
        var free := part.None? && target.None?;
        if free {
          part := Some(|files|);
        }
        live := live[id := S.Handle(|files|, free, expected, 0)];
        files := files + [[]];
        from := 0;
      }
    }

    method OnChunk(id: S.Id, offset: nat, data: Bytes, reached: nat)
      requires S.Sound(State())
      modifies this
      ensures State() == S.Next(hash, old(State()), S.Chunk(id, offset, data, reached))
    {
      if id !in live {
        return;
      }
      var h := live[id];
      if offset != h.received || h.received + |data| > h.expected {
        live := live - {id};
        return;
      }
      var got := if reached < |data| then data[..reached] else data;
      files := files[h.file := S.Written(files[h.file], offset, got)];
      if reached < |data| {
        live := live - {id};
      } else {
        live := live[id := h.(received := h.received + |data|)];
      }
    }

    /** Finishing goes by name: whatever bears the part name is read back, and moved. */
    method OnDone(id: S.Id, digest: Digest, fault: Fault) returns (ok: bool)
      requires S.Sound(State())
      modifies this
      ensures State() == S.Next(hash, old(State()), S.Finish(id, digest, fault))
      ensures ok <==>
                && id in old(live) && old(live)[id].received == old(live)[id].expected && fault.NoFault?
                && var h := old(live)[id];
                   if h.named then old(part).Some? && hash(files[old(part).value]) == digest
                   else hash(files[h.file]) == digest
      ensures ok && old(live)[id].named ==> target == old(part)
    {
      if id !in live {
        return false;
      }
      var h := live[id];
      live := live - {id};
      if fault.Flush? || h.received != h.expected || fault.Read? {
        return false;
      }
      if !h.named {
        return hash(files[h.file]) == digest && !fault.Move?;
      }
      if part.None? {
        return false;
      }
      if hash(files[part.value]) != digest {
        part := None;
        return false;
      }
      if fault.Move? {
        return false;
      }
      target, part := part, None;
      ok := true;
    }

    /** Cancelled on either side, the part file stays. */
    method Close(id: S.Id)
      modifies this
      ensures State() == S.Next(hash, old(State()), S.Close(id))
    {
      live := live - {id};
    }
  }
}
