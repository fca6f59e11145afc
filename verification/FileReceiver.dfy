/** The receiving side of a transfer: what it does to its open part file and on disk, message by message. */
module FileReceiver {
  import opened Wrappers
  import opened Octets
  import opened Files
  import T = Transfer

  class FileReceiver {
    const hash: Bytes -> Digest
    const size: nat
    const max: nat
    const disk: Disk
    var pending: set<T.Id>
    var incoming: Option<IncomingFile>
    var current: T.Id
    var outbox: seq<T.Answer>

    /** The receiver's part of a transfer in state `w`. */
    ghost predicate Shows(j: T.Job, w: T.World)
      reads this, disk, if incoming.Some? then {incoming.value} else {}
    {
      && hash == j.hash && size == |j.source| && max == j.max && pending == w.waiting
      && w.part == disk.part && w.target == disk.target && w.answers == outbox
      && match incoming
         case None => w.live == None
         case Some(f) =>
           f.disk == disk && f.expected == size && f.Valid() && w.live == Some(T.Live(current, f.received))
    }

    constructor (hash: Bytes -> Digest, size: nat, max: nat, disk: Disk)
      ensures forall j: T.Job :: j.hash == hash && |j.source| == size && j.max == max ==>
                Shows(j, T.Connected(disk.part, disk.target))
      ensures this.disk == disk && incoming == None
    {
      this.hash, this.size, this.max, this.disk := hash, size, max, disk;
      pending, incoming, current, outbox := {}, None, 0, [];
    }

    /** An offer waits for the local user, unless the file is too large. */
    method OnOffer(id: T.Id, ghost j: T.Job, ghost w: T.World)
      requires Shows(j, w)
      modifies this
      ensures Shows(j, T.OnOffer(j, w, id))
    {
      if size > max {
        outbox := outbox + [T.Reject(id)];
      } else {
        pending := pending + {id};
      }
    }

    /** The local user's answer is no. */
    method Decline(id: T.Id, ghost j: T.Job, ghost w: T.World)
      requires Shows(j, w)
      modifies this
      ensures Shows(j, T.Declined(w, id))
    {
      if id in pending {
        pending := pending - {id};
        outbox := outbox + [T.Reject(id)];
      }
    }

    /** Opens the part file for an approved offer, resuming whatever is there. */
    method StartIncoming(id: T.Id, ghost j: T.Job, ghost w: T.World)
      requires Shows(j, w) && w.live.None? && w.target.None?
      modifies this, disk
      ensures Shows(j, T.Approved(j, w, id))
    {
      var resume := disk.part.Some? && disk.target.None?;
      pending := pending - {id};
      var result := OpenIncoming(disk, size, max, resume);
      OpenedPartIsKept(w.part, size, resume);
      match result {
        case Ok(file) =>
          incoming, current := Some(file), id;
          outbox := outbox + [T.Accept(id, file.received)];
        case Err(_) =>
          outbox := outbox + [T.Reject(id)];
      }
    }

    method OnChunk(m: T.Bulk, reached: nat, ghost j: T.Job, ghost w: T.World)
      requires Shows(j, w) && m.Chunk?
      modifies this, disk, if incoming.Some? then {incoming.value} else {}
      ensures Shows(j, T.OnChunk(j, w, m, reached))
    {
      if incoming.None? || current != m.id {
        return;
      }
      var got := if reached < |m.data| then reached else |m.data|;
      var failed := incoming.value.WriteChunk(m.offset, m.data, got);
      assert m.data[..|m.data|] == m.data;
      if failed.Some? {
        incoming := None;
        outbox := outbox + [T.Stop(m.id)];
      }
    }

    method OnDone(m: T.Bulk, fault: Fault, ghost j: T.Job, ghost w: T.World)
      requires Shows(j, w) && m.Done?
      modifies this, disk
      ensures Shows(j, T.OnDone(j, w, m, fault))
    {
      if incoming.None? || current != m.id {
        return;
      }
      var file := incoming.value;
      incoming := None;
      var failed := file.Finish(hash, m.digest, fault);
      outbox := outbox + [T.Verified(m.id, failed.None?)];
    }

    /** The sender withdrew: the part file is closed but kept. */
    method OnWithdraw(id: T.Id, ghost j: T.Job, ghost w: T.World)
      requires Shows(j, w)
      modifies this
      ensures Shows(j, if w.live.Some? && w.live.value.id == id then w.(live := None) else w)
    {
      if incoming.Some? && current == id {
        incoming := None;
      }
    }

    /** The local user cancels: the part file is closed but kept, and the sender is told. */
    method Abort(ghost j: T.Job, ghost w: T.World)
      requires Shows(j, w)
      modifies this
      ensures Shows(j, T.Next(j, w, T.Abort))
    {
      if incoming.Some? {
        incoming := None;
        outbox := outbox + [T.Stop(current)];
      }
    }
  }
}
