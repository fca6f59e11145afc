/** Chunked, resumable file input and output: the `.part` file, offsets, and verification at the end. */
module Files {
  import opened Wrappers
  import opened Octets

  type Digest = nat

  const CHUNK: nat := 64 * 1024

  datatype FileError = TooLarge | OutOfOrder | Mismatch | Io

  /** What the system refuses while a file is finished: to write it out, to read it back, or to move it. */
  datatype Fault = NoFault | Flush | Read | Move

  /** How much of a kept part file is reused: all of it, or nothing when it is longer than the file itself. */
  function Kept(part: Option<Bytes>, expected: nat, resume: bool): nat {
    if resume && part.Some? && |part.value| <= expected then |part.value| else 0
  }

  /** The part file after opening it: reused, or emptied. */
  function OpenedPart(part: Option<Bytes>, expected: nat, resume: bool): Bytes {
    if Kept(part, expected, resume) > 0 then part.value else []
  }

  lemma OpenedPartIsKept(part: Option<Bytes>, expected: nat, resume: bool)
    ensures |OpenedPart(part, expected, resume)| == Kept(part, expected, resume) <= expected
  {
  }

  predicate Fits(received: nat, expected: nat, offset: nat, data: Bytes) {
    offset == received && received + |data| <= expected
  }

  /** A file after writing `data` at `offset`. */
  function Overwritten(file: Bytes, offset: nat, data: Bytes): Bytes
    requires offset <= |file|
  {
    file[..offset] + data + if offset + |data| <= |file| then file[offset + |data|..] else []
  }

  lemma AppendsAtTheEnd(file: Bytes, data: Bytes)
    ensures Overwritten(file, |file|, data) == file + data
  {
    assert file[..|file|] == file;
    if data == [] {
      assert file[|file|..] == [];
    }
  }

  /** A finished file is read back and found to have another digest. */
  predicate Mismatches(received: nat, expected: nat, found: Digest, digest: Digest, fault: Fault) {
    received == expected && !fault.Flush? && !fault.Read? && found != digest
  }

  /** The two names of one incoming file on disk. */
  class Disk {
    var part: Option<Bytes>
    var target: Option<Bytes>

    constructor (part: Option<Bytes>, target: Option<Bytes>)
      ensures this.part == part && this.target == target
    {
      this.part, this.target := part, target;
    }
  }

  class IncomingFile {
    const disk: Disk
    const expected: nat
    var received: nat

    /** The part file holds exactly what was received. */
    ghost predicate Valid()
      reads this, disk
    {
      disk.part.Some? && |disk.part.value| == received <= expected
    }

    /** What is left of an earlier attempt is kept if it can be part of the file, and counts as received. */
    constructor (disk: Disk, expected: nat, resume: bool)
      modifies disk
      ensures Valid() && this.disk == disk && this.expected == expected
      ensures received == Kept(old(disk.part), expected, resume)
      ensures disk.part == Some(OpenedPart(old(disk.part), expected, resume)) && disk.target == old(disk.target)
    {
      OpenedPartIsKept(disk.part, expected, resume);
      this.disk, this.expected := disk, expected;
      var existing := if resume && disk.part.Some? then |disk.part.value| else 0;
      existing := if existing <= expected then existing else 0;
      received := existing;
      new;
      if existing == 0 {
        disk.part := Some([]);
      }
    }

    /** Appends a chunk that continues the file. The disk may take only the first `reached` bytes: then the
        write fails, and the object must be dropped. */
    method WriteChunk(offset: nat, data: Bytes, reached: nat) returns (failed: Option<FileError>)
      requires Valid() && reached <= |data|
      modifies this`received, disk`part
      ensures failed.None? <==> Fits(old(received), expected, offset, data) && reached == |data|
      ensures failed == Some(OutOfOrder) <==> !Fits(old(received), expected, offset, data)
      ensures failed.None? ==> Valid() && received == old(received) + |data|
      ensures Fits(old(received), expected, offset, data) ==> disk.part == Some(old(disk.part.value) + data[..reached])
      ensures failed == Some(OutOfOrder) ==> Valid() && disk.part == old(disk.part)
      ensures failed.Some? ==> received == old(received)
    {
      if offset != received || received + |data| > expected {
        return Some(OutOfOrder);
      }
      AppendsAtTheEnd(disk.part.value, data[..reached]);
      disk.part := Some(Overwritten(disk.part.value, offset, data[..reached]));
      if reached < |data| {
        return Some(Io);
      }
      received := received + |data|;
      failed := None;
    }

    /** Only a complete file with the right digest gets its name; one with another digest is thrown away, and after
        any other failure the next attempt can go on from it. */
    method Finish(hash: Bytes -> Digest, digest: Digest, fault: Fault) returns (failed: Option<FileError>)
      requires Valid()
      modifies disk
      ensures failed.None? <==> fault.NoFault? && received == expected && hash(old(disk.part.value)) == digest
      ensures failed.None? ==> disk.target == old(disk.part) && |disk.target.value| == expected && disk.part == None
      ensures failed.Some? ==> disk.target == old(disk.target)
      ensures failed.Some? ==>
                disk.part == if Mismatches(received, expected, hash(old(disk.part.value)), digest, fault) then None
                             else old(disk.part)
    {
      if fault.Flush? {
        return Some(Io);
      }
      if received != expected {
        return Some(OutOfOrder);
      }
      if fault.Read? {
        return Some(Io);
      }
      if hash(disk.part.value) != digest {
        disk.part := None;
        return Some(Mismatch);
      }
      if fault.Move? {
        return Some(Io);
      }
      disk.target := disk.part;
      disk.part := None;
      failed := None;
    }
  }

  /** Opens or resumes an incoming file, unless it is announced to be larger than the policy allows. */
  method OpenIncoming(disk: Disk, expected: nat, max: nat, resume: bool) returns (r: Result<IncomingFile, FileError>)
    modifies disk
    ensures r.Err? <==> expected > max
    ensures r.Err? ==> r.error == TooLarge && disk.part == old(disk.part) && disk.target == old(disk.target)
    ensures r.Ok? ==>
              && fresh(r.value) && r.value.Valid() && r.value.disk == disk && r.value.expected == expected
              && r.value.received == Kept(old(disk.part), expected, resume)
              && disk.part == Some(OpenedPart(old(disk.part), expected, resume)) && disk.target == old(disk.target)
  {
    if expected > max {
      return Err(TooLarge);
    }
    var file := new IncomingFile(disk, expected, resume);
    r := Ok(file);
  }

  class OutgoingFile {
    const content: Bytes
    var offset: nat

    constructor (content: Bytes)
      ensures this.content == content && offset == 0
    {
      this.content, offset := content, 0;
    }

    method SeekTo(offset: nat)
      modifies this
      ensures this.offset == offset
    {
      this.offset := offset;
    }

    /** One read, of as many bytes as the system hands over; None once nothing is left. */
    method NextChunk(read: nat) returns (chunk: Option<(nat, Bytes)>)
      requires offset < |content| ==> 1 <= read <= CHUNK && offset + read <= |content|
      modifies this
      ensures chunk.None? <==> old(offset) >= |content|
      ensures chunk.None? ==> offset == old(offset)
      ensures chunk.Some? ==> chunk.value.0 == old(offset) && offset == old(offset) + |chunk.value.1|
      ensures chunk.Some? ==> |chunk.value.1| == read && chunk.value.1 == content[old(offset)..offset]
    {
      if offset >= |content| {
        return None;
      }
      var at := offset;
      offset := offset + read;
      chunk := Some((at, content[at..offset]));
    }
  }
}
