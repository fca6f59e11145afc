/** The sending side of a transfer: an accepted file is streamed in chunks and closed with its digest. */
module FileSender {
  import opened Wrappers
  import opened Octets
  import opened Files
  import T = Transfer

  /** Streams the file from the offset the receiver asked for. `give` is how many bytes the system hands over
      for a read at an offset: short reads are allowed. */
  method StreamFile(j: T.Job, id: T.Id, resumeFrom: nat, give: nat -> nat) returns (sent: seq<T.Bulk>)
    requires resumeFrom <= |j.source|
    requires forall at: nat :: at < |j.source| ==> 1 <= give(at) <= CHUNK && at + give(at) <= |j.source|
    ensures T.Flows(j, sent, id, resumeFrom, |j.source| + 1)
    ensures forall i :: 0 <= i < |sent| && sent[i].Chunk? ==> 1 <= |sent[i].data| <= CHUNK
    ensures sent != [] && sent[|sent| - 1] == T.Done(id, j.hash(j.source))
  {
    var file := new OutgoingFile(j.source);
    file.SeekTo(resumeFrom);
    sent := [];
    var more := true;
    while more
      invariant fresh(file) && file.content == j.source && resumeFrom <= file.offset <= |j.source|
      invariant T.Flows(j, sent, id, resumeFrom, file.offset)
      invariant forall i :: 0 <= i < |sent| && sent[i].Chunk? ==> 1 <= |sent[i].data| <= CHUNK
      invariant !more ==> file.offset == |j.source|
      decreases |j.source| - file.offset, more
    {
      ghost var at := file.offset;
      var chunk := file.NextChunk(give(file.offset));
      match chunk {
        case Some(c) =>
          var m := T.Chunk(id, c.0, c.1);
          T.FlowsSnoc(j, sent, m, id, resumeFrom, at, file.offset);
          sent := sent + [m];
        case None =>
          more := false;
      }
    }
    var done := T.Done(id, j.hash(j.source));
    T.FlowsSnoc(j, sent, done, id, resumeFrom, |j.source|, |j.source| + 1);
    sent := sent + [done];
  }
}
