/** The host's input thread: collapses each backlog and applies it with a staleness check. */
module InputThread {
  import opened Wrappers
  import opened InputEvents

  /** One pass over the backlog; a move right behind a move takes its place. */
  method CoalesceMoves(items: seq<Inbound>) returns (out: seq<Inbound>, dropped: nat)
    ensures out == Coalesced(items)
    ensures |out| + dropped == |items|
  {
    out, dropped := [], 0;
    for i := 0 to |items|
      invariant out == Coalesced(items[..i])
      invariant |out| + dropped == i
    {
      assert items[..i + 1][..i] == items[..i];
      if IsMove(items[i]) && |out| > 0 && IsMove(out[|out| - 1]) {
        out := out[|out| - 1 := items[i]];
        dropped := dropped + 1;
      } else {
        out := out + [items[i]];
      }
    }
    assert items[..|items|] == items;
  }

  /** How many moves of `items` the staleness check skips. */
  function Skipped(p: Permissions, h: Host, items: seq<Inbound>): nat {
    if items == [] then 0
    else
      var front := items[..|items| - 1];
      Skipped(p, h, front) + if IsStale(TakeAll(p, h, front), items[|items| - 1]) then 1 else 0
  }

  class InputThread {
    const perms: Permissions
    var lastMoveSeq: U32
    var at: Option<Inbound>
    var log: seq<Applied>
    var staleMoves: nat

    ghost function State(): Host
      reads this
    {
      Host(lastMoveSeq, Meaning(at, log))
    }

    constructor (perms: Permissions)
      ensures this.perms == perms && State() == FRESH_HOST && staleMoves == 0
    {
      this.perms := perms;
      lastMoveSeq, at, log, staleMoves := 0, None, [], 0;
    }

    /** Takes everything that has arrived; moves that were collapsed or skipped are counted as stale. */
    method WakeUp(backlog: seq<Inbound>)
      modifies this
      ensures State() == TakeBatch(perms, old(State()), backlog)
      ensures staleMoves == old(staleMoves) + |backlog| - |Coalesced(backlog)|
                            + Skipped(perms, old(State()), Coalesced(backlog))
    {
      var batch, dropped := CoalesceMoves(backlog);
      staleMoves := staleMoves + dropped;
      for i := 0 to |batch|
        invariant State() == TakeAll(perms, old(State()), batch[..i])
        invariant staleMoves == old(staleMoves) + dropped + Skipped(perms, old(State()), batch[..i])
      {
        var it := batch[i];
        assert batch[..i + 1][..i] == batch[..i];
        if IsMove(it) {
          if SeqBefore(it.num, lastMoveSeq) {
            staleMoves := staleMoves + 1;
            continue;
          }
          lastMoveSeq := it.num;
        }
        if Allowed(perms, it.ev) {
          if IsMove(it) {
            at := Some(it);
          } else {
            log := log + [Applied(it, at)];
          }
        }
      }
      assert batch[..|batch|] == batch;
    }
  }
}
