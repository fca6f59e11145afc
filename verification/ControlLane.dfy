/** The viewer's half of the input pipeline: the senders' slot and channel and the writer's queue. */
module ControlLane {
  import opened Wrappers
  import opened InputEvents
  import opened InputPipeline

  class ControlLane {
    var slot: Option<Stamped>
    var held: Option<Stamped>
    var channel: seq<Item>
    var deque: seq<Item>
    var sealed: seq<Item>
    var movesCoalesced: nat
    ghost var newest: nat
    ghost var sent: seq<Stamped>
    ghost var queued: seq<Item>

    /** The whole pipeline, given the host's half of it. */
    ghost function On(host: Pipe): Pipe
      reads this
    {
      host.(slot := slot, held := held, channel := channel, deque := deque, sealed := sealed,
      newest := newest, sent := sent, queued := queued, coalesced := movesCoalesced)
    }

    constructor ()
      ensures On(EMPTY) == EMPTY
    {
      slot, held := None, None;
      channel, deque, sealed := [], [], [];
      movesCoalesced := 0;
      newest, sent, queued := 0, [], [];
    }

    /** At most one position waits outside the channel, and it is the latest. */
    method SendMove(m: Stamped)
      requires m.ev.MouseMove? && held.None?
      modifies this
      ensures forall p, host :: On(host) == Next(p, old(On(host)), Step.SendMove(m))
    {
      if slot.Some? {
        movesCoalesced := movesCoalesced + 1;
      }
      slot := Some(m);
      newest, sent := m.n, sent + [m];
    }

    /** A click, key or the like begins by sending the waiting position ahead, and keeps the lock. */
    method LockSend(e: Stamped)
      requires !e.ev.MouseMove? && held.None?
      modifies this
      ensures forall p, host :: On(host) == Next(p, old(On(host)), Step.LockSend(e))
    {
      if slot.Some? {
        channel := channel + [Input(slot.value)];
      }
      slot := None;
      held := Some(e);
      newest, sent := e.n, sent + [e];
    }

    /** Second half: queue the event itself and leave the lock. */
    method FinishSend()
      requires held.Some?
      modifies this
      ensures forall p, host :: On(host) == Next(p, old(On(host)), Step.FinishSend)
    {
      channel := channel + [Input(held.value)];
      queued := queued + [Input(held.value)];
      held := None;
    }

    method Send(id: nat)
      modifies this
      ensures forall p, host :: On(host) == Next(p, old(On(host)), Step.SendOther(id))
    {
      channel := channel + [Other(id)];
      queued := queued + [Other(id)];
    }

    /** Two positions never wait next to each other at the back of the queue. */
    method PushCtl(item: Item)
      modifies this`deque, this`movesCoalesced
      ensures forall host :: On(host) == Pushed(old(On(host)), item)
    {
      if IsMoveItem(item) && deque != [] {
        if IsMoveItem(deque[|deque| - 1]) {
          deque := deque[|deque| - 1 := item];
          movesCoalesced := movesCoalesced + 1;
          return;
        }
      }
      deque := deque + [item];
    }

    /** The writer receives one message from the channel. */
    method DrainOne()
      requires channel != []
      modifies this
      ensures forall p, host :: On(host) == Next(p, old(On(host)), Step.DrainOne)
    {
      var item := channel[0];
      channel := channel[1..];
      PushCtl(item);
    }

    /** The writer takes the waiting position; it can only do so while no sender holds the lock. */
    method TakeSlot()
      requires held.None?
      modifies this
      ensures forall p, host :: On(host) == Next(p, old(On(host)), Step.TakeSlot)
    {
      if slot.Some? {
        var m := slot.value;
        slot := None;
        PushCtl(Input(m));
      }
    }

    /** The writer seals the message at the front of its queue. */
    method SealFront() returns (item: Item)
      requires deque != []
      modifies this
      ensures item == old(deque)[0]
      ensures forall p, host :: On(host) == Next(p, old(On(host)), Step.SealFront)
    {
      item := deque[0];
      deque := deque[1..];
      sealed := sealed + [item];
    }
  }
}
