/** What every interleaving of the input pipeline keeps, however the writer's steps fall: the order of the
    other messages, a bound on waiting moves, and a full account of the moves sent. */
module InputBacklog {
  import opened Wrappers
  import opened InputEvents
  import opened InputPipeline

  function CountMoves(items: seq<Item>): nat {
    |items| - |NonMoveItems(items)|
  }

  /** Everything on the sender's side that has not been sealed yet. */
  function Waiting(s: Pipe): seq<Item> {
    s.deque + InChannel(s) + (if s.slot.Some? then [Input(s.slot.value)] else [])
  }

  /** In a sequence without neighbouring moves, moves outnumber the others by at most one, and not at all
      when the last entry is not a move. */
  lemma {:induction false} SeparatedCount(q: seq<Item>)
    requires Separated(IsMoveItem, q)
    ensures CountMoves(q) <= |NonMoveItems(q)| + 1
    ensures q != [] && !IsMoveItem(q[|q| - 1]) ==> CountMoves(q) <= |NonMoveItems(q)|
  {
    if q != [] {
      SeparatedCount(q[..|q| - 1]);
    }
  }

  lemma WaitingCount(s: Pipe)
    requires Collapsed(s)
    ensures CountMoves(Waiting(s)) <= |NonMoveItems(Waiting(s))| + 2
  {
    var inSlot := if s.slot.Some? then [Input(s.slot.value)] else [];
    NonMovesConcat(s.deque + InChannel(s), inSlot);
    NonMovesConcat(s.deque, InChannel(s));
    SeparatedCount(s.deque);
    SeparatedCount(InChannel(s));
  }

  /** In every interleaving: non-move control messages are sealed in channel order, none lost and none
      twice; the writer's queue never holds two neighbouring moves; and however many moves are sent, those
      waiting outnumber the waiting non-moves by at most two. */
  lemma EveryInterleavingKeepsOrder(p: Permissions, steps: seq<Step>)
    ensures var s := Run(p, EMPTY, steps);
            && NonMoveItems(s.sealed) <= s.queued
            && NonMoveItems(s.sealed + s.deque + s.channel) == s.queued
            && Separated(IsMoveItem, s.deque)
            && CountMoves(Waiting(s)) <= |NonMoveItems(Waiting(s))| + 2
  {
    RunStaysCollapsed(p, EMPTY, steps);
    var s := Run(p, EMPTY, steps);
    NonMovesConcat(s.sealed + s.deque, s.channel);
    NonMovesConcat(s.sealed, s.deque);
    WaitingCount(s);
  }

  // ---- conservation of moves -----------------------------------------------------------------------

  function MovesSent(sent: seq<Stamped>): nat {
    if sent == [] then 0
    else MovesSent(sent[..|sent| - 1]) + if sent[|sent| - 1].ev.MouseMove? then 1 else 0
  }

  /** Every move sent is sealed, still waiting, or counted as replaced by a newer one. */
  predicate MovesBalance(s: Pipe) {
    MovesSent(s.sent) == CountMoves(s.sealed) + CountMoves(s.deque) + CountMoves(s.channel)
                         + |OptSeq(s.slot)| + s.coalesced
  }

  lemma CountSnoc(q: seq<Item>, it: Item)
    ensures CountMoves(q + [it]) == CountMoves(q) + if IsMoveItem(it) then 1 else 0
  {
    NonMovesSnoc(q, it);
  }

  lemma CountHead(q: seq<Item>)
    requires q != []
    ensures CountMoves(q) == CountMoves(q[1..]) + if IsMoveItem(q[0]) then 1 else 0
  {
    NonMovesHead(q);
  }

  lemma CountPush(s: Pipe, it: Item)
    ensures CountMoves(Pushed(s, it).deque) + Pushed(s, it).coalesced
            == CountMoves(s.deque) + s.coalesced + if IsMoveItem(it) then 1 else 0
  {
    NonMovesMerge(s.deque, it);
  }

  lemma SentSnoc(sent: seq<Stamped>, e: Stamped)
    ensures MovesSent(sent + [e]) == MovesSent(sent) + if e.ev.MouseMove? then 1 else 0
  {
    assert (sent + [e])[..|sent|] == sent;
  }

  lemma MovesBalanceStep(p: Permissions, s: Pipe, step: Step)
    requires MovesBalance(s) && Collapsed(s)
    ensures MovesBalance(Next(p, s, step))
  {
    if Next(p, s, step) != s {
      match step
      case SendMove(m) => SentSnoc(s.sent, m);
      case LockSend(e) =>
        SentSnoc(s.sent, e);
        if s.slot.Some? {
          CountSnoc(s.channel, Input(s.slot.value));
        } else {
          assert s.channel + [] == s.channel;
        }
      case FinishSend => CountSnoc(s.channel, Input(s.held.value));
      case SendOther(id) => CountSnoc(s.channel, Other(id));
      case DrainOne =>
        CountHead(s.channel);
        CountPush(s, s.channel[0]);
      case TakeSlot => CountPush(s, Input(s.slot.value));
      case SealFront =>
        CountHead(s.deque);
        CountSnoc(s.sealed, s.deque[0]);
      case WakeUp(_) =>
    }
  }

  lemma {:induction false} EveryMoveIsAccountedFor(p: Permissions, steps: seq<Step>)
    ensures MovesBalance(Run(p, EMPTY, steps))
  {
    if steps != [] {
      var front := steps[..|steps| - 1];
      EveryMoveIsAccountedFor(p, front);
      RunStaysCollapsed(p, EMPTY, front);
      MovesBalanceStep(p, Run(p, EMPTY, front), steps[|steps| - 1]);
    }
  }
}
