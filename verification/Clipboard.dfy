/** Clipboard synchronisation between two peers, without echoes.

    Contents stand for their digests, which are taken to be collision-free. The system's change counter may
    take any value at any time: it is only compared with the one seen last. */
module Clipboard {
  import opened Wrappers
  import opened Octets

  datatype Content = Text(bytes: Bytes) | Image(bytes: Bytes)

  /** One peer: the system clipboard with its counter, and what the synchronisation remembers. */
  datatype Peer = Peer(counter: nat, content: Option<Content>, lastSeen: nat, suppressed: Option<Content>,
                       lastSent: Option<Content>)

  function Start(counter: nat, content: Option<Content>): Peer {
    Peer(counter, content, counter, None, None)
  }

  predicate Sendable(max: nat, c: Content) {
    0 < |c.bytes| <= max
  }

  /** A look at the clipboard, and what is sent because of it. */
  function Polled(max: nat, p: Peer): (Peer, Option<Content>) {
    if p.counter == p.lastSeen then (p, None)
    else
      var q := p.(lastSeen := p.counter);
      if q.content.None? || !Sendable(max, q.content.value) then (q, None)
      else if q.suppressed == q.content then (q.(suppressed := None), None)
      else if q.lastSent == q.content then (q, None)
      else (q.(lastSent := q.content), q.content)
  }

  /** Content from the other peer is applied; `counter` is the system's counter afterwards. */
  function Applied(max: nat, p: Peer, c: Content, written: bool, counter: nat): Peer {
    if |c.bytes| > max then p
    else
      var q := p.(suppressed := Some(c), lastSent := Some(c));
      if written then q.(content := Some(c), counter := counter, lastSeen := counter) else q
  }

  class ClipboardSync {
    const max: nat
    var counter: nat
    var content: Option<Content>
    var lastSeen: nat
    var suppressed: Option<Content>
    var lastSent: Option<Content>

    ghost function State(): Peer
      reads this
    {
      Peer(counter, content, lastSeen, suppressed, lastSent)
    }

    constructor (max: nat, counter: nat, content: Option<Content>)
      ensures this.max == max && State() == Start(counter, content)
    {
      this.max, this.counter, this.content := max, counter, content;
      lastSeen, suppressed, lastSent := counter, None, None;
    }

    /** A look at the system clipboard: an unchanged counter, an echo or a repetition sends nothing. */
    method PollLocal() returns (sent: Option<Content>)
      modifies this
      ensures (State(), sent) == Polled(max, old(State()))
    {
      if counter == lastSeen {
        return None;
      }
      lastSeen := counter;
      if content.None? {
        return None;
      }
      if |content.value.bytes| == 0 || |content.value.bytes| > max {
        return None;
      }
      if suppressed == content {
        suppressed := None;
        return None;
      }
      if lastSent == content {
        return None;
      }
      lastSent := content;
      sent := content;
    }

    /** What arrives counts as received even if the system refuses to write it; too much of it counts for nothing. */
    method ApplyRemote(c: Content, written: bool, after: nat) returns (ok: bool)
      modifies this
      ensures State() == Applied(max, old(State()), c, written, after)
      ensures ok <==> |c.bytes| <= max && written
    {
      if |c.bytes| > max {
        return false;
      }
      suppressed, lastSent := Some(c), Some(c);
      if !written {
        return false;
      }
      content, counter := Some(c), after;
      lastSeen := counter;
      ok := true;
    }
  }

  // ---- runs of one peer ----------------------------------------------------------------------------

  /** The user copies (or empties the clipboard); the counter moves for no reason; the clipboard is looked at;
      something arrives from the other peer. */
  datatype Event =
    | Copy(copied: Option<Content>, counter: nat)
    | Notify(counter: nat)
    | Poll
    | Receive(payload: Content, written: bool, counter: nat)

  /** `occasions` are the contents this peer has a reason of its own to send: what was there at the start, each
      of its user's copies, and what a failed write left standing. */
  datatype Log = Log(peer: Peer, sent: seq<Content>, occasions: seq<Content>)

  function Listed(c: Option<Content>): seq<Content> {
    match c
    case None => []
    case Some(x) => [x]
  }

  function Next(max: nat, l: Log, e: Event): Log {
    match e
    case Copy(c, n) => Log(l.peer.(content := c, counter := n), l.sent, l.occasions + Listed(c))
    case Notify(n) => l.(peer := l.peer.(counter := n))
    case Poll =>
      var (p, out) := Polled(max, l.peer);
      l.(peer := p, sent := l.sent + Listed(out))
    case Receive(c, written, n) =>
      var p := Applied(max, l.peer, c, written, n);
      if written || |c.bytes| > max then l.(peer := p)
      else l.(peer := p, occasions := l.occasions + Listed(l.peer.content))
  }

  function Run(max: nat, l: Log, events: seq<Event>): Log {
    if events == [] then l else Next(max, Run(max, l, events[..|events| - 1]), events[|events| - 1])
  }

  function Fresh(counter: nat, content: Option<Content>): Log {
    Log(Start(counter, content), [], Listed(content))
  }

  /** Some of `all`, in order. */
  predicate Among(some: seq<Content>, all: seq<Content>) {
    if some == [] then true
    else if all == [] then false
    else
      || Among(some, all[..|all| - 1])
      || (some[|some| - 1] == all[|all| - 1] && Among(some[..|some| - 1], all[..|all| - 1]))
  }

  lemma {:induction false} AmongIsShorter(some: seq<Content>, all: seq<Content>)
    requires Among(some, all)
    ensures |some| <= |all|
    decreases |all|
  {
    if some != [] {
      if Among(some, all[..|all| - 1]) {
        AmongIsShorter(some, all[..|all| - 1]);
      } else {
        AmongIsShorter(some[..|some| - 1], all[..|all| - 1]);
      }
    }
  }

  lemma AmongMore(some: seq<Content>, all: seq<Content>, more: seq<Content>)
    requires Among(some, all) && |more| <= 1
    ensures Among(some, all + more)
  {
    if more == [] {
      assert all + more == all;
    } else {
      assert (all + more)[..|all|] == all;
    }
  }

  lemma AmongBoth(some: seq<Content>, all: seq<Content>, x: Content)
    requires Among(some, all)
    ensures Among(some + [x], all + [x])
  {
    assert (some + [x])[..|some|] == some && (all + [x])[..|all|] == all;
  }

  lemma {:induction false} AmongFront(some: seq<Content>, x: Content, all: seq<Content>)
    requires Among(some + [x], all)
    ensures Among(some, all)
    decreases |all|
  {
    assert (some + [x])[..|some|] == some;
    var front := all[..|all| - 1];
    if Among(some + [x], front) {
      AmongFront(some, x, front);
    }
    AmongMore(some, front, [all[|all| - 1]]);
    assert front + [all[|all| - 1]] == all;
  }

  /** What is on the clipboard could still be sent by a look at it. */
  function Unsent(p: Peer): seq<Content> {
    if p.content.Some? && p.lastSent != p.content then [p.content.value] else []
  }

  predicate Accounted(l: Log) {
    Among(l.sent + Unsent(l.peer), l.occasions)
  }

  lemma SentAlone(l: Log)
    requires Accounted(l)
    ensures Among(l.sent, l.occasions)
  {
    if Unsent(l.peer) == [] {
      assert l.sent + [] == l.sent;
    } else {
      AmongFront(l.sent, l.peer.content.value, l.occasions);
    }
  }

  /** A new occasion accounts for whatever may be sent now. */
  lemma NewOccasion(l: Log, p: Peer, c: Option<Content>)
    requires Accounted(l) && p.content == c
    ensures Accounted(Log(p, l.sent, l.occasions + Listed(c)))
  {
    SentAlone(l);
    if Unsent(p) == [] {
      assert l.sent + [] == l.sent;
      AmongMore(l.sent, l.occasions, Listed(c));
    } else {
      AmongBoth(l.sent, l.occasions, c.value);
    }
  }

  lemma PollKeeps(max: nat, l: Log)
    requires Accounted(l)
    ensures Accounted(Next(max, l, Poll))
  {
    var (p, out) := Polled(max, l.peer);
    if out.Some? {
      assert l.sent + [out.value] + [] == l.sent + [out.value];
    } else {
      assert l.sent + [] == l.sent;
    }
  }

  lemma EventKeeps(max: nat, l: Log, e: Event)
    requires Accounted(l)
    ensures Accounted(Next(max, l, e))
  {
    match e
    case Copy(c, n) => NewOccasion(l, l.peer.(content := c, counter := n), c);
    case Notify(_) =>
    case Poll => PollKeeps(max, l);
    case Receive(c, written, n) =>
      if |c.bytes| <= max {
        var p := Applied(max, l.peer, c, written, n);
        if written {
          SentAlone(l);
          assert l.sent + [] == l.sent;
        } else {
          NewOccasion(l, p, l.peer.content);
        }
      }
  }

  lemma {:induction false} EveryRunIsAccounted(max: nat, counter: nat, content: Option<Content>, events: seq<Event>)
    ensures Accounted(Run(max, Fresh(counter, content), events))
  {
    if events == [] {
      NewOccasion(Log(Start(counter, None), [], []), Start(counter, content), content);
      assert [] + Listed(content) == Listed(content);
    } else {
      EveryRunIsAccounted(max, counter, content, events[..|events| - 1]);
      EventKeeps(max, Run(max, Fresh(counter, content), events[..|events| - 1]), events[|events| - 1]);
    }
  }

  function Copies(events: seq<Event>): nat {
    if events == [] then 0 else Copies(events[..|events| - 1]) + if events[|events| - 1].Copy? then 1 else 0
  }

  function FailedWrites(events: seq<Event>): nat {
    if events == [] then 0
    else
      var e := events[|events| - 1];
      FailedWrites(events[..|events| - 1]) + if e.Receive? && !e.written then 1 else 0
  }

  lemma {:induction false} OccasionsAreFew(max: nat, l: Log, events: seq<Event>)
    ensures |Run(max, l, events).occasions| <= |l.occasions| + Copies(events) + FailedWrites(events)
  {
    if events != [] {
      OccasionsAreFew(max, l, events[..|events| - 1]);
    }
  }

  /** Whatever arrives and however the counter moves, a peer sends, in order, only what its own user copied,
      what was there at the start, and what a failed write left standing: at most once each. */
  lemma NeverEchoes(max: nat, counter: nat, content: Option<Content>, events: seq<Event>)
    ensures var l := Run(max, Fresh(counter, content), events);
            && Among(l.sent, l.occasions)
            && |l.sent| <= 1 + Copies(events) + FailedWrites(events)
  {
    var l := Run(max, Fresh(counter, content), events);
    EveryRunIsAccounted(max, counter, content, events);
    SentAlone(l);
    AmongIsShorter(l.sent, l.occasions);
    OccasionsAreFew(max, Fresh(counter, content), events);
  }

  // ---- two peers -----------------------------------------------------------------------------------

  /** Two peers and what each has received of the other's messages, in order and after any delay. */
  datatype Pair = Pair(a: Log, b: Log, takenByA: nat, takenByB: nat)

  datatype Side = A | B

  /** A local event, or the arrival of the next message from the other side. */
  datatype Move = Local(side: Side, event: Event) | Arrive(side: Side, written: bool, counter: nat)

  function Moved(max: nat, w: Pair, m: Move): Pair {
    match m
    case Local(A, e) => if e.Receive? then w else w.(a := Next(max, w.a, e))
    case Local(B, e) => if e.Receive? then w else w.(b := Next(max, w.b, e))
    case Arrive(A, written, n) =>
      if w.takenByA < |w.b.sent|
      then w.(a := Next(max, w.a, Receive(w.b.sent[w.takenByA], written, n)), takenByA := w.takenByA + 1) else w
    case Arrive(B, written, n) =>
      if w.takenByB < |w.a.sent|
      then w.(b := Next(max, w.b, Receive(w.a.sent[w.takenByB], written, n)), takenByB := w.takenByB + 1) else w
  }

  function RunPair(max: nat, w: Pair, moves: seq<Move>): Pair {
    if moves == [] then w else Moved(max, RunPair(max, w, moves[..|moves| - 1]), moves[|moves| - 1])
  }

  /** A copy of this side's user, or a write this side's system refused. */
  function CauseIn(side: Side, m: Move): nat {
    if m.side == side && ((m.Local? && m.event.Copy?) || (m.Arrive? && !m.written)) then 1 else 0
  }

  function Causes(side: Side, moves: seq<Move>): nat {
    if moves == [] then 0 else Causes(side, moves[..|moves| - 1]) + CauseIn(side, moves[|moves| - 1])
  }

  /** The event a move is for its own side, if it is possible. */
  function EventOf(w: Pair, m: Move): Option<Event> {
    match m
    case Local(_, e) => if e.Receive? then None else Some(e)
    case Arrive(A, written, n) =>
      if w.takenByA < |w.b.sent| then Some(Receive(w.b.sent[w.takenByA], written, n)) else None
    case Arrive(B, written, n) =>
      if w.takenByB < |w.a.sent| then Some(Receive(w.a.sent[w.takenByB], written, n)) else None
  }

  lemma MoveIsEvent(max: nat, w: Pair, m: Move)
    ensures var e, t := EventOf(w, m), Moved(max, w, m);
            && t.a == (if m.side.A? && e.Some? then Next(max, w.a, e.value) else w.a)
            && t.b == (if m.side.B? && e.Some? then Next(max, w.b, e.value) else w.b)
            && (e.Some? ==> (e.value.Copy? <==> m.Local? && m.event.Copy?)
                            && (e.value.Receive? <==> m.Arrive?) && (m.Arrive? ==> e.value.written == m.written))
  {
  }

  lemma EventAddsOccasion(max: nat, l: Log, e: Event)
    ensures |Next(max, l, e).occasions| <= |l.occasions| + if e.Copy? || (e.Receive? && !e.written) then 1 else 0
  {
  }

  lemma {:induction false} PairAccounted(max: nat, a: Log, b: Log, moves: seq<Move>)
    requires Accounted(a) && Accounted(b)
    ensures var w := RunPair(max, Pair(a, b, 0, 0), moves);
            && Accounted(w.a) && |w.a.occasions| <= |a.occasions| + Causes(A, moves)
            && Accounted(w.b) && |w.b.occasions| <= |b.occasions| + Causes(B, moves)
  {
    if moves != [] {
      var front, m := moves[..|moves| - 1], moves[|moves| - 1];
      PairAccounted(max, a, b, front);
      var w := RunPair(max, Pair(a, b, 0, 0), front);
      MoveIsEvent(max, w, m);
      if EventOf(w, m).Some? {
        var e := EventOf(w, m).value;
        EventKeeps(max, if m.side.A? then w.a else w.b, e);
        EventAddsOccasion(max, if m.side.A? then w.a else w.b, e);
      }
    }
  }

  /** Two connected peers never bounce content back and forth: for any delays, notifications and simultaneous
      copies, each peer sends at most one message for every copy of its own user, one for every write its own
      system refused, and one for what was there at the start. */
  lemma NoPingPong(max: nat, counterA: nat, contentA: Option<Content>, counterB: nat, contentB: Option<Content>,
                   moves: seq<Move>)
    ensures var w := RunPair(max, Pair(Fresh(counterA, contentA), Fresh(counterB, contentB), 0, 0), moves);
            && |w.a.sent| <= |Listed(contentA)| + Causes(A, moves)
            && |w.b.sent| <= |Listed(contentB)| + Causes(B, moves)
  {
    EveryRunIsAccounted(max, counterA, contentA, []);
    EveryRunIsAccounted(max, counterB, contentB, []);
    PairAccounted(max, Fresh(counterA, contentA), Fresh(counterB, contentB), moves);
    var w := RunPair(max, Pair(Fresh(counterA, contentA), Fresh(counterB, contentB), 0, 0), moves);
    SentAlone(w.a);
    SentAlone(w.b);
    AmongIsShorter(w.a.sent, w.a.occasions);
    AmongIsShorter(w.b.sent, w.b.occasions);
  }

  // ---- what gets through ---------------------------------------------------------------------------

  /** A user's copy is sent at the next look exactly when it is neither empty nor too large, was not the last
      thing sent or received, and no suppression of the same content is still pending. */
  lemma CopyIsSentExactlyWhen(max: nat, l: Log, c: Content, counter: nat)
    requires counter != l.peer.lastSeen
    ensures Next(max, Next(max, l, Copy(Some(c), counter)), Poll).sent == l.sent + [c]
            <==> 0 < |c.bytes| <= max && l.peer.suppressed != Some(c) && l.peer.lastSent != Some(c)
  {
    var t := Next(max, Next(max, l, Copy(Some(c), counter)), Poll);
    assert |t.sent| == |l.sent| + 1 || t.sent == l.sent;
    assert t.sent == l.sent ==> t.sent != l.sent + [c] by {
      assert |l.sent + [c]| == |l.sent| + 1;
    }
  }

  /** A suppression that no notification consumed outlives a copy of something else: when the user then copies
      the suppressed content again, it is not sent, although the other peer no longer has it. */
  lemma OldSuppressionSwallowsACopy(max: nat, x: Content, y: Content, counter: nat)
    requires x != y && 0 < |x.bytes| <= max && 0 < |y.bytes| <= max
    ensures var l := Next(max, Next(max, Fresh(counter, None), Receive(x, true, counter + 1)), Copy(Some(y), counter + 2));
            var t := Next(max, Next(max, Next(max, l, Poll), Copy(Some(x), counter + 3)), Poll);
            t.sent == [y] && t.peer.content == Some(x)
  {
  }
}
