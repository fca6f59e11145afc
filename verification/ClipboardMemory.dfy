/** What a peer's clipboard synchronisation remembers, told by what happened, and so when a look sends something. */
module ClipboardMemory {
  import opened Wrappers
  import opened Clipboard

  type Showing = (nat, Option<Content>)

  /** An event brings content from the other peer onto the clipboard. */
  predicate Writes(max: nat, e: Event) {
    e.Receive? && e.written && |e.payload.bytes| <= max
  }

  function ShownAfter(max: nat, was: Showing, e: Event): Showing {
    match e
    case Copy(c, n) => (n, c)
    case Notify(n) => (n, was.1)
    case Receive(c, _, n) => if Writes(max, e) then (n, Some(c)) else was
    case Poll => was
  }

  /** What the system clipboard shows: the last copy, or what was written for the other peer since. */
  function Shown(max: nat, start: Showing, events: seq<Event>): Showing {
    if events == [] then start
    else ShownAfter(max, Shown(max, start, events[..|events| - 1]), events[|events| - 1])
  }

  function SeenAfter(max: nat, shown: Showing, was: nat, e: Event): nat {
    if e.Poll? then shown.0 else if Writes(max, e) then e.counter else was
  }

  /** The counter at the last look, or after the last write for the other peer. */
  function Seen(max: nat, start: Showing, events: seq<Event>): nat {
    if events == [] then start.0
    else
      var front := events[..|events| - 1];
      SeenAfter(max, Shown(max, start, front), Seen(max, start, front), events[|events| - 1])
  }

  function CrossedAfter(max: nat, before: seq<Content>, sent: seq<Content>, was: Option<Content>, e: Event): Option<Content> {
    if |sent| > |before| then Some(sent[|sent| - 1])
    else if e.Receive? && |e.payload.bytes| <= max then Some(e.payload)
    else was
  }

  /** The last content that was sent, or received and not too large, whether or not it could be written. */
  function Crossed(max: nat, start: Showing, events: seq<Event>): Option<Content> {
    if events == [] then None
    else
      var front := events[..|events| - 1];
      CrossedAfter(max, Sent(max, start, front), Sent(max, start, events), Crossed(max, start, front), events[|events| - 1])
  }

  function Sent(max: nat, start: Showing, events: seq<Event>): seq<Content> {
    Run(max, Fresh(start.0, start.1), events).sent
  }

  function AwaitedAfter(max: nat, shown: Showing, seen: nat, was: Option<Content>, e: Event): Option<Content> {
    if e.Receive? && |e.payload.bytes| <= max then Some(e.payload)
    else if e.Poll? && shown.0 != seen && was.Some? && was == shown.1 && was.value.bytes != [] then None
    else was
  }

  /** The received content whose echo is still awaited: no look since has found it on a clipboard that had moved. */
  function Awaited(max: nat, start: Showing, events: seq<Event>): Option<Content> {
    if events == [] then None
    else
      var front := events[..|events| - 1];
      AwaitedAfter(max, Shown(max, start, front), Seen(max, start, front), Awaited(max, start, front), events[|events| - 1])
  }

  /** This is what the peer remembers. */
  predicate Remembers(max: nat, p: Peer, shown: Showing, seen: nat, crossed: Option<Content>, awaited: Option<Content>) {
    && (p.counter, p.content) == shown && p.lastSeen == seen && p.lastSent == crossed && p.suppressed == awaited
    && (awaited.Some? ==> |awaited.value.bytes| <= max)
  }

  lemma EventRemembers(max: nat, l: Log, e: Event, shown: Showing, seen: nat, crossed: Option<Content>,
                       awaited: Option<Content>)
    requires Remembers(max, l.peer, shown, seen, crossed, awaited)
    ensures Remembers(max, Next(max, l, e).peer, ShownAfter(max, shown, e), SeenAfter(max, shown, seen, e),
                      CrossedAfter(max, l.sent, Next(max, l, e).sent, crossed, e), AwaitedAfter(max, shown, seen, awaited, e))
  {
  }

  /** Over every run the peer remembers what these four say. */
  lemma {:induction false} MemoryIsTheRuns(max: nat, start: Showing, events: seq<Event>)
    ensures Remembers(max, Run(max, Fresh(start.0, start.1), events).peer, Shown(max, start, events),
                      Seen(max, start, events), Crossed(max, start, events), Awaited(max, start, events))
  {
    if events != [] {
      var front := events[..|events| - 1];
      MemoryIsTheRuns(max, start, front);
      EventRemembers(max, Run(max, Fresh(start.0, start.1), front), events[|events| - 1], Shown(max, start, front),
                     Seen(max, start, front), Crossed(max, start, front), Awaited(max, start, front));
    }
  }

  lemma ListedOne(sent: seq<Content>, out: Option<Content>, c: Content)
    ensures sent + Listed(out) == sent + [c] <==> out == Some(c)
  {
    if sent + Listed(out) == sent + [c] {
      assert |sent + Listed(out)| == |sent| + 1;
      assert (sent + Listed(out))[|sent|] == c;
    }
  }

  /** Over every run: a look sends what the clipboard shows if and only if its counter has moved since it was last
      seen, it is neither empty nor too large, it was not the last content to cross, and no echo of it is awaited. */
  lemma LookSendsExactlyWhen(max: nat, start: Showing, events: seq<Event>, c: Content)
    ensures var l := Run(max, Fresh(start.0, start.1), events);
            var (n, shown) := Shown(max, start, events);
            Next(max, l, Poll).sent == l.sent + [c] <==>
              && shown == Some(c) && n != Seen(max, start, events) && 0 < |c.bytes| <= max
              && Crossed(max, start, events) != Some(c) && Awaited(max, start, events) != Some(c)
  {
    MemoryIsTheRuns(max, start, events);
    var l := Run(max, Fresh(start.0, start.1), events);
    var (_, out) := Polled(max, l.peer);
    ListedOne(l.sent, out, c);
  }

  /** A clipboard that has not moved costs nothing: the look changes nothing at all. */
  lemma UnmovedLookIsIdle(max: nat, start: Showing, events: seq<Event>)
    requires Shown(max, start, events).0 == Seen(max, start, events)
    ensures var l := Run(max, Fresh(start.0, start.1), events); Next(max, l, Poll) == l
  {
    MemoryIsTheRuns(max, start, events);
  }

  /** What was received and could not be written counts as received: copied by the user later, it is not sent back. */
  lemma UnwrittenIsNotSentBack(max: nat, l: Log, c: Content, after: nat, counter: nat)
    requires |c.bytes| <= max
    ensures Next(max, Next(max, Next(max, l, Receive(c, false, after)), Copy(Some(c), counter)), Poll).sent == l.sent
  {
  }
}
