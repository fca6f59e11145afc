/** What a host lets through: for every stream, in any order of numbers and cut into any batches, each kind of event
    reaches the system exactly as the two permissions say. */
module InputPermissions {
  import opened Wrappers
  import opened InputEvents

  function EventsOf(log: seq<Applied>): (r: seq<Inbound>)
    ensures |r| == |log|
  {
    if log == [] then [] else EventsOf(log[..|log| - 1]) + [log[|log| - 1].event]
  }

  /** The events let through, in their order. */
  function LetThrough(p: Permissions, items: seq<Inbound>): seq<Inbound> {
    if items == [] then []
    else LetThrough(p, items[..|items| - 1]) + Kept(p, items[|items| - 1])
  }

  function Kept(p: Permissions, it: Inbound): seq<Inbound> {
    if !IsMove(it) && Allowed(p, it.ev) then [it] else []
  }

  lemma EventsSnoc(log: seq<Applied>, a: Applied)
    ensures EventsOf(log + [a]) == EventsOf(log) + [a.event]
  {
    assert (log + [a])[..|log|] == log;
  }

  lemma TakeLetsThrough(p: Permissions, h: Host, it: Inbound)
    ensures EventsOf(Take(p, h, it).meaning.log) == EventsOf(h.meaning.log) + Kept(p, it)
  {
    if Kept(p, it) == [it] {
      EventsSnoc(h.meaning.log, Applied(it, h.meaning.at));
    }
  }

  lemma {:induction false} TakeAllLetsThrough(p: Permissions, h: Host, items: seq<Inbound>)
    ensures EventsOf(TakeAll(p, h, items).meaning.log) == EventsOf(h.meaning.log) + LetThrough(p, items)
  {
    if items != [] {
      var front, it := items[..|items| - 1], items[|items| - 1];
      TakeAllLetsThrough(p, h, front);
      TakeLetsThrough(p, TakeAll(p, h, front), it);
    }
  }

  lemma MergeLetsThrough(p: Permissions, q: seq<Inbound>, it: Inbound)
    ensures LetThrough(p, Merge(IsMove, q, it)) == LetThrough(p, q) + Kept(p, it)
  {
    if IsMove(it) && |q| > 0 && IsMove(q[|q| - 1]) {
      var r := q[|q| - 1 := it];
      assert r[..|r| - 1] == q[..|q| - 1];
    } else {
      assert (q + [it])[..|q|] == q;
    }
  }

  lemma {:induction false} CoalescingLetsThrough(p: Permissions, items: seq<Inbound>)
    ensures LetThrough(p, Coalesced(items)) == LetThrough(p, items)
  {
    if items != [] {
      CoalescingLetsThrough(p, items[..|items| - 1]);
      MergeLetsThrough(p, Coalesced(items[..|items| - 1]), items[|items| - 1]);
    }
  }

  lemma {:induction false} LetThroughCat(p: Permissions, a: seq<Inbound>, b: seq<Inbound>)
    ensures LetThrough(p, a + b) == LetThrough(p, a) + LetThrough(p, b)
  {
    if b == [] {
      assert a + b == a;
    } else {
      assert (a + b)[..|a + b| - 1] == a + b[..|b| - 1];
      LetThroughCat(p, a, b[..|b| - 1]);
    }
  }

  /** In any batches and any order of numbers, the host applies exactly the events let through, in their order. */
  lemma {:induction false} BatchesLetThrough(p: Permissions, h: Host, batches: seq<seq<Inbound>>)
    ensures EventsOf(TakeBatches(p, h, batches).meaning.log) == EventsOf(h.meaning.log) + LetThrough(p, Flatten(batches))
  {
    if batches != [] {
      var front, last := batches[..|batches| - 1], batches[|batches| - 1];
      BatchesLetThrough(p, h, front);
      TakeAllLetsThrough(p, TakeBatches(p, h, front), Coalesced(last));
      CoalescingLetsThrough(p, last);
      LetThroughCat(p, Flatten(front), last);
    }
  }

  lemma {:induction false} CountLetThrough(p: Permissions, items: seq<Inbound>, it: Inbound)
    ensures multiset(LetThrough(p, items))[it] == if Kept(p, it) == [it] then multiset(items)[it] else 0
  {
    if items != [] {
      CountLetThrough(p, items[..|items| - 1], it);
      assert items == items[..|items| - 1] + [items[|items| - 1]];
    }
  }

  /** Keys and text are applied if and only if the keyboard is permitted, buttons and the wheel if and only if the
      mouse is, and a release of everything always; as often as they were sent. */
  lemma AppliedExactlyWhenPermitted(p: Permissions, batches: seq<seq<Inbound>>, it: Inbound)
    ensures var applied, sent := multiset(EventsOf(TakeBatches(p, FRESH_HOST, batches).meaning.log)), multiset(Flatten(batches));
            applied[it] == match it.ev
              case Key(_, _, _) => if p.keyboard then sent[it] else 0
              case Text(_) => if p.keyboard then sent[it] else 0
              case MouseButton(_, _) => if p.mouse then sent[it] else 0
              case Wheel(_, _) => if p.mouse then sent[it] else 0
              case ReleaseAll => sent[it]
              case MouseMove(_, _) => 0
  {
    BatchesLetThrough(p, FRESH_HOST, batches);
    CountLetThrough(p, Flatten(batches), it);
    assert EventsOf(FRESH_HOST.meaning.log) + LetThrough(p, Flatten(batches)) == LetThrough(p, Flatten(batches));
  }

  /** Without the mouse the pointer stays where it is; with it, a first move takes it along. */
  lemma {:induction false} PointerNeedsMouse(p: Permissions, items: seq<Inbound>)
    ensures !p.mouse ==> TakeAll(p, FRESH_HOST, items).meaning.at == None
    ensures p.mouse && items != [] && IsMove(items[0]) && !SeqBefore(items[0].num, 0) ==>
              TakeAll(p, FRESH_HOST, items).meaning.at.Some?
  {
    if items != [] {
      var front := items[..|items| - 1];
      PointerNeedsMouse(p, front);
      if front == [] {
        assert TakeAll(p, FRESH_HOST, front) == FRESH_HOST;
      }
    }
  }
}
