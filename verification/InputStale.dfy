/** What the staleness check does to events that are out of order: which move is in force, which moves may be
    left out, and when the newest move may run ahead.

    A host that may not move the pointer applies no move at all, so nothing is asked of the numbers there. */
module InputStale {
  import opened Wrappers
  import opened InputEvents

  /** The largest number among the moves, or `lo` if that is larger. */
  function Top(lo: nat, items: seq<Stamped>): nat {
    if items == [] then lo
    else
      var t, it := Top(lo, items[..|items| - 1]), items[|items| - 1];
      if it.ev.MouseMove? && t < it.n then it.n else t
  }

  /** All moves lie within half a window of each other and of `lo`. */
  predicate Near(lo: nat, items: seq<Stamped>) {
    && (forall x :: x in items && x.ev.MouseMove? ==> x.n < lo + HALF_WINDOW && lo < x.n + HALF_WINDOW)
    && (forall x, y :: x in items && y in items && x.ev.MouseMove? && y.ev.MouseMove? ==> x.n < y.n + HALF_WINDOW)
  }

  /** A move directly behind another one is not older. */
  predicate Steady(items: seq<Stamped>) {
    forall i :: 0 <= i < |items| - 1 && items[i].ev.MouseMove? && items[i + 1].ev.MouseMove? ==>
      items[i].n <= items[i + 1].n
  }

  /** The host knows move `lo`, and the moves on their way to it are near that one. */
  predicate Reaches(p: Permissions, h: Host, lo: nat, items: seq<Stamped>) {
    p.mouse ==> h.lastMove == Wrap(lo) && Near(lo, items)
  }

  /** Both hosts have applied the same and go on alike. */
  predicate Alike(p: Permissions, g: Host, h: Host) {
    g.meaning == h.meaning && (p.mouse ==> g.lastMove == h.lastMove)
  }

  lemma {:induction false} AlikeTails(p: Permissions, g: Host, h: Host, tail: seq<Inbound>)
    requires Alike(p, g, h)
    ensures Alike(p, TakeAll(p, g, tail), TakeAll(p, h, tail))
  {
    if tail != [] {
      AlikeTails(p, g, h, tail[..|tail| - 1]);
    }
  }

  lemma OnWireConcat(a: seq<Stamped>, b: seq<Stamped>)
    ensures AllOnWire(a + b) == AllOnWire(a) + AllOnWire(b)
  {
  }

  lemma TakeCat(p: Permissions, h: Host, a: seq<Stamped>, b: seq<Stamped>)
    ensures TakeAll(p, h, AllOnWire(a + b)) == TakeAll(p, TakeAll(p, h, AllOnWire(a)), AllOnWire(b))
  {
    OnWireConcat(a, b);
    TakeAllConcat(p, h, AllOnWire(a), AllOnWire(b));
  }

  lemma {:induction false} TopIsNewest(lo: nat, items: seq<Stamped>)
    ensures Top(lo, items) == lo || exists x :: x in items && x.ev.MouseMove? && x.n == Top(lo, items)
    ensures lo <= Top(lo, items)
  {
    if items != [] {
      TopIsNewest(lo, items[..|items| - 1]);
      assert items[|items| - 1] in items;
    }
  }

  lemma TopBelow(lo: nat, items: seq<Stamped>, n: nat)
    requires lo < n && forall x :: x in items && x.ev.MouseMove? ==> x.n < n
    ensures Top(lo, items) < n
  {
    TopIsNewest(lo, items);
  }

  /** The staleness check tells a move near the host's last one apart from the newer ones. */
  lemma StaleIsOlder(h: Host, lo: nat, x: Stamped)
    requires h.lastMove == Wrap(lo) && x.n < lo + HALF_WINDOW && lo < x.n + HALF_WINDOW
    ensures IsStale(h, OnWire(x)) <==> x.ev.MouseMove? && x.n < lo
  {
    SeqBeforeIsOrder(x.n, lo);
  }

  /** However the events are ordered, the host ends with the newest move as its last one. */
  lemma {:induction false} LastMoveIsTop(p: Permissions, h: Host, lo: nat, items: seq<Stamped>)
    requires h.lastMove == Wrap(lo) && Near(lo, items)
    ensures TakeAll(p, h, AllOnWire(items)).lastMove == Wrap(Top(lo, items))
  {
    if items != [] {
      var front, it := items[..|items| - 1], items[|items| - 1];
      assert forall x :: x in front ==> x in items;
      LastMoveIsTop(p, h, lo, front);
      assert items == front + [it];
      TakeSnoc(p, h, front, it);
      if it.ev.MouseMove? {
        TopIsNewest(lo, front);
        StaleIsOlder(TakeAll(p, h, AllOnWire(front)), Top(lo, front), it);
      }
    }
  }

  /** After a prefix, its newest move takes the place of `lo`. */
  lemma NearAfter(lo: nat, a: seq<Stamped>, b: seq<Stamped>)
    requires Near(lo, a + b)
    ensures Near(lo, a) && Near(Top(lo, a), b)
  {
    TopIsNewest(lo, a);
    assert forall x :: x in a || x in b ==> x in a + b;
  }

  lemma ReachesAfter(p: Permissions, h: Host, lo: nat, a: seq<Stamped>, b: seq<Stamped>)
    requires Reaches(p, h, lo, a + b)
    ensures Reaches(p, h, lo, a) && Reaches(p, TakeAll(p, h, AllOnWire(a)), Top(lo, a), b)
  {
    if p.mouse {
      NearAfter(lo, a, b);
      LastMoveIsTop(p, h, lo, a);
    }
  }

  // ---- leaving out an overtaken move ---------------------------------------------------------------

  /** A move with a move that is not older right behind it is not missed. */
  lemma NotMissed(p: Permissions, h: Host, lo: nat, w: Stamped, x: Stamped)
    requires Reaches(p, h, lo, [w, x]) && w.ev.MouseMove? && x.ev.MouseMove? && (p.mouse ==> w.n <= x.n)
    ensures Alike(p, Take(p, Take(p, h, OnWire(w)), OnWire(x)), Take(p, h, OnWire(x)))
  {
    if p.mouse {
      assert w in [w, x] && x in [w, x];
      StaleIsOlder(h, lo, w);
      StaleIsOlder(h, lo, x);
      if lo <= w.n {
        StaleIsOlder(Take(p, h, OnWire(w)), w.n, x);
      }
    }
  }

  /** Leaving it out makes no difference, whatever comes before and after. */
  lemma LeaveOut(p: Permissions, h: Host, lo: nat, a: seq<Stamped>, w: Stamped, x: Stamped, b: seq<Stamped>)
    requires Reaches(p, h, lo, a + [w, x]) && w.ev.MouseMove? && x.ev.MouseMove? && (p.mouse ==> w.n <= x.n)
    ensures Alike(p, TakeAll(p, h, AllOnWire(a + [w, x] + b)), TakeAll(p, h, AllOnWire(a + [x] + b)))
  {
    var h1 := TakeAll(p, h, AllOnWire(a));
    ReachesAfter(p, h, lo, a, [w, x]);
    NotMissed(p, h1, Top(lo, a), w, x);
    assert a + [w, x] == a + [w] + [x];
    TakeSnoc(p, h, a + [w], x);
    TakeSnoc(p, h, a, w);
    TakeSnoc(p, h, a, x);
    AlikeTails(p, TakeAll(p, h, AllOnWire(a + [w, x])), TakeAll(p, h, AllOnWire(a + [x])), AllOnWire(b));
    TakeCat(p, h, a + [w, x], b);
    TakeCat(p, h, a + [x], b);
  }

  lemma LeaveOutStaysSteady(a: seq<Stamped>, w: Stamped, x: Stamped, b: seq<Stamped>)
    requires Steady(a + [w, x] + b) && w.ev.MouseMove? && x.ev.MouseMove?
    ensures Steady(a + [x] + b) && w.n <= x.n
  {
    var long, short := a + [w, x] + b, a + [x] + b;
    assert long[|a|] == w && long[|a| + 1] == x;
    assert forall i :: |a| <= i < |short| ==> short[i] == long[i + 1];
    assert forall i :: 0 <= i < |a| ==> short[i] == long[i];
  }

  /** Overwriting the move at the back makes no difference. */
  lemma MergeAlike(p: Permissions, h: Host, lo: nat, q: seq<Stamped>, it: Stamped)
    requires Reaches(p, h, lo, q + [it])
    requires p.mouse && q != [] && q[|q| - 1].ev.MouseMove? && it.ev.MouseMove? ==> q[|q| - 1].n <= it.n
    ensures Alike(p, TakeAll(p, h, AllOnWire(Merge(MoveStamp, q, it))), TakeAll(p, h, AllOnWire(q + [it])))
  {
    if it.ev.MouseMove? && q != [] && q[|q| - 1].ev.MouseMove? {
      var a, w := q[..|q| - 1], q[|q| - 1];
      assert a + [w, it] == q + [it] && a + [w, it] + [] == q + [it] && a + [it] + [] == a + [it];
      assert Merge(MoveStamp, q, it) == a + [it];
      LeaveOut(p, h, lo, a, w, it, []);
    }
  }

  lemma MembersReach(p: Permissions, h: Host, lo: nat, items: seq<Stamped>, some: seq<Stamped>)
    requires Reaches(p, h, lo, items) && forall x :: x in some ==> x in items
    ensures Reaches(p, h, lo, some)
  {
  }

  lemma SteadyEnd(items: seq<Stamped>, q: seq<Stamped>)
    requires |items| >= 2 && Steady(items) && q != [] && q[|q| - 1] == items[|items| - 2]
    ensures Steady(items[..|items| - 1])
    ensures var it := items[|items| - 1];
            q[|q| - 1].ev.MouseMove? && it.ev.MouseMove? ==> q[|q| - 1].n <= it.n
  {
    assert items[|items| - 2 + 1] == items[|items| - 1];
  }

  lemma CoalescedOneMore(items: seq<Stamped>)
    requires items != []
    ensures var q, it := CoalescedStamps(items[..|items| - 1]), items[|items| - 1];
            CoalescedStamps(items) == Merge(MoveStamp, q, it) && forall x :: x in q + [it] ==> x in items
  {
    var front := items[..|items| - 1];
    CoalescedStampsMembers(front);
    assert forall x :: x in front ==> x in items;
  }

  /** Collapsing a steady batch makes no difference. */
  lemma {:induction false} CollapsedAlike(p: Permissions, h: Host, lo: nat, items: seq<Stamped>)
    requires Reaches(p, h, lo, items) && (p.mouse ==> Steady(items))
    ensures Alike(p, TakeAll(p, h, AllOnWire(CoalescedStamps(items))), TakeAll(p, h, AllOnWire(items)))
  {
    if items != [] {
      var front, it := items[..|items| - 1], items[|items| - 1];
      var q := CoalescedStamps(front);
      MembersReach(p, h, lo, items, front);
      CollapsedAlike(p, h, lo, front);
      CoalescedOneMore(items);
      MembersReach(p, h, lo, items, q + [it]);
      CoalescedStampsLast(front);
      if p.mouse && front != [] {
        SteadyEnd(items, q);
      }
      MergeAlike(p, h, lo, q, it);
      TakeSnoc(p, h, front, it);
      TakeSnoc(p, h, q, it);
      assert items == front + [it];
    }
  }

  lemma CoalescedStampsLast(items: seq<Stamped>)
    ensures items != [] ==>
              CoalescedStamps(items) != []
              && CoalescedStamps(items)[|CoalescedStamps(items)| - 1] == items[|items| - 1]
  {
  }

  /** One wake-up on a steady batch does what taking its events one by one does. */
  lemma BatchAlike(p: Permissions, h: Host, lo: nat, items: seq<Stamped>)
    requires Reaches(p, h, lo, items) && (p.mouse ==> Steady(items))
    ensures Alike(p, TakeBatch(p, h, AllOnWire(items)), TakeAll(p, h, AllOnWire(items)))
  {
    CoalescedStampsMatch(items);
    CollapsedAlike(p, h, lo, items);
  }

  // ---- running ahead -------------------------------------------------------------------------------

  /** Nothing but moves and events this host refuses. */
  predicate Harmless(p: Permissions, items: seq<Stamped>) {
    forall x :: x in items ==> x.ev.MouseMove? || !Allowed(p, x.ev)
  }

  lemma {:induction false} HarmlessLog(p: Permissions, h: Host, items: seq<Stamped>)
    requires Harmless(p, items)
    ensures TakeAll(p, h, AllOnWire(items)).meaning.log == h.meaning.log
  {
    if items != [] {
      var front, it := items[..|items| - 1], items[|items| - 1];
      assert items == front + [it];
      HarmlessLog(p, h, front);
      TakeSnoc(p, h, front, it);
    }
  }

  /** When every move of the tail is stale, the pointer stays. */
  lemma {:induction false} StaleTail(p: Permissions, h: Host, lo: nat, tail: seq<Stamped>)
    requires h.lastMove == Wrap(lo)
    requires forall x :: x in tail && x.ev.MouseMove? ==> x.n < lo < x.n + HALF_WINDOW
    ensures var g := TakeAll(p, h, AllOnWire(tail)); g.lastMove == h.lastMove && g.meaning.at == h.meaning.at
  {
    if tail != [] {
      var front, it := tail[..|tail| - 1], tail[|tail| - 1];
      assert tail == front + [it];
      StaleTail(p, h, lo, front);
      TakeSnoc(p, h, front, it);
      if it.ev.MouseMove? {
        StaleIsOlder(TakeAll(p, h, AllOnWire(front)), lo, it);
      }
    }
  }

  /** The newest of all: nothing in front of it is as new. */
  predicate Newest(lo: nat, items: seq<Stamped>, m: Stamped) {
    m.ev.MouseMove? && lo < m.n < lo + HALF_WINDOW
    && forall x :: x in items && x.ev.MouseMove? ==> x.n < m.n < x.n + HALF_WINDOW
  }

  /** The newest move is in force once it is taken. */
  lemma NewestInForce(p: Permissions, h: Host, lo: nat, items: seq<Stamped>, m: Stamped)
    requires p.mouse && h.lastMove == Wrap(lo) && Near(lo, items) && Newest(lo, items, m)
    ensures TakeAll(p, h, AllOnWire(items + [m]))
            == Host(Wrap(m.n), Meaning(Some(OnWire(m)), TakeAll(p, h, AllOnWire(items)).meaning.log))
  {
    LastMoveIsTop(p, h, lo, items);
    TopIsNewest(lo, items);
    StaleIsOlder(TakeAll(p, h, AllOnWire(items)), Top(lo, items), m);
    TakeSnoc(p, h, items, m);
  }

  /** The newest move may run ahead of events that are moves or refused: they leave no trace either way. */
  lemma RunAhead(p: Permissions, h: Host, lo: nat, pre: seq<Stamped>, c: seq<Stamped>, m: Stamped)
    requires m.ev.MouseMove? && Reaches(p, h, lo, pre + c) && (p.mouse ==> Newest(lo, pre + c, m) && Harmless(p, c))
    ensures Alike(p, TakeAll(p, h, AllOnWire(pre + [m] + c)), TakeAll(p, h, AllOnWire(pre + c + [m])))
  {
    var h1 := TakeAll(p, h, AllOnWire(pre));
    TakeCat(p, h, pre, c);
    TakeCat(p, h, pre + [m], c);
    TakeSnoc(p, h, pre, m);
    TakeSnoc(p, h, pre + c, m);
    if p.mouse {
      assert forall x :: x in pre || x in c ==> x in pre + c;
      NewestInForce(p, h, lo, pre, m);
      NewestInForce(p, h, lo, pre + c, m);
      HarmlessLog(p, h1, c);
      var ahead := TakeAll(p, h, AllOnWire(pre + [m]));
      HarmlessLog(p, ahead, c);
      StaleTail(p, ahead, m.n, c);
    } else {
      AlikeTails(p, Take(p, h1, OnWire(m)), h1, AllOnWire(c));
    }
  }

  lemma RunAheadStaysSteady(pre: seq<Stamped>, c: seq<Stamped>, m: Stamped)
    requires Steady(pre + c + [m]) && (forall x :: x in pre ==> x.n < m.n) && (c != [] ==> !c[0].ev.MouseMove?)
    ensures Steady(pre + [m] + c)
  {
    var was, r := pre + c + [m], pre + [m] + c;
    assert forall i :: 0 <= i < |pre| ==> r[i] == was[i] && r[i] in pre;
    assert r[|pre|] == m;
    assert forall i :: |pre| < i < |r| ==> r[i] == was[i - 1];
    if c != [] {
      assert r[|pre| + 1] == c[0];
    }
  }
}
