/** Two runs around the gap before the slot: a click that costs the newest position, and a refused key that
    costs nothing. */
module InputRace {
  import opened Wrappers
  import opened InputEvents
  import opened InputStale
  import opened InputPipeline
  import opened InputMeaning
  import opened InputGap

  const A := Stamped(1, MouseMove(10, 10))
  const CLICK := Stamped(2, MouseButton(0, true))
  const B := Stamped(3, MouseMove(500, 500))

  const EVERYTHING := Permissions(true, true)

  /** The writer has found the channel empty; before it takes the slot, a click and a newer move arrive. */
  const RACE := [SendMove(A), LockSend(CLICK), FinishSend, SendMove(B), TakeSlot]

  /** The first step of a run, taken off its front. */
  lemma RunFirst(p: Permissions, s: Pipe, steps: seq<Step>)
    requires steps != []
    ensures Run(p, s, steps) == Run(p, Next(p, s, steps[0]), steps[1..])
  {
    RunCons(p, s, steps[0], steps[1..]);
    assert steps == [steps[0]] + steps[1..];
  }

  lemma FiveSteps(p: Permissions, s: Pipe, r: seq<Step>)
    requires |r| == 5
    ensures Run(p, s, r) == Next(p, Next(p, Next(p, Next(p, Next(p, s, r[0]), r[1]), r[2]), r[3]), r[4])
  {
    var s1 := Next(p, s, r[0]);
    var s2 := Next(p, s1, r[1]);
    var s3 := Next(p, s2, r[2]);
    var s4 := Next(p, s3, r[3]);
    RunFirst(p, s, r);
    RunFirst(p, s1, r[1..]);
    RunFirst(p, s2, r[1..][1..]);
    RunFirst(p, s3, r[1..][1..][1..]);
    RunFirst(p, s4, r[1..][1..][1..][1..]);
  }

  /** The slot's move has overtaken the click it was made after. */
  lemma RaceState()
    ensures Run(EVERYTHING, EMPTY, RACE)
            == EMPTY.(channel := [Input(A), Input(CLICK)], deque := [Input(B)], newest := 3,
                      sent := [A, CLICK, B], queued := [Input(CLICK)])
  {
    FiveSteps(EVERYTHING, EMPTY, RACE);
  }

  /** Draining next, the older move overwrites the newer one: the newest position is lost for good. */
  lemma RaceLosesNewestMove()
    ensures var s := Run(EVERYTHING, EMPTY, RACE + DRAIN_AFTER);
            && Drained(s)
            && s.host.meaning.at == Some(OnWire(A))
            && Intended(EVERYTHING, s).at == Some(OnWire(B))
  {
    RaceState();
    RunCat(EVERYTHING, EMPTY, RACE, DRAIN_AFTER);
    DrainAfterRace(Run(EVERYTHING, EMPTY, RACE));
    RaceHost();
    RaceIntended();
  }

  lemma RaceHost()
    ensures TakeBatch(EVERYTHING, EMPTY.host, AllOnWire(Inputs([Input(A), Input(CLICK)]))).meaning.at == Some(OnWire(A))
  {
    assert [Input(A), Input(CLICK)] == [Input(A)] + [Input(CLICK)];
    InputsConcat([Input(A)], [Input(CLICK)]);
    assert Inputs([Input(A)]) == [A] && Inputs([Input(CLICK)]) == [CLICK];
    assert [A] + [CLICK] == [A, CLICK];
    assert AllOnWire([A, CLICK]) == [OnWire(A), OnWire(CLICK)];
    TwoEvents(EVERYTHING, OnWire(A), OnWire(CLICK));
  }

  lemma RaceIntended()
    ensures ApplyAll(EVERYTHING, NOTHING_APPLIED, AllOnWire([A, CLICK, B])).at == Some(OnWire(B))
  {
    ApplySnoc(EVERYTHING, NOTHING_APPLIED, [A, CLICK], B);
    assert [A, CLICK] + [B] == [A, CLICK, B];
  }

  const DRAIN_AFTER := [DrainOne, DrainOne, SealFront, SealFront, WakeUp(2)]

  lemma DrainAfterRace(s: Pipe)
    requires s.channel == [Input(A), Input(CLICK)] && s.deque == [Input(B)] && s.sealed == [] && s.taken == 0
    requires s.held.None? && s.slot.None?
    ensures var t := Run(EVERYTHING, s, DRAIN_AFTER);
            && t.taken == 2 && t.sealed == [Input(A), Input(CLICK)] && Drained(t) && t.sent == s.sent
            && t.host == TakeBatch(EVERYTHING, s.host, AllOnWire(Inputs([Input(A), Input(CLICK)])))
  {
    FiveSteps(EVERYTHING, s, DRAIN_AFTER);
    var s2 := Next(EVERYTHING, Next(EVERYTHING, s, DrainOne), DrainOne);
    DrainBoth(s);
    SealBoth(s2);
  }

  lemma DrainBoth(s: Pipe)
    requires s.channel == [Input(A), Input(CLICK)] && s.deque == [Input(B)]
    ensures var t := Next(EVERYTHING, Next(EVERYTHING, s, DrainOne), DrainOne);
            && t.deque == [Input(A), Input(CLICK)] && t.channel == [] && t.sealed == s.sealed && t.taken == s.taken
            && t.held == s.held && t.slot == s.slot && t.sent == s.sent && t.host == s.host
  {
    var s1 := Next(EVERYTHING, s, DrainOne);
    assert s1.deque == [Input(A)] && s1.channel == [Input(CLICK)];
  }

  lemma SealBoth(s: Pipe)
    requires s.deque == [Input(A), Input(CLICK)] && s.channel == [] && s.sealed == [] && s.taken == 0
    requires s.held.None? && s.slot.None?
    ensures var t := Next(EVERYTHING, Next(EVERYTHING, Next(EVERYTHING, s, SealFront), SealFront), WakeUp(2));
            && t.taken == 2 && t.sealed == [Input(A), Input(CLICK)] && Drained(t) && t.sent == s.sent
            && t.host == TakeBatch(EVERYTHING, s.host, AllOnWire(Inputs([Input(A), Input(CLICK)])))
  {
    var s1 := Next(EVERYTHING, s, SealFront);
    assert s1.sealed == [Input(A)] && s1.deque == [Input(CLICK)];
    var s2 := Next(EVERYTHING, s1, SealFront);
    assert s2.sealed == [Input(A), Input(CLICK)] && s2.deque == [];
    assert s2.sealed[0..2] == s2.sealed;
  }

  lemma TwoEvents(p: Permissions, x: Inbound, y: Inbound)
    requires p == EVERYTHING && IsMove(x) && !IsMove(y) && x.num == 1
    ensures TakeBatch(p, FRESH_HOST, [x, y]).meaning.at == Some(x)
  {
    assert [x, y][..1] == [x] && [x][..0] == [];
    assert Coalesced([x]) == [x];
    assert Coalesced([x, y]) == [x, y];
    assert !SeqBefore(1, 0);
    assert TakeAll(p, FRESH_HOST, [x]).meaning.at == Some(x);
  }

  lemma {:induction false} RunCat(p: Permissions, s: Pipe, a: seq<Step>, b: seq<Step>)
    ensures Run(p, s, a + b) == Run(p, Run(p, s, a), b)
  {
    if b == [] {
      assert a + b == a;
    } else {
      assert (a + b)[..|a + b| - 1] == a + b[..|b| - 1];
      RunCat(p, s, a, b[..|b| - 1]);
    }
  }

  // ---- a refused key in front ----------------------------------------------------------------------

  const MOUSE_ONLY := Permissions(true, false)
  const KEY := Key(30, false, true)

  /** A refused key waits in the channel, then an older move with another refused key behind it. */
  const BEHIND_KEY :=
    [LockSend(Stamped(1, KEY)), FinishSend, SendMove(Stamped(2, MouseMove(10, 10))), LockSend(Stamped(3, KEY)), FinishSend]

  lemma BehindKeyState()
    ensures Run(MOUSE_ONLY, EMPTY, BEHIND_KEY)
            == EMPTY.(channel := [Input(Stamped(1, KEY)), Input(Stamped(2, MouseMove(10, 10))), Input(Stamped(3, KEY))],
                      newest := 3,
                      sent := [Stamped(1, KEY), Stamped(2, MouseMove(10, 10)), Stamped(3, KEY)],
                      queued := [Input(Stamped(1, KEY)), Input(Stamped(3, KEY))])
  {
    FiveSteps(MOUSE_ONLY, EMPTY, BEHIND_KEY);
  }

  lemma GuardedFirst(p: Permissions, s: Pipe, steps: seq<Step>)
    requires steps != [] && Guard(p, s, steps[0]) && Guarded(p, Next(p, s, steps[0]), steps[1..])
    ensures Guarded(p, s, steps)
  {
    RunCons(p, s, steps[0], steps[1..]);
    assert steps == [steps[0]] + steps[1..];
  }

  lemma BehindKeyGuarded()
    ensures Guarded(MOUSE_ONLY, EMPTY, BEHIND_KEY)
  {
    var p, r := MOUSE_ONLY, BEHIND_KEY;
    var s1 := Next(p, EMPTY, r[0]);
    var s2 := Next(p, s1, r[1]);
    var s3 := Next(p, s2, r[2]);
    var s4 := Next(p, s3, r[3]);
    assert InReach(r[2].move, s2);
    assert Guarded(p, Next(p, s4, r[4]), []);
    GuardedFirst(p, s4, r[4..]);
    GuardedFirst(p, s3, r[3..]);
    GuardedFirst(p, s2, r[2..]);
    GuardedFirst(p, s1, r[1..]);
    GuardedFirst(p, EMPTY, r);
  }

  lemma NewestBehindKey(m: Stamped)
    requires m.ev.MouseMove? && 3 < m.n < HALF_WINDOW
    ensures Guarded(MOUSE_ONLY, EMPTY, BEHIND_KEY + [SendMove(m)])
    ensures var s := Run(MOUSE_ONLY, EMPTY, BEHIND_KEY + [SendMove(m)]);
            s.slot == Some(m) && s.channel == Run(MOUSE_ONLY, EMPTY, BEHIND_KEY).channel
  {
    BehindKeyState();
    BehindKeyGuarded();
    RunSnoc(MOUSE_ONLY, EMPTY, BEHIND_KEY, SendMove(m));
    assert InReach(m, Run(MOUSE_ONLY, EMPTY, BEHIND_KEY));
  }

  lemma MayPassBehindKey()
    ensures var c := Inputs(Run(MOUSE_ONLY, EMPTY, BEHIND_KEY).channel);
            Stamped(2, MouseMove(10, 10)) in c && Passable(MOUSE_ONLY, c)
  {
    BehindKeyState();
    BehindKeyInputs();
  }

  /** A permitted move waiting in the channel does not make the take unsafe: behind a refused event, it cannot
      stand in for the newest position, and by then it is stale. */
  lemma PermittedMoveMayWait(m: Stamped, steps: seq<Step>)
    requires m.ev.MouseMove? && 3 < m.n < HALF_WINDOW
    ensures var p, older, run := MOUSE_ONLY, Stamped(2, MouseMove(10, 10)), BEHIND_KEY + [SendMove(m)];
            var s := Run(p, EMPTY, run);
            && Guarded(p, EMPTY, run) && s.slot == Some(m)
            && older in Inputs(s.channel) && Allowed(p, older.ev)
            && EndsAsIntended(p, Next(p, s, TakeSlot), steps)
  {
    NewestBehindKey(m);
    MayPassBehindKey();
    GuardedRunIsSane(MOUSE_ONLY, BEHIND_KEY + [SendMove(m)]);
    SafeTake(MOUSE_ONLY, Run(MOUSE_ONLY, EMPTY, BEHIND_KEY + [SendMove(m)]), steps);
  }

  lemma BehindKeyInputs()
    ensures Inputs([Input(Stamped(1, KEY)), Input(Stamped(2, MouseMove(10, 10))), Input(Stamped(3, KEY))])
            == [Stamped(1, KEY), Stamped(2, MouseMove(10, 10)), Stamped(3, KEY)]
  {
    var a, b, c := Input(Stamped(1, KEY)), Input(Stamped(2, MouseMove(10, 10))), Input(Stamped(3, KEY));
    assert [a, b, c][..2] == [a, b] && [a, b][..1] == [a];
    assert Inputs([a]) == [a.event] && Inputs([a, b]) == [a.event, b.event];
  }
}
