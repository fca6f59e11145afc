/** When the watchdog judges a grant dead, read off the steps of the run: its installation and the heartbeats of
    those who hold it. */
module Heartbeats {
  import opened Wrappers
  import opened Broker
  import opened Elevation

  /** A connection that holds the token and the process of the installed grant completes a heartbeat. */
  predicate Beats(w: World, s: Step) {
    && s.Do? && s.action.Beat? && s.id in w.clients && w.clients[s.id].pc.Beating?
    && w.sh.slot.Some? && w.clients[s.id].token == Some(w.sh.slot.value.token)
    && w.clients[s.id].pid == w.sh.slot.value.pid
  }

  /** The last time a grant was installed or the installed one was kept alive. */
  function LastSign(steps: seq<Step>): real {
    if steps == [] then 0.0
    else
      var front, s := steps[..|steps| - 1], steps[|steps| - 1];
      var w := Run(START, front);
      if Installs(w, s) || Beats(w, s) then w.now else LastSign(front)
  }

  /** The watchdog's note of the installed grant is that time. */
  predicate Noted(w: World, at: real) {
    w.sh.slot.Some? ==> w.sh.slot.value.token in w.sh.beats && w.sh.beats[w.sh.slot.value.token] == at
  }

  lemma ActNotes(w: World, s: Step, at: real)
    requires Safe(w) && Noted(w, at) && s.Do?
    ensures Noted(Next(w, s), if Installs(w, s) || Beats(w, s) then w.now else at)
  {
    if s.id in w.clients {
      assert ClientSane(w.sh, w.clients[s.id]);
    }
  }

  lemma StepNotes(w: World, s: Step, at: real)
    requires Safe(w) && Noted(w, at)
    ensures Noted(Next(w, s), if Installs(w, s) || Beats(w, s) then w.now else at)
  {
    if s.Do? {
      ActNotes(w, s, at);
    }
  }

  lemma {:induction false} RunNotes(steps: seq<Step>)
    ensures Noted(Run(START, steps), LastSign(steps))
  {
    if steps != [] {
      var front := steps[..|steps| - 1];
      EveryInterleavingIsSafe(front);
      RunNotes(front);
      StepNotes(Run(START, front), steps[|steps| - 1], LastSign(front));
    }
  }

  /** In every interleaving: the watchdog judges the installed grant dead if and only if its agent is dead, or more
      than ten seconds have passed since the later of its installation and the last heartbeat completed by a
      connection that holds its token and process. */
  lemma JudgedExactlyWhen(steps: seq<Step>, alive: bool)
    requires Run(START, steps).judged.None?
    ensures var w := Run(START, steps);
            Next(w, Judge(alive)).judged.Some? <==> w.sh.slot.Some? && (!alive || w.now - LastSign(steps) > 10.0)
    ensures var w := Run(START, steps);
            Next(w, Judge(alive)).judged.Some? ==> Next(w, Judge(alive)).judged == w.sh.slot
  {
    RunNotes(steps);
  }

  /** Nor is a grant that nobody keeps alive overlooked: after more than ten seconds in which nothing happens, the
      watchdog judges it, and then ends it. */
  lemma SilenceIsNoticed(steps: seq<Step>, d: real)
    requires Run(START, steps).judged.None? && Run(START, steps).sh.slot.Some? && d > 10.0
    ensures var w := Run(START, steps);
            Next(Next(Next(w, Pass(d)), Judge(true)), Sweep).sh.slot.None?
  {
    var later := steps + [Pass(d)];
    RunSnoc(START, steps, Pass(d));
    assert later[..|steps|] == steps;
    LastSignIsPast(steps);
    JudgedExactlyWhen(later, true);
  }

  lemma {:induction false} LastSignIsPast(steps: seq<Step>)
    ensures LastSign(steps) <= Run(START, steps).now && 0.0 <= Run(START, steps).now
  {
    if steps != [] {
      LastSignIsPast(steps[..|steps| - 1]);
    }
  }

  /** At every look of the watchdog the agent is alive, and the last sign at most ten seconds old. */
  predicate KeptAlive(steps: seq<Step>) {
    forall i :: 0 <= i < |steps| && steps[i].Judge? ==>
      steps[i].alive && Run(START, steps[..i]).now - LastSign(steps[..i]) <= 10.0
  }

  /** A grant that is kept alive is never judged, and the watchdog never ends it. */
  lemma {:induction false} KeptAliveIsNeverJudged(steps: seq<Step>)
    requires KeptAlive(steps)
    ensures Run(START, steps).judged == None
    ensures steps != [] && steps[|steps| - 1] == Sweep ==> Run(START, steps).sh == Run(START, steps[..|steps| - 1]).sh
  {
    if steps != [] {
      var front := steps[..|steps| - 1];
      assert forall i :: 0 <= i < |front| ==> front[..i] == steps[..i] && front[i] == steps[i];
      KeptAliveIsNeverJudged(front);
      if steps[|steps| - 1].Judge? {
        JudgedExactlyWhen(front, steps[|steps| - 1].alive);
      }
    }
  }

  /** A holder's heartbeat counts from the moment it is completed, and a check is all that comes before it. */
  lemma HolderCanBeat(steps: seq<Step>, id: ConnId)
    requires var w := Run(START, steps);
             && id in w.clients && w.clients[id].pc == Idle && w.sh.slot.Some?
             && w.clients[id].token == Some(w.sh.slot.value.token) && w.clients[id].pid == w.sh.slot.value.pid
    ensures LastSign(steps + [Do(id, AskBeat)] + [Do(id, Beat)]) == Run(START, steps).now
  {
    var asked := steps + [Do(id, AskBeat)];
    RunSnoc(START, steps, Do(id, AskBeat));
    assert (asked + [Do(id, Beat)])[..|asked|] == asked;
    assert Beats(Run(START, asked), Do(id, Beat));
  }
}
