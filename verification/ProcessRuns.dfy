/** How long an agent process lives and when it counts as busy (clients/python/aircd/daemon.py). */
module ProcessRuns {
  import opened Prelude
  import opened Dedup
  import opened Delivery
  import opened DeliveryFacts
  import opened DeliveryRuns

  /** Its own end of output, or a watchdog that finds it stuck in a turn: nothing else ends a process. */
  predicate Ends(w: World, s: Step, g: nat) {
    && w.control.Resting? && w.agent.process == Some(g)
    && (s == Eof(g) || (s == Watchdog(true) && w.agent.busy))
  }

  lemma {:induction false} ProcessStaysUnlessEnded(w: World, s: Step, g: nat)
    requires NotStranded(w) && w.agent.process == Some(g)
    ensures var r := Next(w, s);
      && r.agent.process == (if Ends(w, s, g) then None else Some(g))
      && r.agent.started == w.agent.started
  {
    hide Touch, Expired, Kept, Requeued, Drain, PushedOut, AfterAcks, AckedBy;
  }

  /** A process is started only where one is due, and never under a number used before. */
  lemma {:induction false} StartsAreNew(w: World, s: Step)
    requires NotStranded(w) && w.agent.process.None?
    ensures var r := Next(w, s);
      if w.control.Starting? && s.Continue?
      then r.agent.process == Some(w.agent.started) && r.agent.started == w.agent.started + 1 && r.agent.busy
      else r.agent.process.None? && r.agent.started == w.agent.started
  {
    hide Touch, Expired, Kept, Requeued, Drain, PushedOut, AfterAcks, AckedBy;
  }

  lemma {:induction false} OldNumbersDoNotReturn(steps: seq<Step>, more: seq<Step>, g: nat)
    requires g < Run(steps).agent.started && Run(steps).agent.process != Some(g)
    ensures g < Run(steps + more).agent.started && Run(steps + more).agent.process != Some(g)
  {
    if more == [] {
      assert steps + more == steps;
    } else {
      var all := steps + more;
      assert Front(all) == steps + Front(more);
      OldNumbersDoNotReturn(steps, Front(more), g);
      NothingIsStranded(Front(all));
      var w := Run(Front(all));
      hide Next, NotStranded;
      if w.agent.process.Some? {
        ProcessStaysUnlessEnded(w, Last(all), w.agent.process.value);
      } else {
        StartsAreNew(w, Last(all));
      }
    }
  }

  /** No step of `more`, which follows `steps`, ends the process. */
  ghost predicate NeverEnds(steps: seq<Step>, more: seq<Step>, g: nat) {
    more == [] || (NeverEnds(steps, Front(more), g) && !Ends(Run(steps + Front(more)), Last(more), g))
  }

  /**
    In every run a process, once it is the current one, stays the current one exactly as long as neither its own end of
    output nor a watchdog that found it stuck while busy comes.
   */
  lemma {:induction false} ProcessLivesUntilEnded(steps: seq<Step>, more: seq<Step>, g: nat)
    requires Run(steps).agent.process == Some(g)
    ensures Run(steps + more).agent.process == Some(g) <==> NeverEnds(steps, more, g)
  {
    if more == [] {
      assert steps + more == steps;
    } else {
      var before, s := steps + Front(more), Last(more);
      assert Front(steps + more) == before && Last(steps + more) == s;
      ProcessLivesUntilEnded(steps, Front(more), g);
      NothingIsStranded(before);
      assert Run(steps + more) == Next(Run(before), s);
      hide Next, Ends, NotStranded, Run;
      if Run(before).agent.process == Some(g) {
        ProcessStaysUnlessEnded(Run(before), s, g);
      } else {
        NumberIsUsed(steps, Front(more), g);
        assert before + [s] == steps + more;
        OldNumbersDoNotReturn(before, [s], g);
      }
    }
  }

  lemma {:induction false} NumberIsUsed(steps: seq<Step>, more: seq<Step>, g: nat)
    requires Run(steps).agent.process == Some(g)
    ensures g < Run(steps + more).agent.started
  {
    NothingIsStranded(steps);
    if more == [] {
      assert steps + more == steps;
    } else {
      var all := steps + more;
      assert Front(all) == steps + Front(more);
      NumberIsUsed(steps, Front(more), g);
      NothingIsStranded(Front(all));
      var w := Run(Front(all));
      hide Next, NotStranded;
      if w.agent.process.Some? {
        ProcessStaysUnlessEnded(w, Last(all), w.agent.process.value);
      } else {
        StartsAreNew(w, Last(all));
      }
    }
  }

  /** A watchdog that finds nothing stuck, or no turn in progress, changes nothing. */
  lemma {:induction false} AHealthyAgentIsLeftAlone(steps: seq<Step>, stuck: bool)
    requires !stuck || !Run(steps).agent.busy
    ensures Run(steps + [Watchdog(stuck)]) == Run(steps)
  {
    assert Front(steps + [Watchdog(stuck)]) == steps;
  }

  /**
    Busy means that a turn was begun, by starting the process or by a successful write, and that since then no result
    was read and the process did not end.
   */
  lemma {:induction false} BusyFollowsTheTurns(steps: seq<Step>, s: Step)
    ensures var w, r := Run(steps), Run(steps + [s]);
      r.agent.busy <==>
        if s.Continue? && (w.control.Starting? || (s.ok && w.control.Holding?)) then true
        else if (s == Result && w.control.Resting?) || (w.agent.process.Some? && Ends(w, s, w.agent.process.value))
        then false
        else w.agent.busy
  {
    NothingIsStranded(steps);
    assert Front(steps + [s]) == steps;
    hide Run, Touch, Expired, Kept, Requeued, Drain, PushedOut, AfterAcks, AckedBy;
  }
}
