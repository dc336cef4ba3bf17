// The queues between the actors are bounded: no step ever puts more into one than its capacity, so
// senders really wait.
module Capacities {
  import opened Ledger
  import opened Chains
  import opened Watching
  import opened Protocol

  ghost predicate Fits(c: Config, x: TrackerState) {
    |x.queue| <= c.capacity
  }

  ghost predicate AllFit(c: Config, s: World) {
    && |s.stateQ| <= c.capacity && |s.managerQ| <= c.capacity
    && forall t :: 0 <= t < |s.trackers| ==> Fits(c, s.trackers[t])
  }

  lemma OneFits(c: Config, s: World, s': World, t: nat)
    requires AllFit(c, s) && OnlyTracker(s, s', t)
    requires Fits(c, s'.trackers[t]) && |s'.stateQ| <= c.capacity
    ensures AllFit(c, s')
  {
    hide Fits;
  }

  lemma BlockFits(c: Config, s: World, t: nat)
    requires Enabled(c, s, BlockArrives(t))
    ensures var s' := Apply(c, s, BlockArrives(t));
            t < |s'.trackers| && Fits(c, s'.trackers[t]) && s'.stateQ == s.stateQ
  {
  }

  lemma ConnectionFits(c: Config, s: World, st: Step)
    requires Enabled(c, s, st) && (st.TrackerConnect? || st.TrackerQuit? || st.TrackerTimeout?)
    requires Fits(c, s.trackers[st.t])
    ensures var s' := Apply(c, s, st);
            st.t < |s'.trackers| && Fits(c, s'.trackers[st.t]) && s'.stateQ == s.stateQ
  {
    hide Prepare, CallersIn;
  }

  lemma NotifyFits(c: Config, s: World, st: Step)
    requires Enabled(c, s, st) && (st.TrackerAnnounce? || st.TrackerReport?)
    requires Fits(c, s.trackers[st.t]) && |s.stateQ| <= c.capacity
    ensures var s' := Apply(c, s, st);
            st.t < |s'.trackers| && Fits(c, s'.trackers[st.t]) && |s'.stateQ| <= c.capacity
  {
  }

  lemma RoundFits(c: Config, s: World, st: Step)
    requires Enabled(c, s, st) && (st.TrackerVisit? || st.TrackerSettle?)
    requires Fits(c, s.trackers[st.t])
    ensures var s' := Apply(c, s, st);
            st.t < |s'.trackers| && Fits(c, s'.trackers[st.t]) && s'.stateQ == s.stateQ
  {
    hide EvidenceOf, Reports, Dropped, VisitAllowed, Repeat;
  }

  lemma TakeFits(c: Config, s: World, t: nat, outcome: BlockOutcome)
    requires t < |s.trackers| && s.trackers[t].phase.Serving? && |s.trackers[t].queue| > 0 && Fits(c, s.trackers[t])
    ensures var s' := TakeTrackerMsg(s, t, outcome);
            t < |s'.trackers| && Fits(c, s'.trackers[t]) && s'.stateQ == s.stateQ
  {
    hide CallersIn;
  }

  lemma TrackerStepFits(c: Config, s: World, st: Step)
    requires AllFit(c, s) && Enabled(c, s, st) && OfTrackers(st)
    ensures AllFit(c, Apply(c, s, st))
  {
    TrackerFrame(c, s, st);
    assert st.t < |s.trackers| && Fits(c, s.trackers[st.t]);
    hide Fits, AllFit, OnlyTracker;
    if st.TrackerTake? {
      hide TakeTrackerMsg;
      TakeFits(c, s, st.t, st.outcome);
    } else if st.TrackerAnnounce? || st.TrackerReport? {
      NotifyFits(c, s, st);
    } else if st.TrackerVisit? || st.TrackerSettle? {
      RoundFits(c, s, st);
    } else if st.BlockArrives? {
      BlockFits(c, s, st.t);
    } else {
      ConnectionFits(c, s, st);
    }
    StateQueueFits(c, s, st);
    hide Apply, Enabled;
    OneFits(c, s, Apply(c, s, st), st.t);
  }

  lemma StateQueueFits(c: Config, s: World, st: Step)
    requires |s.stateQ| <= c.capacity && Enabled(c, s, st) && OfTrackers(st)
    ensures |Apply(c, s, st).stateQ| <= c.capacity
  {
    hide Prepare, EvidenceOf, Reports, Dropped, VisitAllowed, CallersIn;
    if st.TrackerTake? {
      TakeTrackerMsgFrame(s, st.t, st.outcome);
      hide TakeTrackerMsg;
    }
  }

  lemma ManagerStepFits(c: Config, s: World, st: Step)
    requires AllFit(c, s) && Enabled(c, s, st) && OfManager(st)
    ensures AllFit(c, Apply(c, s, st))
  {
    ManagerFrame(c, s, st);
    forall t | 0 <= t < |s.trackers| ensures Fits(c, Apply(c, s, st).trackers[t]) {
      GivenFits(c, s, st, t);
    }
    hide Apply, Enabled, Fits;
  }

  lemma GivenFits(c: Config, s: World, st: Step, t: nat)
    requires Enabled(c, s, st) && OfManager(st) && t < |s.trackers| && Fits(c, s.trackers[t])
    ensures t < |Apply(c, s, st).trackers| && Fits(c, Apply(c, s, st).trackers[t])
  {
    hide Route, Drained, CallersInM, CallerOf;
    if st.ManagerTake? || st.ManagerFinish? {
      assert Apply(c, s, st).trackers == s.trackers;
    }
  }

  lemma StateStepFits(c: Config, s: World, st: Step)
    requires AllFit(c, s) && Enabled(c, s, st) && OfState(st)
    ensures AllFit(c, Apply(c, s, st))
  {
    hide WatchOf, ListsPending, Fits;
  }

  lemma StepFits(c: Config, s: World, st: Step)
    requires AllFit(c, s) && Enabled(c, s, st)
    ensures AllFit(c, Apply(c, s, st))
  {
    if OfTrackers(st) {
      hide Apply, Enabled, AllFit;
      TrackerStepFits(c, s, st);
    } else if OfManager(st) {
      hide Apply, Enabled, AllFit;
      ManagerStepFits(c, s, st);
    } else if OfState(st) {
      hide Apply, Enabled, AllFit;
      StateStepFits(c, s, st);
    } else if st.PayoutStart? {
      PayoutFrame(c, s, st);
      hide Apply, Enabled;
    } else if st.StateTake? {
      TakeStateMsgFrame(c, s, st.now);
      hide TakeStateMsg;
    }
  }

  lemma {:induction false} RunsFit(c: Config, s: World, steps: seq<Step>, s': World)
    requires AllFit(c, s) && Runs(c, s, steps, s')
    ensures AllFit(c, s')
    decreases |steps|
  {
    if |steps| > 0 {
      StepFits(c, s, steps[0]);
      hide AllFit, Apply, Enabled;
      RunsFit(c, Apply(c, s, steps[0]), steps[1..], s');
    }
  }

  /** In every reachable state every queue holds at most its capacity. */
  lemma QueuesAreBounded(c: Config, s: World)
    requires Reachable(c, s)
    ensures |s.stateQ| <= c.capacity && |s.managerQ| <= c.capacity
    ensures forall t :: 0 <= t < |s.trackers| ==> |s.trackers[t].queue| <= c.capacity
  {
    var steps :| Runs(c, Init(c), steps, s);
    RunsFit(c, Init(c), steps, s);
    assert forall t :: 0 <= t < |s.trackers| ==> Fits(c, s.trackers[t]);
  }
}
