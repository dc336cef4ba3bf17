// How the daemon stops: the manager's drain reaches every tracker it knows, the State handler does not
// end its wait before that, and an idle daemon that is asked to stop can do so.
module WindingDown {
  import opened Ledger
  import opened Chains
  import opened Watching
  import opened Protocol
  import opened Deadlock
  import opened Losses
  import opened Scenarios

  /** The tracker has ended, or the request to end is in its queue. */
  predicate Told(s: World, t: nat) {
    t < |s.trackers| && (s.trackers[t].phase.Ended? || TShutdown in s.trackers[t].queue)
  }

  /** The manager drains one tracker per chain name: that of the last chain of the name. */
  lemma {:induction false} DrainedIff(chains: seq<Chain>, t: nat)
    ensures t in Drained(chains) <==> LastNamed(chains, t)
  {
    WatchChainIs(chains);
    var m := WatchChain(chains);
    if LastNamed(chains, t) {
      var name := chains[t].name;
      assert name in m && LastNamed(chains, m[name]) && chains[m[name]].name == name;
      assert m[name] in m.Values;
    }
  }

  // --- One step ---

  /** Draining a tracker that has not ended appends the request to end to its queue. */
  lemma DrainTells(c: Config, s: World, t: nat)
    requires Enabled(c, s, ManagerDrain(t))
    ensures var s' := Apply(c, s, ManagerDrain(t));
            && Told(s', t)
            && (!s.trackers[t].phase.Ended? ==> s'.trackers[t].queue == s.trackers[t].queue + [TShutdown])
            && s'.mctl == Draining(s.mctl.todo - {t})
  {
  }

  lemma TakenStaysTold(s: World, t: nat, outcome: BlockOutcome)
    requires t < |s.trackers| && s.trackers[t].phase.Serving? && |s.trackers[t].queue| > 0 && Told(s, t)
    ensures Told(TakeTrackerMsg(s, t, outcome), t)
  {
    hide CallersIn;
    var q := s.trackers[t].queue;
    assert q[0].TShutdown? || TShutdown in q[1..];
  }

  lemma NotifiedStaysTold(c: Config, s: World, st: Step)
    requires Enabled(c, s, st) && (st.TrackerAnnounce? || st.TrackerReport?) && Told(s, st.t)
    ensures Told(Apply(c, s, st), st.t)
  {
  }

  lemma RoundStaysTold(c: Config, s: World, st: Step)
    requires Enabled(c, s, st) && (st.TrackerVisit? || st.TrackerSettle?) && Told(s, st.t)
    ensures Told(Apply(c, s, st), st.t)
  {
    hide EvidenceOf, Reports, Dropped, VisitAllowed;
  }

  lemma ConnectionStaysTold(c: Config, s: World, st: Step)
    requires Enabled(c, s, st) && (st.BlockArrives? || st.TrackerConnect? || st.TrackerQuit? || st.TrackerTimeout?)
    requires Told(s, st.t)
    ensures Told(Apply(c, s, st), st.t)
  {
    hide Prepare, CallersIn;
  }

  lemma OwnStepStaysTold(c: Config, s: World, st: Step)
    requires Enabled(c, s, st) && OfTrackers(st) && Told(s, st.t)
    ensures Told(Apply(c, s, st), st.t)
  {
    hide Told;
    if st.TrackerTake? {
      hide TakeTrackerMsg;
      TakenStaysTold(s, st.t, st.outcome);
    } else {
      hide Apply, Enabled;
      if st.TrackerAnnounce? || st.TrackerReport? {
        NotifiedStaysTold(c, s, st);
      } else if st.TrackerVisit? || st.TrackerSettle? {
        RoundStaysTold(c, s, st);
      } else {
        ConnectionStaysTold(c, s, st);
      }
    }
  }

  /** Nothing but a crash takes the request back, or starts a tracker again. */
  lemma StaysTold(c: Config, s: World, st: Step, t: nat)
    requires Enabled(c, s, st) && !st.Crash? && Told(s, t)
    ensures Told(Apply(c, s, st), t)
  {
    if OfTrackers(st) {
      TrackerFrame(c, s, st);
      if st.t == t {
        OwnStepStaysTold(c, s, st);
      }
      hide Apply, Enabled;
    } else if OfManager(st) {
      ManagerFrame(c, s, st);
      hide Apply, Enabled;
    } else if OfState(st) {
      StateFrame(c, s, st);
      hide Apply, Enabled;
    } else if st.PayoutStart? {
      PayoutFrame(c, s, st);
      hide Apply, Enabled;
    } else {
      TakeStateMsgFrame(c, s, st.now);
      hide TakeStateMsg;
    }
  }

  // --- Every run ---

  /**
   * While it drains, the manager has told every tracker that it does not still have to tell; when
   * the State handler waits for it and it is gone, it has told them all.
   */
  ghost predicate Winding(c: Config, s: World) {
    && (s.mctl.Draining? ==> forall t :: t in Drained(c.chains) ==> t in s.mctl.todo || Told(s, t))
    && (s.mctl.Gone? && s.ctl.Stopping? ==> forall t :: t in Drained(c.chains) ==> Told(s, t))
  }

  lemma ManagerMoves(c: Config, s: World, st: Step)
    requires Enabled(c, s, st) && OfManager(st)
    ensures var m, m' := s.mctl, Apply(c, s, st).mctl;
            && (m'.Draining? ==> m'.todo == Drained(c.chains) || (st.ManagerDrain? && m.Draining? && m'.todo == m.todo - {st.t}))
            && (m'.Gone? ==> (m.Draining? && m.todo == {}) || s.ctl.Stopped?)
  {
    if st.ManagerTake? {
      TakingMoves(c, s);
      hide Apply, Enabled;
    } else {
      hide CallersInM, CallerOf, TakeManagerMsg, Drained;
    }
  }

  lemma TakingMoves(c: Config, s: World)
    requires Enabled(c, s, ManagerTake)
    ensures var m' := Apply(c, s, ManagerTake).mctl;
            && (m'.Draining? ==> m'.todo == Drained(c.chains))
            && !m'.Gone?
  {
    hide Drained, Route;
  }

  lemma ManagerDrains(c: Config, s: World, st: Step)
    requires Winding(c, s) && Enabled(c, s, st) && OfManager(st)
    ensures Winding(c, Apply(c, s, st))
  {
    hide Apply, Enabled, Told, Drained;
    forall t | Told(s, t) ensures Told(Apply(c, s, st), t) {
      StaysTold(c, s, st, t);
    }
    ManagerMoves(c, s, st);
    ManagerFrame(c, s, st);
    if st.ManagerDrain? {
      DrainTells(c, s, st.t);
    }
  }

  lemma StateKeepsManager(c: Config, s: World, st: Step)
    requires ShutdownOnce(s) && Enabled(c, s, st) && OfState(st)
    ensures var s' := Apply(c, s, st);
            s'.mctl == s.mctl && (s'.mctl.Gone? && s'.ctl.Stopping? ==> s.ctl.Stopping?)
  {
    hide ListsPending, WatchOf, Shutdowns;
  }

  lemma OthersDrain(c: Config, s: World, st: Step)
    requires ShutdownOnce(s) && Winding(c, s) && Enabled(c, s, st) && !OfManager(st) && !st.Crash?
    ensures Winding(c, Apply(c, s, st))
  {
    forall t | Told(s, t) ensures Told(Apply(c, s, st), t) {
      StaysTold(c, s, st, t);
    }
    if OfTrackers(st) {
      TrackerFrame(c, s, st);
      hide Apply, Enabled, Told, Drained;
    } else if OfState(st) {
      StateKeepsManager(c, s, st);
      hide Apply, Enabled, Told, Drained;
    } else if st.PayoutStart? {
      PayoutFrame(c, s, st);
      hide Apply, Enabled, Told, Drained;
    } else {
      TakeStateMsgFrame(c, s, st.now);
      hide TakeStateMsg, Told, Drained;
    }
  }

  lemma StepDrains(c: Config, s: World, st: Step)
    requires ShutdownOnce(s) && Winding(c, s) && Enabled(c, s, st)
    ensures Winding(c, Apply(c, s, st))
  {
    if OfManager(st) {
      hide Apply, Enabled, Winding;
      ManagerDrains(c, s, st);
    } else if !st.Crash? {
      hide Apply, Enabled, Winding, ShutdownOnce;
      OthersDrain(c, s, st);
    }
  }

  lemma {:induction false} RunsDrain(c: Config, s: World, steps: seq<Step>, s': World)
    requires Shaped(c, s) && ShutdownOnce(s) && Winding(c, s) && Runs(c, s, steps, s')
    ensures Winding(c, s')
    decreases |steps|
  {
    if |steps| > 0 {
      StepShaped(c, s, steps[0]);
      StepShutdownOnce(c, s, steps[0]);
      StepDrains(c, s, steps[0]);
      hide Shaped, ShutdownOnce, Winding, Apply, Enabled;
      RunsDrain(c, Apply(c, s, steps[0]), steps[1..], s');
    }
  }

  /**
   * When the State handler's wait for the manager is over, every tracker the manager knows, the last
   * of each chain name, has ended or has the request to end in its queue.
   */
  lemma AllAreTold(c: Config, s: World, t: nat)
    requires Reachable(c, s) && Enabled(c, s, StateStop) && LastNamed(c.chains, t)
    ensures Told(s, t)
  {
    var steps :| Runs(c, Init(c), steps, s);
    assert Shaped(c, Init(c)) && ShutdownOnce(Init(c));
    hide Shaped, ShutdownOnce, Told;
    RunsDrain(c, Init(c), steps, s);
    DrainedIff(c.chains, t);
  }

  lemma {:induction false} ToldForGood(c: Config, s: World, steps: seq<Step>, s': World, t: nat)
    requires Runs(c, s, steps, s') && Crash !in steps && Told(s, t)
    ensures Told(s', t)
    decreases |steps|
  {
    if |steps| > 0 {
      StaysTold(c, s, steps[0], t);
      hide Told, Apply, Enabled;
      ToldForGood(c, Apply(c, s, steps[0]), steps[1..], s', t);
    }
  }

  /** The State handler is stopping because it was asked to, by a signal or a failed task. */
  predicate StopsOnRequest(s: World) {
    s.ctl.Stopping? || s.ctl == Sending(MShutdown) ==> s.cancelled
  }

  lemma StateStopsOnRequest(c: Config, s: World, st: Step)
    requires StopsOnRequest(s) && Enabled(c, s, st) && OfState(st)
    ensures StopsOnRequest(Apply(c, s, st))
  {
    hide ListsPending, WatchOf;
  }

  lemma StepStopsOnRequest(c: Config, s: World, st: Step)
    requires StopsOnRequest(s) && Enabled(c, s, st)
    ensures StopsOnRequest(Apply(c, s, st))
  {
    if OfTrackers(st) {
      TrackerFrame(c, s, st);
      hide Apply, Enabled;
    } else if OfManager(st) {
      ManagerFrame(c, s, st);
      hide Apply, Enabled;
    } else if OfState(st) {
      hide Apply, Enabled;
      StateStopsOnRequest(c, s, st);
    } else if st.PayoutStart? {
      PayoutFrame(c, s, st);
      hide Apply, Enabled;
    } else if st.StateTake? {
      TakeStateMsgFrame(c, s, st.now);
      hide TakeStateMsg;
    }
  }

  lemma {:induction false} RunsStopOnRequest(c: Config, s: World, steps: seq<Step>, s': World)
    requires StopsOnRequest(s) && Runs(c, s, steps, s')
    ensures StopsOnRequest(s')
    decreases |steps|
  {
    if |steps| > 0 {
      StepStopsOnRequest(c, s, steps[0]);
      hide StopsOnRequest, Apply, Enabled;
      RunsStopOnRequest(c, Apply(c, s, steps[0]), steps[1..], s');
    }
  }

  /** In every run the manager is asked to shut down only after the cancellation. */
  lemma StopsOnlyIfCancelled(c: Config, s: World)
    requires Reachable(c, s) && (s.ctl.Stopping? || s.ctl == Sending(MShutdown))
    ensures s.cancelled
  {
    var steps :| Runs(c, Init(c), steps, s);
    RunsStopOnRequest(c, Init(c), steps, s);
  }

  lemma StateAsksWhenDone(c: Config, s: World, st: Step)
    requires Enabled(c, s, st) && OfState(st) && s.ctl != Sending(MShutdown) && Apply(c, s, st).ctl == Sending(MShutdown)
    ensures s.ctl.Idle? && s.cancelled && s.stateQ == []
  {
    hide ListsPending, WatchOf;
  }

  /** The handler turns to its shutdown only when it is cancelled and no message is left in its queue. */
  lemma AsksWhenDone(c: Config, s: World, st: Step)
    requires Enabled(c, s, st) && s.ctl != Sending(MShutdown) && Apply(c, s, st).ctl == Sending(MShutdown)
    ensures s.ctl.Idle? && s.cancelled && s.stateQ == []
  {
    if OfTrackers(st) {
      TrackerFrame(c, s, st);
      hide Apply, Enabled;
    } else if OfManager(st) {
      ManagerFrame(c, s, st);
      hide Apply, Enabled;
    } else if OfState(st) {
      hide Apply, Enabled;
      StateAsksWhenDone(c, s, st);
    } else if st.PayoutStart? {
      PayoutFrame(c, s, st);
      hide Apply, Enabled;
    } else if st.StateTake? {
      TakeStateMsgFrame(c, s, st.now);
      hide TakeStateMsg;
    }
  }

  lemma TakingEnds(s: World, t: nat, outcome: BlockOutcome)
    requires t < |s.trackers| && s.trackers[t].phase.Serving? && |s.trackers[t].queue| > 0
    ensures t < |TakeTrackerMsg(s, t, outcome).trackers|
    ensures TakeTrackerMsg(s, t, outcome).trackers[t].phase.Ended? ==> EndsTracker(s.trackers[t].queue[0], outcome)
  {
    if EndsTracker(s.trackers[t].queue[0], outcome) {
      TakeTrackerMsgFrame(s, t, outcome);
      hide TakeTrackerMsg;
    } else {
      hide EndTracker, FromRequest;
    }
  }

  lemma NotifyingGoesOn(c: Config, s: World, st: Step)
    requires Enabled(c, s, st) && (st.TrackerAnnounce? || st.TrackerReport?)
    ensures st.t < |Apply(c, s, st).trackers| && !Apply(c, s, st).trackers[st.t].phase.Ended?
  {
  }

  lemma RoundGoesOn(c: Config, s: World, st: Step)
    requires Enabled(c, s, st) && (st.TrackerVisit? || st.TrackerSettle?)
    ensures st.t < |Apply(c, s, st).trackers| && !Apply(c, s, st).trackers[st.t].phase.Ended?
  {
    hide EvidenceOf, Reports, Dropped, VisitAllowed, Repeat;
  }

  lemma ConnectionGoesOn(c: Config, s: World, st: Step)
    requires Enabled(c, s, st) && (st.BlockArrives? || st.TrackerConnect? || st.TrackerTimeout?)
    ensures st.t < |Apply(c, s, st).trackers| && !Apply(c, s, st).trackers[st.t].phase.Ended?
  {
    hide Prepare;
  }

  lemma QuitsWhenCancelled(c: Config, s: World, t: nat)
    requires Enabled(c, s, TrackerQuit(t))
    ensures t < |s.trackers| && s.trackers[t].phase.Connecting? && s.cancelled
  {
  }

  lemma TakesWhileServing(c: Config, s: World, st: Step)
    requires Enabled(c, s, st) && st.TrackerTake?
    ensures st.t < |s.trackers| && s.trackers[st.t].phase.Serving? && |s.trackers[st.t].queue| > 0
    ensures Apply(c, s, st) == TakeTrackerMsg(s, st.t, st.outcome)
  {
    hide TakeTrackerMsg;
  }

  lemma OwnEnd(c: Config, s: World, st: Step)
    requires Enabled(c, s, st) && OfTrackers(st)
    requires st.t < |s.trackers| && st.t < |Apply(c, s, st).trackers| && Apply(c, s, st).trackers[st.t].phase.Ended?
    ensures st.TrackerQuit? || st.TrackerTake?
    ensures st.TrackerQuit? ==> s.trackers[st.t].phase.Connecting? && s.cancelled
    ensures st.TrackerTake? ==> |s.trackers[st.t].queue| > 0 && EndsTracker(s.trackers[st.t].queue[0], st.outcome)
  {
    hide Apply, Enabled, TakeTrackerMsg;
    if st.TrackerTake? {
      TakesWhileServing(c, s, st);
      TakingEnds(s, st.t, st.outcome);
    } else if st.TrackerQuit? {
      QuitsWhenCancelled(c, s, st.t);
    } else if st.TrackerAnnounce? || st.TrackerReport? {
      NotifyingGoesOn(c, s, st);
    } else if st.TrackerVisit? || st.TrackerSettle? {
      RoundGoesOn(c, s, st);
    } else {
      ConnectionGoesOn(c, s, st);
    }
  }

  /**
   * A tracker ends for three reasons: the request to end is at the head of its queue, the node fails
   * it for good while it takes a block, or the daemon is cancelled while it is not connected.
   */
  lemma TrackersEndOnlyIf(c: Config, s: World, st: Step, t: nat)
    requires Enabled(c, s, st) && t < |s.trackers| && t < |Apply(c, s, st).trackers|
    requires !s.trackers[t].phase.Ended? && Apply(c, s, st).trackers[t].phase.Ended?
    ensures st == TrackerQuit(t) ==> s.trackers[t].phase.Connecting? && s.cancelled
    ensures st == TrackerQuit(t)
            || (st.TrackerTake? && st.t == t && |s.trackers[t].queue| > 0 && EndsTracker(s.trackers[t].queue[0], st.outcome))
  {
    if OfTrackers(st) {
      TrackerFrame(c, s, st);
      hide Apply, Enabled;
      if st.t == t {
        OwnEnd(c, s, st);
      }
    } else if OfManager(st) {
      ManagerFrame(c, s, st);
      hide Apply, Enabled;
    } else if OfState(st) {
      StateFrame(c, s, st);
      hide Apply, Enabled;
    } else if st.PayoutStart? {
      PayoutFrame(c, s, st);
      hide Apply, Enabled;
    } else if st.StateTake? {
      TakeStateMsgFrame(c, s, st.now);
      hide TakeStateMsg;
    }
  }

  // --- An idle daemon stops ---

  /** Nothing fails: no crash, no handler that gives up, no connection that times out. */
  ghost predicate Orderly(steps: seq<Step>) {
    forall st :: st in steps ==> !st.Crash? && !st.StateGivesUp? && !st.TrackerTimeout?
  }

  ghost predicate WindsTo(c: Config, s: World, s': World) {
    exists steps :: Runs(c, s, steps, s') && Orderly(steps)
  }

  lemma Rests(c: Config, s: World)
    ensures WindsTo(c, s, s)
  {
    assert Runs(c, s, [], s) && Orderly([]);
  }

  lemma Winds(c: Config, s: World, st: Step, s': World)
    requires Enabled(c, s, st) && Apply(c, s, st) == s' && Orderly([st])
    ensures WindsTo(c, s, s')
  {
    hide Apply, Enabled, Orderly;
    assert [st][1..] == [];
    assert Runs(c, s', [], s');
    assert Runs(c, s, [st], s');
  }

  lemma WindsOn(c: Config, s: World, m: World, s': World)
    requires WindsTo(c, s, m) && WindsTo(c, m, s')
    ensures WindsTo(c, s, s')
  {
    hide Runs;
    var one :| Runs(c, s, one, m) && Orderly(one);
    var two :| Runs(c, m, two, s') && Orderly(two);
    RunsOn(c, s, one, m, two, s');
    assert Orderly(one + two);
  }

  /** One more step, to the world it leads to. */
  lemma WindsBy(c: Config, s0: World, s: World, st: Step, s': World)
    requires WindsTo(c, s0, s) && Enabled(c, s, st) && Apply(c, s, st) == s' && Orderly([st])
    ensures WindsTo(c, s0, s')
  {
    hide WindsTo, Enabled, Apply, Orderly;
    Winds(c, s, st, s');
    WindsOn(c, s0, s, s');
  }

  /** The tracker is between two messages, or tries to connect, and has nothing queued. */
  predicate AtRest(x: TrackerState) {
    (x.phase.Serving? || x.phase.Connecting?) && x.queue == []
  }

  function EndedState(x: TrackerState): TrackerState {
    x.(phase := Ended, queue := [])
  }

  lemma TrackerIsTold(c: Config, s: World, t: nat)
    requires c.capacity > 0 && s.mctl.Draining? && t in s.mctl.todo && t < |s.trackers| && AtRest(s.trackers[t])
    ensures Enabled(c, s, ManagerDrain(t))
    ensures Apply(c, s, ManagerDrain(t))
         == With(s.(mctl := Draining(s.mctl.todo - {t})), t, s.trackers[t].(queue := [TShutdown]))
  {
    assert [] + [TShutdown] == [TShutdown];
  }

  lemma NobodyWaits(s: World)
    ensures s.(replies := s.replies + CallersIn([TShutdown])) == s && s.(replies := s.replies + CallersIn([])) == s
  {
    assert CallersIn([TShutdown]) == {} && CallersIn([]) == {};
  }

  /** A serving tracker ends on the message, a connecting one on the cancellation. */
  lemma TrackerEnds(c: Config, s: World, t: nat) returns (st: Step)
    requires t < |s.trackers| && s.trackers[t].queue == [TShutdown] && s.cancelled
    requires s.trackers[t].phase.Serving? || s.trackers[t].phase.Connecting?
    ensures Orderly([st]) && Enabled(c, s, st) && Apply(c, s, st) == With(s, t, EndedState(s.trackers[t]))
  {
    var x := s.trackers[t];
    NobodyWaits(s);
    hide CallersIn;
    st := if x.phase.Serving? then TrackerTake(t, Die) else TrackerQuit(t);
    var x1 := x.(queue := []);
    assert [TShutdown][1..] == [];
    WithTwice(s, t, x1, EndedState(x));
    assert EndedState(x1) == EndedState(x);
  }

  lemma OneEnds(c: Config, s: World, t: nat)
    requires c.capacity > 0 && s.cancelled
    requires s.mctl.Draining? && t in s.mctl.todo && t < |s.trackers| && AtRest(s.trackers[t])
    ensures WindsTo(c, s, With(s.(mctl := Draining(s.mctl.todo - {t})), t, EndedState(s.trackers[t])))
  {
    var x := s.trackers[t];
    var m := s.(mctl := Draining(s.mctl.todo - {t}));
    var s1 := With(m, t, x.(queue := [TShutdown]));
    TrackerIsTold(c, s, t);
    var st := TrackerEnds(c, s1, t);
    WithTwice(m, t, x.(queue := [TShutdown]), EndedState(x));
    assert EndedState(x.(queue := [TShutdown])) == EndedState(x);
    hide WindsTo, Apply, Enabled;
    Rests(c, s);
    WindsBy(c, s, s, ManagerDrain(t), s1);
    WindsBy(c, s, s1, st, With(m, t, EndedState(x)));
  }

  lemma {:induction false} AllEnd(c: Config, s: World) returns (s': World)
    requires c.capacity > 0 && s.cancelled && s.mctl.Draining?
    requires forall t :: t in s.mctl.todo ==> t < |s.trackers| && AtRest(s.trackers[t])
    ensures WindsTo(c, s, s') && |s'.trackers| == |s.trackers|
    ensures s' == s.(mctl := Draining({}), trackers := s'.trackers)
    ensures forall t :: 0 <= t < |s.trackers| ==>
              s'.trackers[t] == if t in s.mctl.todo then EndedState(s.trackers[t]) else s.trackers[t]
    decreases s.mctl.todo
  {
    if s.mctl.todo == {} {
      Rests(c, s);
      s' := s;
    } else {
      var t :| t in s.mctl.todo;
      var s1 := With(s.(mctl := Draining(s.mctl.todo - {t})), t, EndedState(s.trackers[t]));
      OneEnds(c, s, t);
      hide WindsTo, EndedState;
      s' := AllEnd(c, s1);
      WindsOn(c, s, s1, s');
    }
  }

  lemma CancelledIs(c: Config, s: World)
    ensures Enabled(c, s, Cancel) && Apply(c, s, Cancel) == s.(cancelled := true)
  {
  }

  lemma TurnsToStop(c: Config, s: World)
    requires s.ctl.Idle? && s.stateQ == [] && s.cancelled
    ensures Enabled(c, s, StateCancel) && Apply(c, s, StateCancel) == s.(ctl := Sending(MShutdown))
  {
  }

  lemma StopIsSent(c: Config, s: World)
    requires c.capacity > 0 && s.ctl == Sending(MShutdown) && !s.mctl.Gone? && s.managerQ == []
    ensures Enabled(c, s, StateSend) && Apply(c, s, StateSend) == s.(ctl := Stopping, managerQ := [MShutdown])
  {
    assert [] + [MShutdown] == [MShutdown];
  }

  lemma StopIsTaken(c: Config, s: World)
    requires s.mctl.Ready? && s.managerQ == [MShutdown]
    ensures Enabled(c, s, ManagerTake)
    ensures Apply(c, s, ManagerTake) == s.(managerQ := [], mctl := Draining(Drained(c.chains)))
  {
    hide Drained;
    assert [MShutdown][1..] == [];
  }

  lemma AsksToStop(c: Config, s: World)
    requires c.capacity > 0 && s.ctl.Idle? && s.stateQ == [] && s.mctl.Ready? && s.managerQ == []
    ensures WindsTo(c, s, s.(cancelled := true, ctl := Stopping, mctl := Draining(Drained(c.chains))))
  {
    hide WindsTo, Drained, Apply, Enabled;
    Rests(c, s);
    var s1 := s.(cancelled := true);
    CancelledIs(c, s);
    WindsBy(c, s, s, Cancel, s1);
    var s2 := s1.(ctl := Sending(MShutdown));
    TurnsToStop(c, s1);
    WindsBy(c, s, s1, StateCancel, s2);
    var s3 := s1.(ctl := Stopping, managerQ := [MShutdown]);
    StopIsSent(c, s2);
    WindsBy(c, s, s2, StateSend, s3);
    StopIsTaken(c, s3);
    WindsBy(c, s, s3, ManagerTake, s1.(ctl := Stopping, mctl := Draining(Drained(c.chains))));
  }

  lemma Stops(c: Config, s: World)
    requires s.ctl.Stopping? && s.stateQ == [] && s.managerQ == [] && s.mctl == Draining({})
    ensures WindsTo(c, s, s.(ctl := Stopped, mctl := Gone))
  {
    hide WindsTo;
    Rests(c, s);
    assert CallersInM([]) == {};
    var s1 := s.(mctl := Gone);
    WindsBy(c, s, s, ManagerFinish, s1);
    WindsBy(c, s, s1, StateStop, s.(ctl := Stopped, mctl := Gone));
  }

  /**
   * A daemon at rest that is asked to stop can do so from here on: the State handler and the manager
   * have ended, every tracker the manager knows has ended with its watch map as it was, and the
   * order table is what it was. No other way of ending is needed.
   */
  lemma IdleDaemonStops(c: Config, s: World) returns (s': World)
    requires c.Valid() && Shaped(c, s)
    requires s.ctl.Idle? && s.stateQ == [] && s.mctl.Ready? && s.managerQ == []
    requires forall t :: 0 <= t < |s.trackers| ==> AtRest(s.trackers[t])
    ensures WindsTo(c, s, s') && |s'.trackers| == |s.trackers|
    ensures s'.ctl.Stopped? && s'.mctl.Gone? && s'.d == s.d && s'.cancelled
    ensures forall t :: 0 <= t < |s.trackers| ==>
              && s'.trackers[t].watched == s.trackers[t].watched
              && (s'.trackers[t].phase.Ended? <==> LastNamed(c.chains, t))
  {
    DrainedAreTrackers(c.chains);
    forall t: nat { DrainedIff(c.chains, t); }
    var s1 := s.(cancelled := true, ctl := Stopping, mctl := Draining(Drained(c.chains)));
    AsksToStop(c, s);
    hide WindsTo, Drained, LastNamed;
    var s2 := AllEnd(c, s1);
    s' := s2.(ctl := Stopped, mctl := Gone);
    WindsOn(c, s, s1, s2);
    Stops(c, s2);
    WindsOn(c, s, s2, s');
  }
}
