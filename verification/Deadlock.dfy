// What a waiting caller waits for, step by step along its request; and the one cycle among State
// handler, manager and connected trackers: it goes through a full State queue and never resolves.
module Deadlock {
  import opened Definitions
  import opened Ledger
  import opened Chains
  import opened Watching
  import opened Protocol
  import opened Replies
  import opened Safety

  // --- Shape of reachable states ---

  ghost predicate TrackerShape(x: TrackerState) {
    && (x.phase.Ended? ==> x.queue == [])
    && (x.phase.Checking? ==> x.phase.todo <= x.watched.Keys)
  }

  ghost predicate ManagerShape(s: World) {
    && (s.mctl.Gone? ==> s.managerQ == [])
    && (s.mctl.Forwarding? ==> s.mctl.t < |s.trackers|)
    && (s.mctl.Draining? ==> forall t :: t in s.mctl.todo ==> t < |s.trackers|)
  }

  ghost predicate Shaped(c: Config, s: World) {
    && |s.trackers| == |c.chains|
    && ManagerShape(s)
    && forall t :: 0 <= t < |s.trackers| ==> TrackerShape(s.trackers[t])
  }

  lemma OneTrackerShaped(c: Config, s: World, s': World, t: nat)
    requires Shaped(c, s) && t < |s.trackers|
    requires |s'.trackers| == |s.trackers| && s'.trackers == s.trackers[t := s'.trackers[t]]
    requires s'.mctl == s.mctl && s'.managerQ == s.managerQ
    requires TrackerShape(s'.trackers[t])
    ensures Shaped(c, s')
  {
    hide TrackerShape;
  }

  lemma EndTrackerShaped(s: World, t: nat)
    requires t < |s.trackers|
    ensures |EndTracker(s, t).trackers| == |s.trackers| && TrackerShape(EndTracker(s, t).trackers[t])
  {
    hide CallersIn;
  }

  lemma TakeTrackerMsgShaped(s: World, t: nat, outcome: BlockOutcome)
    requires t < |s.trackers| && s.trackers[t].phase.Serving? && |s.trackers[t].queue| > 0
    ensures t < |TakeTrackerMsg(s, t, outcome).trackers| && TrackerShape(TakeTrackerMsg(s, t, outcome).trackers[t])
  {
    hide EndTracker;
    var x := s.trackers[t];
    EndTrackerShaped(s.(trackers := s.trackers[t := x.(queue := x.queue[1..])]), t);
  }

  lemma NotifyShaped(c: Config, s: World, st: Step)
    requires Enabled(c, s, st) && (st.TrackerAnnounce? || st.TrackerReport?)
    requires TrackerShape(s.trackers[st.t])
    ensures st.t < |Apply(c, s, st).trackers| && TrackerShape(Apply(c, s, st).trackers[st.t])
  {
  }

  lemma RoundShaped(c: Config, s: World, st: Step)
    requires Enabled(c, s, st) && (st.TrackerVisit? || st.TrackerSettle?)
    requires TrackerShape(s.trackers[st.t])
    ensures st.t < |Apply(c, s, st).trackers| && TrackerShape(Apply(c, s, st).trackers[st.t])
  {
    hide EvidenceOf, Reports, Dropped, VisitAllowed;
  }

  lemma PhaseShaped(c: Config, s: World, st: Step)
    requires Enabled(c, s, st) && (st.BlockArrives? || st.TrackerConnect? || st.TrackerQuit? || st.TrackerTimeout?)
    requires TrackerShape(s.trackers[st.t])
    ensures st.t < |Apply(c, s, st).trackers| && TrackerShape(Apply(c, s, st).trackers[st.t])
  {
    hide Prepare, CallersIn;
  }

  lemma TrackerStepShaped(c: Config, s: World, st: Step)
    requires Shaped(c, s) && Enabled(c, s, st) && OfTrackers(st)
    ensures Shaped(c, Apply(c, s, st))
  {
    TrackerFrame(c, s, st);
    assert TrackerShape(s.trackers[st.t]);
    hide TrackerShape, Shaped;
    if st.TrackerTake? {
      TakeTrackerMsgShaped(s, st.t, st.outcome);
    } else if st.TrackerAnnounce? || st.TrackerReport? {
      NotifyShaped(c, s, st);
    } else if st.TrackerVisit? || st.TrackerSettle? {
      RoundShaped(c, s, st);
    } else {
      PhaseShaped(c, s, st);
    }
    hide Apply, Enabled;
    OneTrackerShaped(c, s, Apply(c, s, st), st.t);
  }

  lemma ManagerStepShaped(c: Config, s: World, st: Step)
    requires Shaped(c, s) && Enabled(c, s, st) && OfManager(st)
    ensures Shaped(c, Apply(c, s, st))
  {
    hide Route, CallersInM, Drained, TrackerShape;
    if st.ManagerTake? && (s.managerQ[0].MWatch? || s.managerQ[0].MReap?) {
      RoutesIff(c.chains, s.managerQ[0].w.currency);
    } else if st.ManagerTake? {
      DrainedAreTrackers(c.chains);
    }
    QueuesLengthen(c, s, st);
  }

  /** A queue the manager lengthens is that of a live tracker. */
  lemma QueuesLengthen(c: Config, s: World, st: Step)
    requires Shaped(c, s) && Enabled(c, s, st) && OfManager(st)
    ensures |Apply(c, s, st).trackers| == |s.trackers|
    ensures forall t :: 0 <= t < |s.trackers| ==> TrackerShape(Apply(c, s, st).trackers[t])
  {
    hide Route, CallersInM, Drained, ManagerShape, CallerOf;
    if st.ManagerTake? || st.ManagerFinish? {
      assert Apply(c, s, st).trackers == s.trackers;
    }
  }

  lemma DrainedAreTrackers(chains: seq<Chain>)
    ensures forall t :: t in Drained(chains) ==> t < |chains|
  {
    WatchChainIs(chains);
  }

  lemma StepShaped(c: Config, s: World, st: Step)
    requires Shaped(c, s) && Enabled(c, s, st)
    ensures Shaped(c, Apply(c, s, st))
  {
    if OfTrackers(st) {
      TrackerStepShaped(c, s, st);
    } else if OfManager(st) {
      ManagerStepShaped(c, s, st);
    } else if st.StateTake? {
      hide TakeStateMsg;
      TakeStateMsgFrame(c, s, st.now);
    } else {
      hide Prepare, ListsPending, WatchOf, TrackerShape;
    }
  }

  lemma {:induction false} RunsShaped(c: Config, s: World, steps: seq<Step>, s': World)
    requires Shaped(c, s) && Runs(c, s, steps, s')
    ensures Shaped(c, s')
    decreases |steps|
  {
    if |steps| > 0 {
      StepShaped(c, s, steps[0]);
      hide Shaped, Apply, Enabled;
      RunsShaped(c, Apply(c, s, steps[0]), steps[1..], s');
    }
  }

  lemma ShapedReachable(c: Config, s: World)
    requires Reachable(c, s)
    ensures Shaped(c, s)
  {
    var steps :| Runs(c, Init(c), steps, s);
    assert Shaped(c, Init(c));
    RunsShaped(c, Init(c), steps, s);
  }

  // --- The manager's queue ---

  function Shutdowns(q: seq<ManagerMsg>): nat {
    if |q| == 0 then 0 else (if q[0].MShutdown? then 1 else 0) + Shutdowns(q[1..])
  }

  lemma {:induction false} QueueIsHeld(q: seq<ManagerMsg>)
    ensures |q| == HeldInM(q, StateTask) + HeldInM(q, RestoreTask) + Shutdowns(q)
  {
    if |q| > 0 {
      QueueIsHeld(q[1..]);
      OneHolder(q[0]);
    }
  }

  lemma OneHolder(m: ManagerMsg)
    ensures HoldsM(m, StateTask) + HoldsM(m, RestoreTask) == if m.MShutdown? then 0 else 1
  {
    if !m.MShutdown? {
      assert CallerOfM(m) == {m.w.caller};
      assert m.w.caller == StateTask || m.w.caller == RestoreTask;
    }
  }

  lemma {:induction false} ShutdownsAppend(q: seq<ManagerMsg>, m: ManagerMsg)
    ensures Shutdowns(q + [m]) == Shutdowns(q) + if m.MShutdown? then 1 else 0
  {
    if |q| > 0 {
      ShutdownsAppend(q[1..], m);
      assert (q + [m])[1..] == q[1..] + [m];
    } else {
      assert q + [m] == [m];
    }
  }

  /** The State asks the manager to shut down at most once, and asks for nothing else then. */
  ghost predicate ShutdownOnce(s: World) {
    && Shutdowns(s.managerQ) <= (if s.ctl.Stopping? then 1 else 0)
    && (s.ctl.Stopping? ==> Shutdowns(s.managerQ) > 0 || s.mctl.Draining? || s.mctl.Gone?)
    && (s.mctl.Draining? || s.mctl.Gone? ==> s.ctl.Stopping? || s.ctl.Stopped?)
  }

  lemma ManagerShutdownOnce(c: Config, s: World, st: Step)
    requires Shaped(c, s) && ShutdownOnce(s) && Enabled(c, s, st) && OfManager(st)
    ensures ShutdownOnce(Apply(c, s, st))
  {
    ManagerFrame(c, s, st);
    hide Route, CallersInM, Drained, TrackerShape, OnlyManager;
  }

  lemma SendShutdownOnce(c: Config, s: World)
    requires ShutdownOnce(s) && Enabled(c, s, StateSend)
    ensures ShutdownOnce(Apply(c, s, StateSend))
  {
    ShutdownsAppend(s.managerQ, s.ctl.m);
    hide Shutdowns;
  }

  lemma StateShutdownOnce(c: Config, s: World, st: Step)
    requires Shaped(c, s) && ShutdownOnce(s) && Enabled(c, s, st) && (OfState(st) || st.Crash?)
    ensures ShutdownOnce(Apply(c, s, st))
  {
    forall m { ShutdownsAppend(s.managerQ, m); }
    NoShutdowns();
    hide ListsPending, WatchOf, TrackerShape, Shutdowns;
    if st.StateSend? {
      hide Apply, Enabled, ShutdownOnce;
      SendShutdownOnce(c, s);
    }
  }

  lemma NoShutdowns()
    ensures Shutdowns([]) == 0
  {
  }

  lemma StepShutdownOnce(c: Config, s: World, st: Step)
    requires Shaped(c, s) && ShutdownOnce(s) && Enabled(c, s, st)
    ensures ShutdownOnce(Apply(c, s, st))
  {
    hide Shaped;
    if OfTrackers(st) {
      TrackerFrame(c, s, st);
      hide Apply, Enabled;
    } else if st.StateTake? {
      TakeStateMsgFrame(c, s, st.now);
      hide TakeStateMsg;
    } else if OfManager(st) {
      hide Apply, Enabled, ShutdownOnce;
      ManagerShutdownOnce(c, s, st);
    } else if st.PayoutStart? {
      PayoutFrame(c, s, st);
      hide Apply, Enabled;
    } else {
      hide Apply, Enabled, ShutdownOnce;
      StateShutdownOnce(c, s, st);
    }
  }

  lemma {:induction false} RunsShutdownOnce(c: Config, s: World, steps: seq<Step>, s': World)
    requires Shaped(c, s) && ShutdownOnce(s) && Runs(c, s, steps, s')
    ensures ShutdownOnce(s')
    decreases |steps|
  {
    if |steps| > 0 {
      StepShaped(c, s, steps[0]);
      StepShutdownOnce(c, s, steps[0]);
      hide Shaped, ShutdownOnce, Apply, Enabled;
      RunsShutdownOnce(c, Apply(c, s, steps[0]), steps[1..], s');
    }
  }

  lemma ShutdownOnceReachable(c: Config, s: World)
    requires Reachable(c, s)
    ensures ShutdownOnce(s)
  {
    var steps :| Runs(c, Init(c), steps, s);
    assert Shaped(c, Init(c)) && ShutdownOnce(Init(c));
    hide Shaped, ShutdownOnce;
    RunsShutdownOnce(c, Init(c), steps, s);
  }

  /**
   * The manager's queue never holds more than one request per waiting caller and one shutdown: at
   * most two messages, however many orders there are.
   */
  lemma ManagerQueueIsBounded(c: Config, s: World)
    requires c.Valid() && Reachable(c, s)
    ensures |s.managerQ| <= (if Waits(s, StateTask) then 1 else 0) + (if Waits(s, RestoreTask) then 1 else 0)
                            + (if s.ctl.Stopping? then 1 else 0)
    ensures |s.managerQ| <= 2
  {
    ShutdownOnceReachable(c, s);
    InvReachable(c, s);
    ConservedOf(c, s);
    QueueIsHeld(s.managerQ);
    hide Inv, Reachable, HeldInM, HeldBy, HeldInTasks, Shutdowns;
    assert Held(s, StateTask) <= 1 && Held(s, RestoreTask) <= 1;
  }

  /** So with room for two messages, nobody ever waits to send to the manager. */
  lemma SendersNeverWait(c: Config, s: World)
    requires c.Valid() && Reachable(c, s) && c.capacity >= 2
    ensures s.ctl.Sending? ==> Enabled(c, s, StateSend)
    ensures |s.restore| > 0 && !s.restoreWaits ==> Enabled(c, s, RestoreSend)
  {
    ManagerQueueIsBounded(c, s);
    hide Reachable;
  }

  // --- Progress ---

  /** The tracker has a message for the State handler, whose queue is full. */
  ghost predicate BlockedOnState(c: Config, s: World, t: nat) {
    && t < |s.trackers| && !s.ctl.Stopped? && |s.stateQ| >= c.capacity
    && var p := s.trackers[t].phase; p.Announcing? || (p.Checking? && p.reports != [])
  }

  ghost predicate MovesTracker(st: Step, t: nat) {
    (st.TrackerAnnounce? || st.TrackerVisit? || st.TrackerReport? || st.TrackerSettle? || st.TrackerTake?) && st.t == t
  }

  ghost predicate TrackerCanMove(c: Config, s: World, t: nat) {
    exists st :: MovesTracker(st, t) && Enabled(c, s, st)
  }

  /** A live tracker with work can move, unless it is between connections or blocked on the State queue. */
  lemma TrackerMoves(c: Config, s: World, t: nat)
    requires Shaped(c, s) && t < |s.trackers| && |s.trackers[t].queue| > 0
    requires !s.trackers[t].phase.Connecting? && !BlockedOnState(c, s, t)
    ensures TrackerCanMove(c, s, t)
  {
    var x := s.trackers[t];
    assert TrackerShape(x);
    hide Prepare, ListsPending;
    match x.phase {
      case Serving(_) => assert Enabled(c, s, TrackerTake(t, Reconnect)) && MovesTracker(TrackerTake(t, Reconnect), t);
      case Announcing(_) => assert Enabled(c, s, TrackerAnnounce(t, 0)) && MovesTracker(TrackerAnnounce(t, 0), t);
      case Checking(_, block, at, todo, reports, _) =>
        if reports != [] {
          assert Enabled(c, s, TrackerReport(t)) && MovesTracker(TrackerReport(t), t);
        } else if todo == {} {
          assert Enabled(c, s, TrackerSettle(t)) && MovesTracker(TrackerSettle(t), t);
        } else {
          var id :| id in todo;
          var i := x.watched[id];
          var v := if block then Visit(c.block(t, at).transferred(i.address), None, Due(i, 0), None)
                   else Visit(true, None, false, None);
          assert Enabled(c, s, TrackerVisit(t, id, 0, v)) && MovesTracker(TrackerVisit(t, id, 0, v), t);
        }
    }
  }

  ghost predicate ManagerCanMove(c: Config, s: World) {
    || Enabled(c, s, ManagerTake) || Enabled(c, s, ManagerForward) || Enabled(c, s, ManagerFinish)
    || exists t: nat :: Enabled(c, s, ManagerDrain(t))
  }

  /** The manager is about to enqueue at this tracker, whose queue is full. */
  ghost predicate ManagerWaitsFor(c: Config, s: World, t: nat) {
    && t < |s.trackers| && |s.trackers[t].queue| >= c.capacity && !s.trackers[t].phase.Ended?
    && ((s.mctl.Forwarding? && s.mctl.t == t) || (s.mctl.Draining? && t in s.mctl.todo))
  }

  lemma ManagerMoves(c: Config, s: World)
    requires Shaped(c, s) && (|s.managerQ| > 0 || s.mctl.Forwarding? || s.mctl.Draining?)
    ensures ManagerCanMove(c, s) || exists t: nat :: ManagerWaitsFor(c, s, t)
  {
    hide Prepare, ListsPending, TrackerShape;
    match s.mctl {
      case Ready =>
      case Gone =>
      case Forwarding(t, _) =>
        if |s.trackers[t].queue| >= c.capacity && !s.trackers[t].phase.Ended? {
          assert ManagerWaitsFor(c, s, t);
        }
      case Draining(todo) =>
        if todo != {} {
          var t :| t in todo;
          if |s.trackers[t].queue| >= c.capacity && !s.trackers[t].phase.Ended? {
            assert ManagerWaitsFor(c, s, t);
          } else {
            assert Enabled(c, s, ManagerDrain(t));
          }
        }
    }
  }

  /** The caller's request is with this tracker, or the manager must get rid of another message there first. */
  ghost predicate OnItsWay(c: Config, s: World, k: Caller, t: nat) {
    && t < |s.trackers| && |s.trackers[t].queue| > 0
    && (HeldIn(s.trackers[t].queue, k) > 0
        || (ManagerWaitsFor(c, s, t) && (HeldInM(s.managerQ, k) > 0 || HeldByManager(s.mctl, k) > 0)))
  }

  /**
   * Conditional deadlock freedom. Whenever the State handler or the restore task waits, its reply is
   * there, or a payout task or the manager that has its request can move, or a tracker on the
   * request's way can; or that tracker is between connections, or blocked on a full State queue.
   */
  lemma WaiterMoves(c: Config, s: World, k: Caller)
    requires c.Valid() && Reachable(c, s) && Waits(s, k)
    ensures || k in s.replies
            || (exists i :: 0 <= i < |s.tasks| && s.tasks[i].w.caller == k)
            || ((HeldInM(s.managerQ, k) > 0 || HeldByManager(s.mctl, k) > 0) && ManagerCanMove(c, s))
            || (exists t: nat :: OnItsWay(c, s, k, t) && TrackerCanMove(c, s, t))
            || (exists t: nat :: OnItsWay(c, s, k, t) && s.trackers[t].phase.Connecting?)
            || (exists t: nat :: OnItsWay(c, s, k, t) && BlockedOnState(c, s, t))
  {
    ShapedReachable(c, s);
    InvReachable(c, s);
    ConservedOf(c, s);
    hide Inv, Shaped, Reachable, TrackerCanMove, ManagerCanMove, BlockedOnState, HeldIn, HeldInM, HeldBy, HeldInTasks;
    assert Held(s, k) == 1;
    if k in s.replies {
    } else if HeldInTasks(s.tasks, k) > 0 {
      var i := TaskOf(s.tasks, k);
    } else if HeldBy(s.trackers, k) > 0 {
      var t := HeldSomewhere(s.trackers, k);
      NonEmptyIfHeld(s.trackers[t].queue, k);
      assert OnItsWay(c, s, k, t);
      if !s.trackers[t].phase.Connecting? && !BlockedOnState(c, s, t) {
        TrackerMoves(c, s, t);
      }
    } else {
      NonEmptyIfHeldM(s.managerQ, k);
      ManagerMoves(c, s);
      if !ManagerCanMove(c, s) {
        var t: nat :| ManagerWaitsFor(c, s, t);
        assert c.capacity > 0 && OnItsWay(c, s, k, t);
        if !s.trackers[t].phase.Connecting? && !BlockedOnState(c, s, t) {
          TrackerMoves(c, s, t);
        }
      }
    }
  }

  /**
   * The same while the handler waits for the manager to wind down: the manager is gone, or can move,
   * or waits for room at a tracker that can move, is between connections, or blocked on the State queue.
   */
  lemma StopperMoves(c: Config, s: World)
    requires c.Valid() && Reachable(c, s) && s.ctl.Stopping?
    ensures || Enabled(c, s, StateStop)
            || ManagerCanMove(c, s)
            || (exists t: nat :: ManagerWaitsFor(c, s, t) && TrackerCanMove(c, s, t))
            || (exists t: nat :: ManagerWaitsFor(c, s, t) && s.trackers[t].phase.Connecting?)
            || (exists t: nat :: ManagerWaitsFor(c, s, t) && BlockedOnState(c, s, t))
  {
    ShapedReachable(c, s);
    ShutdownOnceReachable(c, s);
    NoShutdowns();
    hide Reachable, Shaped, TrackerCanMove, ManagerCanMove, BlockedOnState, Shutdowns;
    if !s.mctl.Gone? {
      assert |s.managerQ| > 0 || s.mctl.Draining? by {
        if s.managerQ == [] {
          assert Shutdowns(s.managerQ) == 0;
        }
      }
      ManagerMoves(c, s);
      if !ManagerCanMove(c, s) {
        var t: nat :| ManagerWaitsFor(c, s, t);
        if !s.trackers[t].phase.Connecting? && !BlockedOnState(c, s, t) {
          TrackerMoves(c, s, t);
        }
      }
    }
  }

  lemma {:induction false} TaskOf(tasks: seq<Task>, k: Caller) returns (i: nat)
    requires HeldInTasks(tasks, k) > 0
    ensures i < |tasks| && tasks[i].w.caller == k
  {
    if tasks[0].w.caller == k {
      i := 0;
    } else {
      i := TaskOf(tasks[1..], k);
      i := i + 1;
    }
  }

  lemma NonEmptyIfHeld(q: seq<TrackerMsg>, k: Caller)
    requires HeldIn(q, k) > 0
    ensures |q| > 0
  {
  }

  lemma NonEmptyIfHeldM(q: seq<ManagerMsg>, k: Caller)
    ensures HeldInM(q, k) > 0 ==> |q| > 0
  {
  }

  // --- The deadlock ---

  /** What the State waits for can only come once this tracker has moved. */
  ghost predicate StateWaitsOn(c: Config, s: World, t: nat) {
    || (s.ctl.AwaitingReply? && OnItsWay(c, s, StateTask, t))
    || (s.ctl.Stopping? && ManagerWaitsFor(c, s, t))
  }

  /** The State waits on a tracker that waits for room in the State queue. */
  ghost predicate Deadlocked(c: Config, s: World, t: nat) {
    BlockedOnState(c, s, t) && StateWaitsOn(c, s, t)
  }

  /** Nothing has come that would let the State go on. */
  predicate NothingCame(s: World) {
    (s.ctl.AwaitingReply? && StateTask !in s.replies) || (s.ctl.Stopping? && !s.mctl.Gone?)
  }

  lemma NothingCameYet(c: Config, s: World, t: nat)
    requires Conserved(s) && StateWaitsOn(c, s, t)
    ensures NothingCame(s)
  {
    hide HeldInM, HeldIn, HeldInTasks;
    if s.ctl.AwaitingReply? {
      assert Held(s, StateTask) == 1;
      HeldAtLeast(s.trackers, t, StateTask);
    }
  }

  lemma {:induction false} HeldInLonger(q: seq<TrackerMsg>, q': seq<TrackerMsg>, k: Caller)
    requires q <= q'
    ensures HeldIn(q, k) <= HeldIn(q', k)
  {
    if |q| > 0 {
      HeldInLonger(q[1..], q'[1..], k);
    }
  }

  lemma {:induction false} HeldInMLonger(q: seq<ManagerMsg>, q': seq<ManagerMsg>, k: Caller)
    requires q <= q'
    ensures HeldInM(q, k) <= HeldInM(q', k)
  {
    if |q| > 0 {
      HeldInMLonger(q[1..], q'[1..], k);
    }
  }

  /** Who is blocked stays so: the State does not go on, its queue stays full, the tracker keeps its phase. */
  ghost predicate Frozen(s: World, s': World, t: nat) {
    && s'.ctl == s.ctl && s.stateQ <= s'.stateQ
    && t < |s.trackers| && t < |s'.trackers|
    && s'.trackers[t].phase == s.trackers[t].phase && s.trackers[t].queue <= s'.trackers[t].queue
  }

  lemma TrackerStepFrozen(c: Config, s: World, st: Step, t: nat)
    requires BlockedOnState(c, s, t) && NothingCame(s) && Enabled(c, s, st) && OfTrackers(st)
    ensures Frozen(s, Apply(c, s, st), t)
    ensures Apply(c, s, st).managerQ == s.managerQ && Apply(c, s, st).mctl == s.mctl
  {
    TrackerFrame(c, s, st);
    hide Prepare, EvidenceOf, Reports, Dropped, VisitAllowed, CallersIn, TakeTrackerMsg;
    if st.TrackerTake? {
      TakeTrackerMsgFrame(s, st.t, st.outcome);
      TakesNothingIn(s, st.t, st.outcome);
    }
  }

  lemma TakesNothingIn(s: World, t: nat, outcome: BlockOutcome)
    requires t < |s.trackers| && s.trackers[t].phase.Serving? && |s.trackers[t].queue| > 0
    ensures TakeTrackerMsg(s, t, outcome).stateQ == s.stateQ
  {
    hide CallersIn;
  }

  lemma StateStepFrozen(c: Config, s: World, st: Step, t: nat)
    requires BlockedOnState(c, s, t) && NothingCame(s) && Enabled(c, s, st) && OfState(st)
    ensures Frozen(s, Apply(c, s, st), t)
    ensures s.managerQ <= Apply(c, s, st).managerQ && Apply(c, s, st).mctl == s.mctl
  {
    StateFrame(c, s, st);
    hide OnlyState, WatchOf, ListsPending;
  }

  lemma StepFrozen(c: Config, s: World, st: Step, t: nat)
    requires BlockedOnState(c, s, t) && NothingCame(s) && Enabled(c, s, st) && !st.Crash?
    ensures Frozen(s, Apply(c, s, st), t)
  {
    hide BlockedOnState;
    if OfTrackers(st) {
      hide Apply, Enabled;
      TrackerStepFrozen(c, s, st, t);
    } else if OfState(st) {
      hide Apply, Enabled;
      StateStepFrozen(c, s, st, t);
    } else if OfManager(st) {
      ManagerFrame(c, s, st);
      BlockedIsTracker(c, s, t);
      hide Apply, Enabled;
    } else if st.PayoutStart? {
      PayoutFrame(c, s, st);
      BlockedIsTracker(c, s, t);
      hide Apply, Enabled;
    } else {
      hide TakeStateMsg;
    }
  }

  lemma BlockedIsTracker(c: Config, s: World, t: nat)
    requires BlockedOnState(c, s, t)
    ensures t < |s.trackers|
  {
  }

  /** A manager that waits for room at a full tracker only drains others meanwhile, and its queue only grows. */
  lemma ManagerStuck(c: Config, s: World, st: Step, t: nat)
    requires ManagerWaitsFor(c, s, t) && BlockedOnState(c, s, t) && NothingCame(s)
    requires Enabled(c, s, st) && !st.Crash?
    ensures var s' := Apply(c, s, st);
            && s.managerQ <= s'.managerQ
            && (s'.mctl == s.mctl || (s.mctl.Draining? && s'.mctl.Draining? && t in s'.mctl.todo))
  {
    if OfTrackers(st) {
      TrackerStepFrozen(c, s, st, t);
      hide Apply, Enabled;
    } else if OfState(st) {
      StateStepFrozen(c, s, st, t);
      hide Apply, Enabled;
    } else if st.PayoutStart? {
      PayoutFrame(c, s, st);
      hide Apply, Enabled;
    } else {
      hide TakeStateMsg;
    }
  }

  /** Only a crash changes anything about it. */
  lemma DeadlockedStep(c: Config, s: World, st: Step, t: nat)
    requires Conserved(s) && Deadlocked(c, s, t) && Enabled(c, s, st) && !st.Crash?
    ensures Deadlocked(c, Apply(c, s, st), t)
  {
    NothingCameYet(c, s, t);
    StepFrozen(c, s, st, t);
    var s' := Apply(c, s, st);
    if ManagerWaitsFor(c, s, t) {
      ManagerStuck(c, s, st, t);
      HeldInMLonger(s.managerQ, s'.managerQ, StateTask);
    }
    HeldInLonger(s.trackers[t].queue, s'.trackers[t].queue, StateTask);
    hide Apply, Enabled, HeldIn, HeldInM, Conserved, NothingCame;
  }

  /** The deadlock is for good: no client, node, block, timeout or shutdown request resolves it. */
  lemma {:induction false} DeadlockIsFinal(c: Config, s: World, steps: seq<Step>, s': World, t: nat)
    requires Conserved(s) && Deadlocked(c, s, t) && Runs(c, s, steps, s')
    requires forall i :: 0 <= i < |steps| ==> !steps[i].Crash?
    ensures Deadlocked(c, s', t)
    decreases |steps|
  {
    if |steps| > 0 {
      DeadlockedStep(c, s, steps[0], t);
      StepConserves(c, s, steps[0]);
      hide Deadlocked, Apply, Enabled, Conserved;
      DeadlockIsFinal(c, Apply(c, s, steps[0]), steps[1..], s', t);
    }
  }
}
