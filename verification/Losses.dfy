// What becomes of the payout of a paid order: about to be requested, requested, attempted, or lost;
// and exactly which steps lose it.
module Losses {
  import opened Definitions
  import opened Ledger
  import opened Chains
  import opened Watching
  import opened Protocol
  import opened Replies
  import opened Safety
  import opened Deadlock
  import opened Sightings

  // --- Where a payout request can be ---

  predicate AsksManager(m: ManagerMsg, id: Id) {
    m.MReap? && m.w.id == id
  }

  predicate AsksTracker(m: TrackerMsg, id: Id) {
    m.TReap? && m.w.id == id
  }

  predicate AboutToSend(s: World, id: Id) {
    s.ctl.Sending? && AsksManager(s.ctl.m, id)
  }

  ghost predicate QueuedAtManager(s: World, id: Id) {
    exists m :: m in s.managerQ && AsksManager(m, id)
  }

  predicate Forwarded(s: World, id: Id) {
    s.mctl.Forwarding? && AsksTracker(s.mctl.m, id)
  }

  ghost predicate Queued(q: seq<TrackerMsg>, id: Id) {
    exists m :: m in q && AsksTracker(m, id)
  }

  ghost predicate QueuedAt(s: World, t: nat, id: Id) {
    t < |s.trackers| && Queued(s.trackers[t].queue, id)
  }

  ghost predicate InTask(s: World, id: Id) {
    exists k :: 0 <= k < |s.tasks| && s.tasks[k].w.id == id
  }

  ghost predicate Underway(s: World, id: Id) {
    AboutToSend(s, id) || QueuedAtManager(s, id) || Forwarded(s, id) || (exists t :: QueuedAt(s, t, id)) || InTask(s, id)
  }

  ghost predicate Attempted(d: Durable, id: Id) {
    exists j :: 0 <= j < |d.started| && d.started[j].id == id
  }

  /** Paid, and its payout neither attempted nor on its way. */
  ghost predicate Lost(s: World, id: Id) {
    PaidIn(s.d.db, id) && !Underway(s, id) && !Attempted(s.d, id)
  }

  /** With this message at the head of its queue, the tracker ends. */
  predicate EndsTracker(m: TrackerMsg, outcome: BlockOutcome) {
    m.TShutdown? || (m.TNewBlock? && outcome.Die?)
  }

  /** The steps that lose a payout: a crash, and the end of a tracker before or after it got the request. */
  ghost predicate Drops(s: World, st: Step, id: Id) {
    match st
    case Crash => Underway(s, id)
    case ManagerForward => Forwarded(s, id) && s.mctl.t < |s.trackers| && s.trackers[s.mctl.t].phase.Ended?
    case TrackerQuit(t) => QueuedAt(s, t, id)
    case TrackerTake(t, outcome) =>
      QueuedAt(s, t, id) && |s.trackers[t].queue| > 0 && EndsTracker(s.trackers[t].queue[0], outcome)
    case _ => false
  }

  // --- What is known of every reachable state ---

  ghost predicate Healthy(c: Config, s: World) {
    Inv(c, s) && Shaped(c, s) && ShutdownOnce(s) && AllConfigured(c, s) && AllKnown(c, s)
  }

  lemma StepHealthy(c: Config, s: World, st: Step)
    requires c.Valid() && Healthy(c, s) && Enabled(c, s, st)
    ensures Healthy(c, Apply(c, s, st))
  {
    ConservedOf(c, s);
    StepSound(c, s, st);
    StepConserves(c, s, st);
    StepShaped(c, s, st);
    StepShutdownOnce(c, s, st);
    StepConfigured(c, s, st);
    StepKnown(c, s, st);
    hide Apply, Enabled, Shaped, ShutdownOnce, AllConfigured, AllKnown, Conserved, DurableOk, CtlOk, VolatileOk;
  }

  lemma InitHealthy(c: Config)
    ensures Healthy(c, Init(c))
  {
    InvInit(c);
    KnownAtStart(c);
    hide Inv, AllConfigured, AllKnown;
  }

  lemma {:induction false} RunsHealthy(c: Config, s: World, steps: seq<Step>, s': World)
    requires c.Valid() && Healthy(c, s) && Runs(c, s, steps, s')
    ensures Healthy(c, s')
    decreases |steps|
  {
    if |steps| > 0 {
      StepHealthy(c, s, steps[0]);
      hide Healthy, Apply, Enabled;
      RunsHealthy(c, Apply(c, s, steps[0]), steps[1..], s');
    }
  }

  lemma HealthyReachable(c: Config, s: World)
    requires c.Valid() && Reachable(c, s)
    ensures Healthy(c, s)
  {
    var steps :| Runs(c, Init(c), steps, s);
    InitHealthy(c);
    hide Healthy;
    RunsHealthy(c, Init(c), steps, s);
  }

  /** All payout requests are the State's, so while it is about to send or has been answered there is none elsewhere. */
  lemma NoneElsewhere(c: Config, s: World, id: Id)
    requires Inv(c, s) && (!s.ctl.AwaitingReply? || StateTask in s.replies)
    ensures !QueuedAtManager(s, id) && !Forwarded(s, id) && !InTask(s, id)
    ensures forall t :: !QueuedAt(s, t, id)
  {
    NoneHeld(c, s);
    AllAreTheStates(c, s);
    hide Inv, Conserved;
    forall t ensures !QueuedAt(s, t, id) {
    }
  }

  lemma NoneHeld(c: Config, s: World)
    requires Inv(c, s) && (!s.ctl.AwaitingReply? || StateTask in s.replies)
    ensures forall m :: m in s.managerQ ==> StateTask !in CallerOfM(m)
    ensures s.mctl.Forwarding? ==> StateTask !in CallerOf(s.mctl.m)
    ensures forall t, m :: 0 <= t < |s.trackers| && m in s.trackers[t].queue ==> StateTask !in CallerOf(m)
    ensures forall k :: 0 <= k < |s.tasks| ==> !s.tasks[k].w.caller.StateTask?
  {
    ConservedOf(c, s);
    hide Inv, HeldInM, HeldBy, HeldIn;
    assert Held(s, StateTask) == if s.ctl.AwaitingReply? then 1 else 0;
    HeldIffMemberM(s.managerQ, StateTask);
    forall t, m | 0 <= t < |s.trackers| && m in s.trackers[t].queue ensures StateTask !in CallerOf(m) {
      HeldAtLeast(s.trackers, t, StateTask);
      HeldIffMember(s.trackers[t].queue, StateTask);
    }
    forall k | 0 <= k < |s.tasks| ensures !s.tasks[k].w.caller.StateTask? {
      HeldRemoved(s.tasks, k, StateTask);
    }
  }

  lemma AllAreTheStates(c: Config, s: World)
    requires Inv(c, s)
    ensures forall m :: m in s.managerQ && m.MReap? ==> StateTask in CallerOfM(m) && InFlight(s.d, m.w)
    ensures s.mctl.Forwarding? && s.mctl.m.TReap? ==> StateTask in CallerOf(s.mctl.m) && InFlight(s.d, s.mctl.m.w)
    ensures forall t, m :: 0 <= t < |s.trackers| && m in s.trackers[t].queue && m.TReap? ==>
              StateTask in CallerOf(m) && InFlight(s.d, m.w)
    ensures forall k :: 0 <= k < |s.tasks| ==> s.tasks[k].w.caller.StateTask? && InFlight(s.d, s.tasks[k].w)
  {
    hide Conserved, DurableOk, CtlOk, Genuine, StateQOk, RestoreOk;
    forall m | m in s.managerQ && m.MReap? ensures StateTask in CallerOfM(m) && InFlight(s.d, m.w) {
      assert ManagerMsgOk(c, s.d, m);
    }
    forall t, m | 0 <= t < |s.trackers| && m in s.trackers[t].queue && m.TReap?
      ensures StateTask in CallerOf(m) && InFlight(s.d, m.w)
    {
      assert TrackerOk(c, s.d, s.trackers[t]);
      assert TrackerMsgOk(c, s.d, m);
    }
  }

  /** A request on its way is for a paid order whose payout was not attempted. */
  lemma UnderwayIsPaid(c: Config, s: World, id: Id)
    requires Inv(c, s) && Underway(s, id)
    ensures PaidIn(s.d.db, id) && !Attempted(s.d, id)
  {
    hide Inv, InFlight;
    if AboutToSend(s, id) {
      SendingIsPaid(c, s);
    } else {
      var w := OnTheWay(c, s, id);
      InFlightIsPaid(c, s, w);
    }
  }

  /** The request that is with the manager, a tracker or a task. */
  lemma OnTheWay(c: Config, s: World, id: Id) returns (w: Watch)
    requires Inv(c, s) && Underway(s, id) && !AboutToSend(s, id)
    ensures InFlight(s.d, w) && w.id == id
  {
    hide Inv, CallerOf, CallerOfM, InFlight;
    AllAreTheStates(c, s);
    if m :| m in s.managerQ && AsksManager(m, id) {
      w := m.w;
    } else if Forwarded(s, id) {
      w := s.mctl.m.w;
    } else if t: nat :| QueuedAt(s, t, id) {
      var m :| m in s.trackers[t].queue && AsksTracker(m, id);
      w := m.w;
    } else {
      var k :| 0 <= k < |s.tasks| && s.tasks[k].w.id == id;
      w := s.tasks[k].w;
    }
  }

  lemma InFlightIsPaid(c: Config, s: World, w: Watch)
    requires Inv(c, s) && InFlight(s.d, w)
    ensures PaidIn(s.d.db, w.id) && !Attempted(s.d, w.id)
  {
    hide Conserved, VolatileOk, CtlOk, EvidenceOk, VersionsOk, WatchOf;
    var j :| 0 <= j < |s.d.issued| && s.d.issued[j] == w;
    assert Faithful(c, s.d, s.d.issued[j]);
  }

  lemma SendingIsPaid(c: Config, s: World)
    requires Inv(c, s) && s.ctl.Sending? && s.ctl.m.MReap?
    ensures PaidIn(s.d.db, s.ctl.m.w.id) && !Attempted(s.d, s.ctl.m.w.id)
  {
    hide Conserved, VolatileOk, EvidenceOk, VersionsOk, WatchOf;
    NotStarted(c, s.d, s.ctl.m.w);
  }

  // --- One step ---

  lemma AppendedQueued(q: seq<TrackerMsg>, q': seq<TrackerMsg>, id: Id)
    requires q <= q' && Queued(q, id)
    ensures Queued(q', id)
  {
    var m :| m in q && AsksTracker(m, id);
    assert m in q';
  }

  /** Nobody but the tracker itself takes a request from its queue. */
  lemma QueuedStays(s: World, s': World, t: nat, id: Id)
    requires QueuedAt(s, t, id) && t < |s'.trackers| && s.trackers[t].queue <= s'.trackers[t].queue
    ensures QueuedAt(s', t, id)
  {
    AppendedQueued(s.trackers[t].queue, s'.trackers[t].queue, id);
  }

  lemma StateStepKeeps(c: Config, s: World, st: Step, id: Id)
    requires Healthy(c, s) && Enabled(c, s, st) && OfState(st) && Underway(s, id)
    ensures Underway(Apply(c, s, st), id)
  {
    StateFrame(c, s, st);
    var s' := Apply(c, s, st);
    if t :| QueuedAt(s, t, id) {
      assert QueuedAt(s', t, id);
    } else if m :| m in s.managerQ && AsksManager(m, id) {
      assert m in s'.managerQ;
    } else if AboutToSend(s, id) {
      SendingKeeps(c, s, st, id);
      hide Apply, Enabled, AboutToSend;
    }
  }

  lemma SendingKeeps(c: Config, s: World, st: Step, id: Id)
    requires Healthy(c, s) && Enabled(c, s, st) && OfState(st) && AboutToSend(s, id)
    ensures AboutToSend(Apply(c, s, st), id) || QueuedAtManager(Apply(c, s, st), id)
  {
    hide Healthy, QueuedAtManager, Apply, Enabled;
    if st.StateSend? {
      SendsToManager(c, s);
      SentIsQueued(c, s, id);
    } else {
      StaysSending(c, s, st);
    }
  }

  lemma SentIsQueued(c: Config, s: World, id: Id)
    requires Enabled(c, s, StateSend) && AboutToSend(s, id) && !s.mctl.Gone?
    ensures QueuedAtManager(Apply(c, s, StateSend), id)
  {
    assert s.ctl.m in Apply(c, s, StateSend).managerQ;
  }

  lemma StaysSending(c: Config, s: World, st: Step)
    requires Enabled(c, s, st) && OfState(st) && !st.StateSend? && s.ctl.Sending?
    ensures Apply(c, s, st).ctl == s.ctl
  {
    hide WatchOf, ListsPending;
  }

  /** The manager ends only once the State has asked it to, which then sends nothing more. */
  lemma SendsToManager(c: Config, s: World)
    requires Healthy(c, s) && s.ctl.Sending?
    ensures !s.mctl.Gone?
  {
    hide Inv, Shaped, AllConfigured, AllKnown;
  }

  lemma TakeKeeps(c: Config, s: World, now: u64, id: Id)
    requires Enabled(c, s, StateTake(now)) && Underway(s, id)
    ensures Underway(Apply(c, s, StateTake(now)), id)
  {
    TakeStateMsgFrame(c, s, now);
    hide TakeStateMsg, Queued;
    var s' := Apply(c, s, StateTake(now));
    if t :| QueuedAt(s, t, id) {
      assert QueuedAt(s', t, id);
    }
  }

  lemma ManagerTakeKeeps(c: Config, s: World, id: Id)
    requires Enabled(c, s, ManagerTake) && QueuedAtManager(s, id)
    requires s.managerQ[0].MReap? ==> Route(c.chains, s.managerQ[0].w.currency).Some?
    ensures Underway(Apply(c, s, ManagerTake), id)
  {
    hide Route, Drained;
    var s' := Apply(c, s, ManagerTake);
    var m :| m in s.managerQ && AsksManager(m, id);
    if m == s.managerQ[0] {
      assert Forwarded(s', id);
    } else {
      assert m in s.managerQ[1..];
    }
  }

  lemma ForwardKeeps(c: Config, s: World, id: Id)
    requires Enabled(c, s, ManagerForward) && Forwarded(s, id) && !s.trackers[s.mctl.t].phase.Ended?
    ensures Underway(Apply(c, s, ManagerForward), id)
  {
    var t := s.mctl.t;
    var s' := Apply(c, s, ManagerForward);
    assert s.mctl.m in s'.trackers[t].queue;
    assert QueuedAt(s', t, id);
  }

  /** The manager drops its queue only when the State has no request in it. */
  lemma FinishDropsNothing(c: Config, s: World, id: Id)
    requires Healthy(c, s) && Enabled(c, s, ManagerFinish)
    ensures !QueuedAtManager(s, id)
  {
    hide Healthy, Inv, Prepare, ListsPending;
    if s.mctl.Draining? {
      HealthyInv(c, s);
      DrainingIsStopping(c, s);
      hide Enabled, QueuedAtManager;
      NoneElsewhere(c, s, id);
    }
  }

  lemma DrainingIsStopping(c: Config, s: World)
    requires Healthy(c, s) && s.mctl.Draining?
    ensures s.ctl.Stopping? || s.ctl.Stopped?
  {
    hide Inv, Shaped, AllConfigured, AllKnown;
  }

  lemma RoutedReap(c: Config, s: World)
    requires Healthy(c, s) && |s.managerQ| > 0 && s.managerQ[0].MReap?
    ensures Route(c.chains, s.managerQ[0].w.currency).Some?
  {
    var w := s.managerQ[0].w;
    AllAreTheStates(c, s);
    hide Shaped, ShutdownOnce, AllConfigured, Conserved, VolatileOk, CtlOk, EvidenceOk, VersionsOk, Route;
    assert s.managerQ[0] in s.managerQ;
    var j :| 0 <= j < |s.d.issued| && s.d.issued[j] == w;
    assert Faithful(c, s.d, s.d.issued[j]);
    OrdersAreRouted(c, s, w.id);
  }

  lemma ManagerQueueStays(c: Config, s: World, st: Step, id: Id)
    requires Enabled(c, s, st) && (st.ManagerForward? || st.ManagerDrain?) && QueuedAtManager(s, id)
    ensures QueuedAtManager(Apply(c, s, st), id)
  {
    hide QueuedAtManager, CallerOf;
    assert Apply(c, s, st).managerQ == s.managerQ;
    SameManagerQueue(s, Apply(c, s, st), id);
  }

  lemma SameManagerQueue(s: World, s': World, id: Id)
    requires s'.managerQ == s.managerQ && QueuedAtManager(s, id)
    ensures QueuedAtManager(s', id)
  {
  }

  lemma ManagerQueueKeeps(c: Config, s: World, st: Step, id: Id)
    requires Healthy(c, s) && Enabled(c, s, st) && OfManager(st) && QueuedAtManager(s, id)
    ensures Underway(Apply(c, s, st), id)
  {
    hide Healthy, Apply, Enabled, Underway, QueuedAtManager;
    if st.ManagerTake? {
      TakenKeeps(c, s, id);
    } else if st.ManagerFinish? {
      FinishDropsNothing(c, s, id);
    } else {
      ManagerQueueStays(c, s, st, id);
      QueuedIsUnderway(Apply(c, s, st), id);
    }
  }

  lemma TakenKeeps(c: Config, s: World, id: Id)
    requires Healthy(c, s) && Enabled(c, s, ManagerTake) && QueuedAtManager(s, id)
    ensures Underway(Apply(c, s, ManagerTake), id)
  {
    hide Healthy, Apply, Underway, QueuedAtManager, Route;
    if s.managerQ[0].MReap? {
      RoutedReap(c, s);
    }
    ManagerTakeKeeps(c, s, id);
  }

  lemma QueuedIsUnderway(s: World, id: Id)
    requires QueuedAtManager(s, id)
    ensures Underway(s, id)
  {
    hide QueuedAtManager;
  }

  lemma ManagerStepKeeps(c: Config, s: World, st: Step, id: Id)
    requires Healthy(c, s) && Enabled(c, s, st) && OfManager(st) && Underway(s, id) && !Drops(s, st, id)
    ensures Underway(Apply(c, s, st), id)
  {
    hide Healthy, Queued;
    if QueuedAtManager(s, id) {
      hide Apply, Enabled, Underway;
      ManagerQueueKeeps(c, s, st, id);
    } else if Forwarded(s, id) {
      hide Apply, Underway;
      ForwardKeeps(c, s, id);
    } else {
      ManagerFrame(c, s, st);
      hide Apply, Enabled;
      var s' := Apply(c, s, st);
      if t: nat :| QueuedAt(s, t, id) {
        QueuedStays(s, s', t, id);
      }
    }
  }

  lemma TrackerTakeKeeps(c: Config, s: World, st: Step, id: Id)
    requires Enabled(c, s, st) && st.TrackerTake? && QueuedAt(s, st.t, id) && !Drops(s, st, id)
    ensures InTask(Apply(c, s, st), id) || QueuedAt(Apply(c, s, st), st.t, id)
  {
    hide CallersIn, InTask;
    var q := s.trackers[st.t].queue;
    var m :| m in q && AsksTracker(m, id);
    if m == q[0] {
      ReapStarts(c, s, st, id);
    } else {
      assert m in q[1..];
      assert Apply(c, s, st).trackers[st.t].queue == q[1..];
    }
  }

  lemma ReapStarts(c: Config, s: World, st: Step, id: Id)
    requires Enabled(c, s, st) && st.TrackerTake? && AsksTracker(s.trackers[st.t].queue[0], id)
    ensures InTask(Apply(c, s, st), id)
  {
    assert Apply(c, s, st).tasks[|s.tasks|].w.id == id;
  }

  lemma NotifyQueueIs(c: Config, s: World, st: Step)
    requires Enabled(c, s, st) && (st.TrackerAnnounce? || st.TrackerReport?)
    ensures st.t < |s.trackers| && st.t < |Apply(c, s, st).trackers|
    ensures Apply(c, s, st).trackers[st.t].queue == s.trackers[st.t].queue
  {
  }

  lemma RoundQueueIs(c: Config, s: World, st: Step)
    requires Enabled(c, s, st) && (st.TrackerVisit? || st.TrackerSettle?)
    ensures st.t < |s.trackers| && st.t < |Apply(c, s, st).trackers|
    ensures Apply(c, s, st).trackers[st.t].queue == s.trackers[st.t].queue
  {
    hide EvidenceOf, Reports, Dropped, VisitAllowed, Repeat;
  }

  lemma ConnectionQueueIs(c: Config, s: World, st: Step)
    requires Enabled(c, s, st) && (st.BlockArrives? || st.TrackerConnect? || st.TrackerTimeout?)
    ensures st.t < |s.trackers| && st.t < |Apply(c, s, st).trackers|
    ensures var q, q' := s.trackers[st.t].queue, Apply(c, s, st).trackers[st.t].queue;
            q' == q || q' == q + [TNewBlock]
  {
    hide Prepare;
  }

  /** A tracker's other steps keep its queue, or lengthen it. */
  lemma LongerQueueIs(c: Config, s: World, st: Step)
    requires Enabled(c, s, st) && OfTrackers(st) && !st.TrackerTake? && !st.TrackerQuit?
    ensures st.t < |s.trackers| && st.t < |Apply(c, s, st).trackers|
    ensures var q, q' := s.trackers[st.t].queue, Apply(c, s, st).trackers[st.t].queue;
            q' == q || q' == q + [TNewBlock]
  {
    hide Apply, Enabled;
    if st.BlockArrives? || st.TrackerConnect? || st.TrackerTimeout? {
      ConnectionQueueIs(c, s, st);
    } else if st.TrackerAnnounce? || st.TrackerReport? {
      NotifyQueueIs(c, s, st);
    } else {
      RoundQueueIs(c, s, st);
    }
  }

  lemma TrackerStepKeeps(c: Config, s: World, st: Step, id: Id)
    requires Enabled(c, s, st) && OfTrackers(st) && Underway(s, id) && !Drops(s, st, id)
    ensures Underway(Apply(c, s, st), id)
  {
    TrackerFrame(c, s, st);
    hide Apply, Enabled, Drops, Queued;
    var s' := Apply(c, s, st);
    if t: nat :| QueuedAt(s, t, id) {
      if t == st.t {
        TrackerQueueKeeps(c, s, st, id);
      } else {
        QueuedStays(s, s', t, id);
      }
    } else if InTask(s, id) {
      NewTaskIs(c, s, st);
      TasksStay(s, s', id);
    }
  }

  lemma TasksStay(s: World, s': World, id: Id)
    requires s.tasks <= s'.tasks && InTask(s, id)
    ensures InTask(s', id)
  {
    var k :| 0 <= k < |s.tasks| && s.tasks[k].w.id == id;
    assert s'.tasks[k] == s.tasks[k];
  }

  lemma TrackerQueueKeeps(c: Config, s: World, st: Step, id: Id)
    requires Enabled(c, s, st) && OfTrackers(st) && QueuedAt(s, st.t, id) && !Drops(s, st, id)
    ensures InTask(Apply(c, s, st), id) || QueuedAt(Apply(c, s, st), st.t, id)
  {
    if st.TrackerTake? {
      hide Apply, Enabled, Drops, QueuedAt;
      TrackerTakeKeeps(c, s, st, id);
    } else if !st.TrackerQuit? {
      hide Apply, Enabled, Drops, QueuedAt;
      LongerQueueIs(c, s, st);
      QueuedStays(s, Apply(c, s, st), st.t, id);
    }
  }

  lemma TaskStartsOrStays(c: Config, s: World, st: Step, id: Id)
    requires Enabled(c, s, st) && st.PayoutStart? && InTask(s, id)
    ensures InTask(Apply(c, s, st), id) || Attempted(Apply(c, s, st).d, id)
  {
    var s' := Apply(c, s, st);
    PayoutIsOf(c, s.tasks[st.k].w);
    hide PayoutOf;
    var k :| 0 <= k < |s.tasks| && s.tasks[k].w.id == id;
    if k == st.k {
      assert s'.d.started[|s.d.started|].id == id;
    } else {
      assert s'.tasks[if k < st.k then k else k - 1] == s.tasks[k];
    }
  }

  lemma PayoutStepKeeps(c: Config, s: World, st: Step, id: Id)
    requires Enabled(c, s, st) && st.PayoutStart? && Underway(s, id)
    ensures Underway(Apply(c, s, st), id) || Attempted(Apply(c, s, st).d, id)
  {
    hide Queued, Attempted;
    if InTask(s, id) {
      hide Apply, Enabled, InTask;
      TaskStartsOrStays(c, s, st, id);
    } else {
      PayoutFrame(c, s, st);
      hide Apply, Enabled, InTask;
      var s' := Apply(c, s, st);
      if t: nat :| QueuedAt(s, t, id) {
        assert QueuedAt(s', t, id);
      }
    }
  }

  /** A request on its way stays so, or is attempted, unless the step drops it. */
  lemma UnderwayStep(c: Config, s: World, st: Step, id: Id)
    requires Healthy(c, s) && Enabled(c, s, st) && Underway(s, id) && !Drops(s, st, id)
    ensures Underway(Apply(c, s, st), id) || Attempted(Apply(c, s, st).d, id)
  {
    if OfTrackers(st) {
      hide Healthy, Apply, Enabled, Underway, Drops;
      TrackerStepKeeps(c, s, st, id);
    } else if OfManager(st) {
      hide Healthy, Apply, Enabled, Underway, Drops;
      ManagerStepKeeps(c, s, st, id);
    } else if OfState(st) {
      hide Healthy, Apply, Enabled, Underway, Drops;
      StateStepKeeps(c, s, st, id);
    } else if st.PayoutStart? {
      hide Healthy, Apply, Enabled, Underway, Drops;
      PayoutStepKeeps(c, s, st, id);
    } else if st.StateTake? {
      hide Healthy, Apply, Enabled, Underway, Drops;
      TakeKeeps(c, s, st.now, id);
    }
  }

  // --- Nothing comes back ---

  /** A request that is somewhere after the step was somewhere before it. */
  lemma StateStepBrings(c: Config, s: World, st: Step, id: Id)
    requires Enabled(c, s, st) && OfState(st) && Underway(Apply(c, s, st), id)
    ensures Underway(s, id)
  {
    StateFrame(c, s, st);
    var s' := Apply(c, s, st);
    hide Queued;
    if t: nat :| QueuedAt(s', t, id) {
      assert QueuedAt(s, t, id);
    } else if AboutToSend(s', id) || QueuedAtManager(s', id) {
      SentBrings(c, s, st, id);
    }
  }

  lemma SentBrings(c: Config, s: World, st: Step, id: Id)
    requires Enabled(c, s, st) && OfState(st) && (AboutToSend(Apply(c, s, st), id) || QueuedAtManager(Apply(c, s, st), id))
    ensures AboutToSend(s, id) || QueuedAtManager(s, id)
  {
    var s' := Apply(c, s, st);
    if AboutToSend(s', id) {
      hide QueuedAtManager;
      NewlySending(c, s, st);
      hide Apply, Enabled;
    } else {
      hide Apply, Enabled;
      var m :| m in s'.managerQ && AsksManager(m, id);
      if m !in s.managerQ {
        NewAtManager(c, s, st, m);
      }
    }
  }

  /** Between two messages the handler comes to send nothing but a shutdown request. */
  lemma NewlySending(c: Config, s: World, st: Step)
    requires Enabled(c, s, st) && OfState(st) && Apply(c, s, st).ctl.Sending?
    ensures Apply(c, s, st).ctl == Sending(MShutdown) || Apply(c, s, st).ctl == s.ctl
  {
    hide WatchOf, ListsPending;
  }

  lemma NewAtManager(c: Config, s: World, st: Step, m: ManagerMsg)
    requires Enabled(c, s, st) && OfState(st) && m in Apply(c, s, st).managerQ && m !in s.managerQ && m.MReap?
    ensures s.ctl.Sending? && s.ctl.m == m
  {
    if !st.StateSend? && !st.RestoreSend? {
      OthersQueueNothing(c, s, st);
      hide Apply, Enabled;
    } else {
      hide WatchOf;
    }
  }

  lemma OthersQueueNothing(c: Config, s: World, st: Step)
    requires Enabled(c, s, st) && OfState(st) && !st.StateSend? && !st.RestoreSend?
    ensures Apply(c, s, st).managerQ == s.managerQ
  {
    hide ListsPending;
  }

  /** A notification makes an order paid that was not, and only then leads to a request. */
  lemma TakeBrings(c: Config, s: World, now: u64, id: Id)
    requires Enabled(c, s, StateTake(now)) && PaidIn(s.d.db, id) && Underway(Apply(c, s, StateTake(now)), id)
    ensures Underway(s, id)
  {
    TakeStateMsgFrame(c, s, now);
    hide Queued;
    var s' := Apply(c, s, StateTake(now));
    if AboutToSend(s', id) {
      PaidIsNotTaken(c, s, now, id);
    }
    hide TakeStateMsg;
    if t: nat :| QueuedAt(s', t, id) {
      assert QueuedAt(s, t, id);
    }
  }

  lemma PaidIsNotTaken(c: Config, s: World, now: u64, id: Id)
    requires s.ctl.Idle? && |s.stateQ| > 0 && PaidIn(s.d.db, id)
    ensures !AboutToSend(TakeStateMsg(c, s, now), id)
  {
    var s1 := s.(stateQ := s.stateQ[1..]);
    match s.stateQ[0] {
      case OrderPaid(other) =>
        PaidShape(c, s1, other);
        CallerIsKept(c, other, if other in s.d.db then s.d.db[other].(paymentStatus := Paid) else s.d.db[id], StateTask);
        hide TakePaid, WatchOf;
      case CreateInvoice(q) =>
        TakeCreateFrame(c, s1, q, now);
        hide TakeCreate;
      case ConnectChain(_) =>
      case Inquiry =>
    }
  }

  lemma ManagerStepBrings(c: Config, s: World, st: Step, id: Id)
    requires Enabled(c, s, st) && OfManager(st) && Underway(Apply(c, s, st), id)
    ensures Underway(s, id)
  {
    ManagerFrame(c, s, st);
    var s' := Apply(c, s, st);
    if t: nat :| QueuedAt(s', t, id) {
      EnqueuedBrings(c, s, st, t, id);
    } else if Forwarded(s', id) {
      hide Route, Drained, CallersInM;
      assert Forwarded(s, id) || (st.ManagerTake? && s.managerQ[0] in s.managerQ && AsksManager(s.managerQ[0], id));
    } else {
      hide Apply, Enabled;
    }
  }

  lemma EnqueuedIs(c: Config, s: World, st: Step, t: nat)
    requires Enabled(c, s, st) && OfManager(st) && t < |Apply(c, s, st).trackers|
    ensures |Apply(c, s, st).trackers| == |s.trackers|
    ensures var q, q' := s.trackers[t].queue, Apply(c, s, st).trackers[t].queue;
            q' == q || q' == q + [TShutdown] || (st.ManagerForward? && q' == q + [s.mctl.m])
  {
    if st.ManagerForward? {
      ForwardedIs(c, s, t);
      hide Apply, Enabled;
    } else if st.ManagerTake? || st.ManagerFinish? {
      OnlyOwnQueue(c, s, st);
      hide Apply, Enabled;
    }
  }

  lemma ForwardedIs(c: Config, s: World, t: nat)
    requires Enabled(c, s, ManagerForward) && t < |Apply(c, s, ManagerForward).trackers|
    ensures |Apply(c, s, ManagerForward).trackers| == |s.trackers| && s.mctl.Forwarding?
    ensures var q, q' := s.trackers[t].queue, Apply(c, s, ManagerForward).trackers[t].queue;
            q' == q || q' == q + [s.mctl.m]
  {
    hide CallerOf;
  }

  lemma OnlyOwnQueue(c: Config, s: World, st: Step)
    requires Enabled(c, s, st) && (st.ManagerTake? || st.ManagerFinish?)
    ensures Apply(c, s, st).trackers == s.trackers
  {
    hide Route, Drained, CallersInM;
  }

  lemma EnqueuedBrings(c: Config, s: World, st: Step, t: nat, id: Id)
    requires Enabled(c, s, st) && OfManager(st) && QueuedAt(Apply(c, s, st), t, id)
    ensures QueuedAt(s, t, id) || Forwarded(s, id)
  {
    EnqueuedIs(c, s, st, t);
    hide Apply;
    var m :| m in Apply(c, s, st).trackers[t].queue && AsksTracker(m, id);
    assert m in s.trackers[t].queue || (st.ManagerForward? && m == s.mctl.m);
  }

  lemma TrackerStepBrings(c: Config, s: World, st: Step, id: Id)
    requires Enabled(c, s, st) && OfTrackers(st) && Underway(Apply(c, s, st), id)
    ensures Underway(s, id)
  {
    TrackerFrame(c, s, st);
    var s' := Apply(c, s, st);
    if t: nat :| QueuedAt(s', t, id) {
      if t == st.t {
        OwnQueueBrings(c, s, st, id);
      } else {
        hide Apply, Enabled;
        assert QueuedAt(s, t, id);
      }
    } else if InTask(s', id) {
      NewTaskBrings(c, s, st, id);
    } else {
      hide Apply, Enabled;
    }
  }

  lemma TakenQueueIs(c: Config, s: World, st: Step)
    requires Enabled(c, s, st) && (st.TrackerTake? || st.TrackerQuit?)
    ensures st.t < |s.trackers| && st.t < |Apply(c, s, st).trackers|
    ensures var q, q' := s.trackers[st.t].queue, Apply(c, s, st).trackers[st.t].queue;
            q' == [] || (|q| > 0 && q' == q[1..])
  {
    hide CallersIn;
  }

  lemma OwnQueueBrings(c: Config, s: World, st: Step, id: Id)
    requires Enabled(c, s, st) && OfTrackers(st) && QueuedAt(Apply(c, s, st), st.t, id)
    ensures QueuedAt(s, st.t, id)
  {
    hide Apply, Enabled;
    if st.TrackerTake? || st.TrackerQuit? {
      TakenQueueIs(c, s, st);
    } else {
      LongerQueueIs(c, s, st);
    }
    var m :| m in Apply(c, s, st).trackers[st.t].queue && AsksTracker(m, id);
    assert m in s.trackers[st.t].queue;
  }

  lemma NewTaskBrings(c: Config, s: World, st: Step, id: Id)
    requires Enabled(c, s, st) && OfTrackers(st) && InTask(Apply(c, s, st), id)
    ensures InTask(s, id) || QueuedAt(s, st.t, id)
  {
    hide Apply, Enabled;
    var s' := Apply(c, s, st);
    NewTaskIs(c, s, st);
    var k :| 0 <= k < |s'.tasks| && s'.tasks[k].w.id == id;
    if k < |s.tasks| {
      assert s'.tasks[k] == s.tasks[k];
    } else {
      assert s.trackers[st.t].queue[0] in s.trackers[st.t].queue && AsksTracker(s.trackers[st.t].queue[0], id);
    }
  }

  lemma NewTaskIs(c: Config, s: World, st: Step)
    requires Enabled(c, s, st) && OfTrackers(st)
    ensures st.t < |s.trackers|
    ensures var q, tasks := s.trackers[st.t].queue, Apply(c, s, st).tasks;
            tasks == s.tasks || (|q| > 0 && q[0].TReap? && |tasks| == |s.tasks| + 1
                                 && s.tasks <= tasks && tasks[|s.tasks|].w == q[0].w)
  {
    hide Prepare, EvidenceOf, Reports, Dropped, VisitAllowed, CallersIn;
  }

  lemma PayoutStepBrings(c: Config, s: World, st: Step, id: Id)
    requires Enabled(c, s, st) && st.PayoutStart?
    requires Underway(Apply(c, s, st), id) || Attempted(Apply(c, s, st).d, id)
    ensures Underway(s, id) || Attempted(s.d, id)
  {
    PayoutFrame(c, s, st);
    var s' := Apply(c, s, st);
    if j :| 0 <= j < |s'.d.started| && s'.d.started[j].id == id {
      if j < |s.d.started| {
        assert s.d.started[j].id == id;
      } else {
        PayoutIsOf(c, s.tasks[st.k].w);
        assert InTask(s, id);
      }
    } else if k :| 0 <= k < |s'.tasks| && s'.tasks[k].w.id == id {
      assert s.tasks[if k < st.k then k else k + 1] == s'.tasks[k];
      assert InTask(s, id);
    } else {
      hide Apply, Enabled, Queued;
      if t: nat :| QueuedAt(s', t, id) {
        assert QueuedAt(s, t, id);
      }
    }
  }

  lemma OthersAttemptNothing(c: Config, s: World, st: Step)
    requires Enabled(c, s, st) && !st.PayoutStart?
    ensures Apply(c, s, st).d.started == s.d.started
  {
    if OfTrackers(st) {
      TrackerFrame(c, s, st);
      hide Apply, Enabled;
    } else if OfManager(st) {
      ManagerFrame(c, s, st);
      hide Apply, Enabled;
    } else if OfState(st) {
      StateFrame(c, s, st);
      hide Apply, Enabled;
    } else if st.StateTake? {
      TakeStateMsgFrame(c, s, st.now);
      hide TakeStateMsg;
    }
  }

  lemma StepBrings(c: Config, s: World, st: Step, id: Id)
    requires Enabled(c, s, st) && PaidIn(s.d.db, id)
    requires Underway(Apply(c, s, st), id) || Attempted(Apply(c, s, st).d, id)
    ensures Underway(s, id) || Attempted(s.d, id)
  {
    if st.PayoutStart? {
      hide Apply, Enabled, Underway, Attempted;
      PayoutStepBrings(c, s, st, id);
    } else {
      OthersAttemptNothing(c, s, st);
      var s' := Apply(c, s, st);
      assert Attempted(s'.d, id) <==> Attempted(s.d, id) by {
        hide Apply, Enabled;
      }
      hide Apply, Enabled, Attempted, Underway;
      if !Attempted(s'.d, id) {
        OtherStepBrings(c, s, st, id);
      }
    }
  }

  lemma OtherStepBrings(c: Config, s: World, st: Step, id: Id)
    requires Enabled(c, s, st) && PaidIn(s.d.db, id) && !st.PayoutStart? && Underway(Apply(c, s, st), id)
    ensures Underway(s, id)
  {
    hide Enabled, Underway;
    if OfTrackers(st) {
      hide Apply;
      TrackerStepBrings(c, s, st, id);
    } else if OfManager(st) {
      hide Apply;
      ManagerStepBrings(c, s, st, id);
    } else if OfState(st) {
      hide Apply;
      StateStepBrings(c, s, st, id);
    } else if st.StateTake? {
      hide Apply;
      TakeBrings(c, s, st.now, id);
    } else {
      hide TakeStateMsg;
      NothingAtStart(c, s, id);
    }
  }

  lemma NothingAtStart(c: Config, s: World, id: Id)
    ensures !Underway(Started(c, s.d), id)
  {
  }

  /** Dropping a queue answers the State, which then has no other request anywhere. */
  lemma DropsLose(c: Config, s: World, st: Step, id: Id)
    requires Healthy(c, s) && Enabled(c, s, st) && Healthy(c, Apply(c, s, st)) && Drops(s, st, id)
    ensures !Underway(Apply(c, s, st), id) && !Attempted(Apply(c, s, st).d, id)
  {
    hide Healthy, Inv, Drops, Underway, Attempted;
    HealthyInv(c, s);
    DroppedIsUnderway(s, st, id);
    UnderwayIsPaid(c, s, id);
    DropStartsNothing(c, s, st, id);
    if st.Crash? {
      NothingAtStart(c, s, id);
    } else {
      hide Apply, Enabled;
      DropAnswers(c, s, st, id);
      HealthyInv(c, Apply(c, s, st));
      AnsweredHasNothing(c, Apply(c, s, st), id);
    }
  }

  lemma AnsweredHasNothing(c: Config, s: World, id: Id)
    requires Inv(c, s) && StateTask in s.replies
    ensures !Underway(s, id)
  {
    hide Inv, QueuedAtManager, QueuedAt, InTask, Forwarded;
    AnsweredIsWaiting(c, s);
    NoneElsewhere(c, s, id);
  }

  lemma DropStartsNothing(c: Config, s: World, st: Step, id: Id)
    requires Enabled(c, s, st) && Drops(s, st, id)
    ensures Attempted(Apply(c, s, st).d, id) == Attempted(s.d, id)
  {
    OthersAttemptNothing(c, s, st);
    hide Apply, Enabled;
  }

  lemma HealthyInv(c: Config, s: World)
    requires Healthy(c, s)
    ensures Inv(c, s)
  {
  }

  lemma DroppedIsUnderway(s: World, st: Step, id: Id)
    requires Drops(s, st, id)
    ensures Underway(s, id)
  {
    hide Queued;
  }

  lemma DropAnswers(c: Config, s: World, st: Step, id: Id)
    requires Inv(c, s) && Enabled(c, s, st) && Drops(s, st, id) && !st.Crash?
    ensures StateTask in Apply(c, s, st).replies
  {
    AllAreTheStates(c, s);
    hide Inv, InFlight, CallerOf;
    if st.ManagerForward? {
      assert StateTask in CallerOf(s.mctl.m);
    } else {
      var m :| m in s.trackers[st.t].queue && AsksTracker(m, id);
      assert StateTask in CallerOf(m);
      EndAnswers(c, s, st, m);
    }
  }

  lemma EndAnswers(c: Config, s: World, st: Step, m: TrackerMsg)
    requires Enabled(c, s, st) && (st.TrackerQuit? || st.TrackerTake?)
    requires m in s.trackers[st.t].queue && m.TReap? && StateTask in CallerOf(m)
    requires st.TrackerTake? ==> EndsTracker(s.trackers[st.t].queue[0], st.outcome)
    ensures StateTask in Apply(c, s, st).replies
  {
    hide CallerOf;
    var q := s.trackers[st.t].queue;
    assert StateTask in CallersIn(q);
    if st.TrackerTake? {
      assert m in q[1..];
      assert StateTask in CallersIn(q[1..]);
    }
  }

  lemma AnsweredIsWaiting(c: Config, s: World)
    requires Inv(c, s) && StateTask in s.replies
    ensures s.ctl.AwaitingReply?
  {
    ConservedOf(c, s);
    hide Inv, HeldInM, HeldBy, HeldInTasks;
    assert Held(s, StateTask) >= 1;
  }

  lemma PaidStays(c: Config, s: World, st: Step, id: Id)
    requires Enabled(c, s, st) && PaidIn(s.d.db, id)
    ensures PaidIn(Apply(c, s, st).d.db, id)
  {
    if OfTrackers(st) {
      TrackerFrame(c, s, st);
      hide Apply, Enabled;
    } else if OfManager(st) {
      ManagerFrame(c, s, st);
      hide Apply, Enabled;
    } else if OfState(st) {
      StateFrame(c, s, st);
      hide Apply, Enabled;
    } else if st.PayoutStart? {
      PayoutFrame(c, s, st);
      hide Apply, Enabled;
    } else if st.StateTake? {
      TakePaidStays(c, s, st.now, id);
      hide TakeStateMsg;
    }
  }

  lemma PaidByStays(c: Config, s: World, other: Id, id: Id)
    requires PaidIn(s.d.db, id)
    ensures PaidIn(TakePaid(c, s, other).d.db, id)
  {
    hide WatchOf, ValidUtf8;
  }

  lemma CreatedStays(c: Config, s: World, q: OrderQuery, now: u64, id: Id)
    requires PaidIn(s.d.db, id)
    ensures PaidIn(TakeCreate(c, s, q, now).d.db, id)
  {
    hide WatchOf, DeathAt, ValidUtf8;
  }

  lemma TakePaidStays(c: Config, s: World, now: u64, id: Id)
    requires s.ctl.Idle? && |s.stateQ| > 0 && PaidIn(s.d.db, id)
    ensures PaidIn(TakeStateMsg(c, s, now).d.db, id)
  {
    var s1 := s.(stateQ := s.stateQ[1..]);
    hide TakePaid, TakeCreate, PaidIn;
    match s.stateQ[0] {
      case OrderPaid(other) => PaidByStays(c, s1, other, id);
      case CreateInvoice(q) => CreatedStays(c, s1, q, now, id);
      case ConnectChain(_) =>
      case Inquiry =>
    }
  }

  /** The exact law: a step loses the payout of a paid order exactly if it drops it; what is lost stays lost. */
  lemma LosesIff(c: Config, s: World, st: Step, id: Id)
    requires c.Valid() && Healthy(c, s) && Enabled(c, s, st) && PaidIn(s.d.db, id)
    ensures Lost(Apply(c, s, st), id) <==> Lost(s, id) || Drops(s, st, id)
  {
    StepHealthy(c, s, st);
    PaidStays(c, s, st, id);
    var s' := Apply(c, s, st);
    if Drops(s, st, id) {
      DropsLose(c, s, st, id);
    } else if Underway(s, id) {
      UnderwayStep(c, s, st, id);
    } else if Attempted(s.d, id) {
      AttemptsStay(c, s, st, id);
    }
    hide Healthy, Apply, Enabled, Underway, Attempted, Drops;
    if Underway(s', id) || Attempted(s'.d, id) {
      StepBrings(c, s, st, id);
    }
  }

  lemma AttemptsStay(c: Config, s: World, st: Step, id: Id)
    requires Enabled(c, s, st) && Attempted(s.d, id)
    ensures Attempted(Apply(c, s, st).d, id)
  {
    var j :| 0 <= j < |s.d.started| && s.d.started[j].id == id;
    if st.PayoutStart? {
      assert Apply(c, s, st).d.started[j] == s.d.started[j];
    } else {
      OthersAttemptNothing(c, s, st);
    }
  }

  // --- A whole run ---

  /** Some step of this run drops the payout of the order. */
  ghost predicate DroppedOn(c: Config, s: World, steps: seq<Step>, id: Id)
    decreases |steps|
  {
    |steps| > 0 && Enabled(c, s, steps[0])
    && (Drops(s, steps[0], id) || DroppedOn(c, Apply(c, s, steps[0]), steps[1..], id))
  }

  /** An order that is not paid yet has no request anywhere, so nothing of it is dropped. */
  lemma UnpaidIsNowhere(c: Config, s: World, id: Id)
    requires Inv(c, s) && !PaidIn(s.d.db, id)
    ensures !Underway(s, id) && !Attempted(s.d, id)
  {
    if Underway(s, id) {
      UnderwayIsPaid(c, s, id);
    }
    if j :| 0 <= j < |s.d.started| && s.d.started[j].id == id {
      StartedIsPaid(c, s, j);
    }
  }

  lemma StartedIsPaid(c: Config, s: World, j: nat)
    requires Inv(c, s) && j < |s.d.started|
    ensures PaidIn(s.d.db, s.d.started[j].id)
  {
    hide Conserved, VolatileOk, CtlOk, EvidenceOk, VersionsOk, WatchOf;
    var k := IssuedAs(c, s.d, j);
    PayoutIsOf(c, s.d.issued[k]);
    assert Faithful(c, s.d, s.d.issued[k]);
  }

  /** Creating and modifying an order leaves it pending. */
  lemma CreatedIsNotPaid(c: Config, s: World, q: OrderQuery, now: u64, id: Id)
    requires PaidIn(TakeCreate(c, s, q, now).d.db, id)
    ensures PaidIn(s.d.db, id)
  {
    hide WatchOf, DeathAt, ValidUtf8;
  }

  /** The stored address of an order parses. */
  lemma StoredIsWatchable(c: Config, d: Durable, id: Id, o: OrderInfo)
    requires VersionsOk(c, d) && id in d.db && o.paymentAccount == d.db[id].paymentAccount
    ensures WatchOf(c, id, o, StateTask).Some? && WatchOf(c, id, o, StateTask).value.id == id
  {
    assert (id, AsPending(d.db[id])) in d.versions;
  }

  lemma TakenPaid(c: Config, s: World, now: u64, id: Id)
    requires VersionsOk(c, s.d) && s.ctl.Idle? && |s.stateQ| > 0
    requires !PaidIn(s.d.db, id) && PaidIn(TakeStateMsg(c, s, now).d.db, id)
    ensures AboutToSend(TakeStateMsg(c, s, now), id)
  {
    var s1 := s.(stateQ := s.stateQ[1..]);
    hide VersionsOk, TakeCreate;
    if s.stateQ[0].CreateInvoice? {
      CreatedIsNotPaid(c, s1, s.stateQ[0].query, now, id);
    } else if s.stateQ[0].OrderPaid? {
      PaidShape(c, s1, s.stateQ[0].id);
      StoredIsWatchable(c, s.d, id, s.d.db[id].(paymentStatus := Paid));
      hide TakePaid, WatchOf, ValidUtf8;
    }
  }

  /** The step that makes an order paid leaves its payout about to be requested. */
  lemma NewlyPaid(c: Config, s: World, st: Step, id: Id)
    requires Inv(c, s) && Enabled(c, s, st) && !PaidIn(s.d.db, id) && PaidIn(Apply(c, s, st).d.db, id)
    ensures AboutToSend(Apply(c, s, st), id)
  {
    if st.StateTake? {
      hide Conserved, EvidenceOk, PayoutsOk, CtlOk, VolatileOk, VersionsOk, TakeStateMsg;
      TakenPaid(c, s, st.now, id);
    } else {
      hide Inv;
      OthersPayNothing(c, s, st);
      hide Apply, Enabled;
    }
  }

  lemma OthersPayNothing(c: Config, s: World, st: Step)
    requires Enabled(c, s, st) && !st.StateTake?
    ensures Apply(c, s, st).d.db == s.d.db
  {
    if OfTrackers(st) {
      TrackerFrame(c, s, st);
      hide Apply, Enabled;
    } else if OfManager(st) {
      ManagerFrame(c, s, st);
      hide Apply, Enabled;
    } else if OfState(st) {
      StateFrame(c, s, st);
      hide Apply, Enabled;
    } else if st.PayoutStart? {
      PayoutFrame(c, s, st);
      hide Apply, Enabled;
    }
  }

  /** Before it is paid, an order has nothing that could be dropped or lost. */
  lemma UnpaidLosesNothing(c: Config, s: World, st: Step, id: Id)
    requires Inv(c, s) && Enabled(c, s, st) && !PaidIn(s.d.db, id)
    ensures !Lost(s, id) && !Drops(s, st, id) && !Lost(Apply(c, s, st), id)
  {
    UnpaidIsNowhere(c, s, id);
    if Drops(s, st, id) {
      DroppedIsUnderway(s, st, id);
    }
    if PaidIn(Apply(c, s, st).d.db, id) {
      NewlyPaid(c, s, st, id);
    }
    hide Inv, Apply, Enabled, Drops, Attempted;
  }

  lemma {:induction false} LostFrom(c: Config, s: World, steps: seq<Step>, s': World, id: Id)
    requires c.Valid() && Healthy(c, s) && Runs(c, s, steps, s')
    ensures Lost(s', id) <==> (Lost(s, id) || DroppedOn(c, s, steps, id))
    decreases |steps|
  {
    if |steps| > 0 {
      StepHealthy(c, s, steps[0]);
      HealthyInv(c, s);
      if PaidIn(s.d.db, id) {
        LosesIff(c, s, steps[0], id);
      } else {
        UnpaidLosesNothing(c, s, steps[0], id);
      }
      hide Healthy, Inv, Apply, Enabled, Lost, Drops;
      LostFrom(c, Apply(c, s, steps[0]), steps[1..], s', id);
    }
  }

  /**
   * The exact law of payouts, over every run from the first start. Whatever a paid order's payout is,
   * it is one thing: on its way, attempted, or lost; and it is lost exactly if some step dropped it.
   */
  lemma LostIff(c: Config, steps: seq<Step>, s: World, id: Id)
    requires c.Valid() && Runs(c, Init(c), steps, s)
    ensures Lost(s, id) <==> DroppedOn(c, Init(c), steps, id)
    ensures Underway(s, id) ==> PaidIn(s.d.db, id) && !Attempted(s.d, id)
    ensures Attempted(s.d, id) ==> PaidIn(s.d.db, id)
  {
    InitHealthy(c);
    RunsHealthy(c, Init(c), steps, s);
    HealthyInv(c, s);
    hide Healthy, Inv, Runs;
    LostFrom(c, Init(c), steps, s, id);
    if Underway(s, id) {
      UnderwayIsPaid(c, s, id);
    }
    if !PaidIn(s.d.db, id) {
      UnpaidIsNowhere(c, s, id);
    }
  }
}
