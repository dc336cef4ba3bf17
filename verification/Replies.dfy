// Reply channels: each caller of the manager waits for exactly one channel, and that channel is in
// exactly one place. From it follow what can block the State handler, and the one way it blocks
// for good.
module Replies {
  import opened Definitions
  import opened Ledger
  import opened Chains
  import opened Watching
  import opened Protocol

  // --- Counting the channels of a caller ---

  function Holds(m: TrackerMsg, k: Caller): nat {
    if k in CallerOf(m) then 1 else 0
  }

  function HoldsM(m: ManagerMsg, k: Caller): nat {
    if k in CallerOfM(m) then 1 else 0
  }

  function HeldIn(q: seq<TrackerMsg>, k: Caller): nat {
    if |q| == 0 then 0 else Holds(q[0], k) + HeldIn(q[1..], k)
  }

  function HeldInM(q: seq<ManagerMsg>, k: Caller): nat {
    if |q| == 0 then 0 else HoldsM(q[0], k) + HeldInM(q[1..], k)
  }

  function HeldBy(ts: seq<TrackerState>, k: Caller): nat {
    if |ts| == 0 then 0 else HeldIn(ts[0].queue, k) + HeldBy(ts[1..], k)
  }

  function HeldInTasks(tasks: seq<Task>, k: Caller): nat {
    if |tasks| == 0 then 0 else (if tasks[0].w.caller == k then 1 else 0) + HeldInTasks(tasks[1..], k)
  }

  function HeldByManager(m: ManagerCtl, k: Caller): nat {
    match m
    case Forwarding(_, msg) => Holds(msg, k)
    case _ => 0
  }

  /** In how many queues, actors, payout tasks or delivered replies a channel of this caller is. */
  function Held(s: World, k: Caller): nat {
    HeldInM(s.managerQ, k) + HeldByManager(s.mctl, k) + HeldBy(s.trackers, k) + HeldInTasks(s.tasks, k)
    + if k in s.replies then 1 else 0
  }

  predicate Waits(s: World, k: Caller) {
    match k
    case StateTask => s.ctl.AwaitingReply?
    case RestoreTask => s.restoreWaits
  }

  /** A waiting caller's channel is in exactly one place; a caller that does not wait has none. */
  ghost predicate Conserved(s: World) {
    && (forall k: Caller :: Held(s, k) == if Waits(s, k) then 1 else 0)
    && SendsAsState(s)
  }

  predicate SendsAsState(s: World) {
    s.ctl.Sending? ==> CallerOfM(s.ctl.m) <= {StateTask}
  }

  lemma {:induction false} HeldAppend(q: seq<TrackerMsg>, m: TrackerMsg, k: Caller)
    ensures HeldIn(q + [m], k) == HeldIn(q, k) + Holds(m, k)
  {
    if |q| > 0 {
      HeldAppend(q[1..], m, k);
      assert (q + [m])[1..] == q[1..] + [m];
    }
  }

  lemma {:induction false} HeldAppendM(q: seq<ManagerMsg>, m: ManagerMsg, k: Caller)
    ensures HeldInM(q + [m], k) == HeldInM(q, k) + HoldsM(m, k)
  {
    if |q| > 0 {
      HeldAppendM(q[1..], m, k);
      assert (q + [m])[1..] == q[1..] + [m];
    }
  }

  lemma {:induction false} HeldUpdate(ts: seq<TrackerState>, t: nat, x: TrackerState, k: Caller)
    requires t < |ts|
    ensures HeldBy(ts[t := x], k) + HeldIn(ts[t].queue, k) == HeldBy(ts, k) + HeldIn(x.queue, k)
  {
    if t == 0 {
      assert ts[t := x][1..] == ts[1..];
    } else {
      HeldUpdate(ts[1..], t - 1, x, k);
      assert ts[t := x][1..] == ts[1..][t - 1 := x];
    }
  }

  lemma {:induction false} HeldSameQueues(ts: seq<TrackerState>, ts': seq<TrackerState>, k: Caller)
    requires |ts| == |ts'| && forall t :: 0 <= t < |ts| ==> ts[t].queue == ts'[t].queue
    ensures HeldBy(ts, k) == HeldBy(ts', k)
  {
    if |ts| > 0 {
      HeldSameQueues(ts[1..], ts'[1..], k);
    }
  }

  lemma {:induction false} HeldFresh(ts: seq<TrackerState>, k: Caller)
    requires forall t :: 0 <= t < |ts| ==> ts[t].queue == []
    ensures HeldBy(ts, k) == 0
  {
    if |ts| > 0 {
      HeldFresh(ts[1..], k);
    }
  }

  lemma {:induction false} HeldAtLeast(ts: seq<TrackerState>, t: nat, k: Caller)
    requires t < |ts|
    ensures HeldBy(ts, k) >= HeldIn(ts[t].queue, k)
  {
    if t > 0 {
      HeldAtLeast(ts[1..], t - 1, k);
    }
  }

  lemma {:induction false} HeldAtLeastTwo(ts: seq<TrackerState>, t: nat, u: nat, k: Caller)
    requires t < u < |ts|
    ensures HeldBy(ts, k) >= HeldIn(ts[t].queue, k) + HeldIn(ts[u].queue, k)
  {
    if t > 0 {
      HeldAtLeastTwo(ts[1..], t - 1, u - 1, k);
    } else {
      HeldAtLeast(ts[1..], u - 1, k);
    }
  }

  lemma {:induction false} HeldSomewhere(ts: seq<TrackerState>, k: Caller) returns (t: nat)
    requires HeldBy(ts, k) > 0
    ensures t < |ts| && HeldIn(ts[t].queue, k) > 0
  {
    if HeldIn(ts[0].queue, k) > 0 {
      t := 0;
    } else {
      t := HeldSomewhere(ts[1..], k);
      t := t + 1;
    }
  }

  lemma {:induction false} HeldRemoved(tasks: seq<Task>, i: nat, k: Caller)
    requires i < |tasks|
    ensures HeldInTasks(tasks, k)
         == HeldInTasks(tasks[..i] + tasks[i + 1..], k) + if tasks[i].w.caller == k then 1 else 0
  {
    var rest := tasks[..i] + tasks[i + 1..];
    if i == 0 {
      assert rest == tasks[1..];
    } else {
      HeldRemoved(tasks[1..], i - 1, k);
      assert rest[1..] == tasks[1..][..i - 1] + tasks[1..][i..];
    }
  }

  lemma {:induction false} HeldTaskAppend(tasks: seq<Task>, x: Task, k: Caller)
    ensures HeldInTasks(tasks + [x], k) == HeldInTasks(tasks, k) + if x.w.caller == k then 1 else 0
  {
    if |tasks| > 0 {
      HeldTaskAppend(tasks[1..], x, k);
      assert (tasks + [x])[1..] == tasks[1..] + [x];
    }
  }

  lemma {:induction false} HeldIffMember(q: seq<TrackerMsg>, k: Caller)
    ensures HeldIn(q, k) > 0 <==> exists m :: m in q && k in CallerOf(m)
  {
    if |q| > 0 {
      HeldIffMember(q[1..], k);
      assert q == [q[0]] + q[1..];
    }
  }

  lemma {:induction false} HeldIffMemberM(q: seq<ManagerMsg>, k: Caller)
    ensures HeldInM(q, k) > 0 <==> exists m :: m in q && k in CallerOfM(m)
  {
    if |q| > 0 {
      HeldIffMemberM(q[1..], k);
      assert q == [q[0]] + q[1..];
    }
  }

  lemma DroppedCallers(q: seq<TrackerMsg>, k: Caller)
    ensures k in CallersIn(q) <==> HeldIn(q, k) > 0
  {
    HeldIffMember(q, k);
  }

  lemma DroppedCallersM(q: seq<ManagerMsg>, k: Caller)
    ensures k in CallersInM(q) <==> HeldInM(q, k) > 0
  {
    HeldIffMemberM(q, k);
  }

  // --- Every step conserves the channels ---

  lemma ConservedInit(c: Config, d: Durable)
    ensures Conserved(Started(c, d))
  {
    forall k: Caller ensures Held(Started(c, d), k) == 0 {
      HeldFresh(FreshTrackers(|c.chains|), k);
    }
  }

  /** A step that moves no channel and changes nobody's waiting. */
  lemma Unmoved(s: World, s': World)
    requires Conserved(s)
    requires |s'.trackers| == |s.trackers| && forall t :: 0 <= t < |s.trackers| ==> s'.trackers[t].queue == s.trackers[t].queue
    requires s'.ctl.AwaitingReply? == s.ctl.AwaitingReply? && s'.restoreWaits == s.restoreWaits
    requires s'.ctl == s.ctl || SendsAsState(s')
    requires s'.managerQ == s.managerQ && s'.mctl == s.mctl && s'.tasks == s.tasks && s'.replies == s.replies
    ensures Conserved(s')
  {
    forall k: Caller ensures Held(s', k) == if Waits(s', k) then 1 else 0 {
      assert Held(s, k) == if Waits(s, k) then 1 else 0;
      HeldSameQueues(s.trackers, s'.trackers, k);
    }
  }

  lemma TakeCreateSends(c: Config, s: World, q: OrderQuery, now: u64)
    requires s.ctl.Idle?
    ensures var s' := TakeCreate(c, s, q, now);
            s' == s.(d := s'.d, ctl := s'.ctl) && SendsAsState(s') && !s'.ctl.AwaitingReply?
  {
    hide CreateOrder;
  }

  lemma TakePaidSends(c: Config, s: World, id: Id)
    requires s.ctl.Idle?
    ensures var s' := TakePaid(c, s, id);
            s' == s.(d := s'.d, ctl := s'.ctl) && SendsAsState(s') && !s'.ctl.AwaitingReply?
  {
    hide MarkPaid;
  }

  lemma TakeStateMsgConserves(c: Config, s: World, now: u64)
    requires Conserved(s) && s.ctl.Idle? && |s.stateQ| > 0
    ensures Conserved(TakeStateMsg(c, s, now))
  {
    var s1 := s.(stateQ := s.stateQ[1..]);
    match s.stateQ[0] {
      case OrderPaid(id) => TakePaidSends(c, s1, id);
      case CreateInvoice(q) => TakeCreateSends(c, s1, q, now);
      case ConnectChain(_) =>
      case Inquiry =>
    }
    hide Conserved, TakeCreate, TakePaid, SendsAsState;
    Unmoved(s, TakeStateMsg(c, s, now));
  }

  /** What the State handler sends holds its own channel; a shutdown request holds none. */
  lemma SentHolds(s: World, k: Caller)
    requires SendsAsState(s) && s.ctl.Sending?
    ensures HoldsM(s.ctl.m, k) == if k.StateTask? && !s.ctl.m.MShutdown? then 1 else 0
  {
  }

  lemma EnqueuedConserves(s: World, s': World)
    requires Conserved(s) && s.ctl.Sending? && SendsAsState(s')
    requires s'.managerQ == s.managerQ + [s.ctl.m] && s'.ctl.AwaitingReply? == !s.ctl.m.MShutdown?
    requires s'.mctl == s.mctl && s'.trackers == s.trackers && s'.tasks == s.tasks && s'.replies == s.replies
    requires s'.restoreWaits == s.restoreWaits
    ensures Conserved(s')
  {
    hide HeldInM, HeldBy, HeldInTasks, HoldsM;
    forall k: Caller ensures Held(s', k) == if Waits(s', k) then 1 else 0 {
      assert Held(s, k) == if Waits(s, k) then 1 else 0;
      HeldAppendM(s.managerQ, s.ctl.m, k);
      SentHolds(s, k);
    }
  }

  lemma SendConserves(s: World)
    requires Conserved(s) && s.ctl.Sending?
    ensures Conserved(SendToManager(s))
  {
    hide Conserved;
    if s.mctl.Gone? {
      Unmoved(s, SendToManager(s));
    } else {
      EnqueuedConserves(s, SendToManager(s));
    }
  }

  lemma SubmitConserves(c: Config, s: World)
    requires Conserved(s) && |s.restore| > 0 && !s.restoreWaits
    ensures Conserved(SubmitRestored(c, s))
  {
    hide HeldInM, HeldBy, HeldInTasks;
    var s' := SubmitRestored(c, s);
    forall k: Caller ensures Held(s', k) == if Waits(s', k) then 1 else 0 {
      assert Held(s, k) == if Waits(s, k) then 1 else 0;
      var w := WatchOf(c, s.restore[0].0, s.restore[0].1, RestoreTask);
      if w.Some? {
        HeldAppendM(s.managerQ, MWatch(w.value), k);
      }
    }
  }

  lemma StateResumes(s: World)
    requires Conserved(s) && s.ctl.AwaitingReply? && StateTask in s.replies
    ensures Conserved(s.(ctl := Idle, replies := s.replies - {StateTask}))
  {
    hide HeldInM, HeldBy, HeldInTasks, HeldByManager;
    var s' := s.(ctl := Idle, replies := s.replies - {StateTask});
    forall k: Caller ensures Held(s', k) == if Waits(s', k) then 1 else 0 {
      assert Held(s, k) == if Waits(s, k) then 1 else 0;
    }
  }

  lemma RestoreResumes(s: World)
    requires Conserved(s) && s.restoreWaits && RestoreTask in s.replies
    ensures Conserved(s.(restoreWaits := false, replies := s.replies - {RestoreTask}))
  {
    hide HeldInM, HeldBy, HeldInTasks, HeldByManager;
    var s' := s.(restoreWaits := false, replies := s.replies - {RestoreTask});
    forall k: Caller ensures Held(s', k) == if Waits(s', k) then 1 else 0 {
      assert Held(s, k) == if Waits(s, k) then 1 else 0;
    }
  }

  lemma HeadHoldsM(q: seq<ManagerMsg>, k: Caller)
    requires |q| > 0
    ensures HeldInM(q, k) == HoldsM(q[0], k) + HeldInM(q[1..], k)
  {
  }

  lemma TakeManagerMsgConserves(c: Config, s: World)
    requires Conserved(s) && s.mctl.Ready? && |s.managerQ| > 0
    ensures Conserved(TakeManagerMsg(c, s))
  {
    hide HeldBy, HeldInTasks, Route, Drained, HeldInM;
    var s' := TakeManagerMsg(c, s);
    forall k: Caller ensures Held(s', k) == if Waits(s', k) then 1 else 0 {
      assert Held(s, k) == if Waits(s, k) then 1 else 0;
      HeadHoldsM(s.managerQ, k);
    }
  }

  lemma EnqueueHolds(s: World, t: nat, m: TrackerMsg, k: Caller)
    requires t < |s.trackers|
    ensures HeldBy(Enqueue(s, t, m).trackers, k) == HeldBy(s.trackers, k) + Holds(m, k)
  {
    HeldAppend(s.trackers[t].queue, m, k);
    HeldUpdate(s.trackers, t, s.trackers[t].(queue := s.trackers[t].queue + [m]), k);
  }

  lemma ForwardConserves(s: World)
    requires Conserved(s) && s.mctl.Forwarding? && s.mctl.t < |s.trackers|
    ensures Conserved(ForwardToTracker(s))
  {
    hide HeldInM, HeldBy, HeldInTasks;
    var s' := ForwardToTracker(s);
    forall k: Caller ensures Held(s', k) == if Waits(s', k) then 1 else 0 {
      assert Held(s, k) == if Waits(s, k) then 1 else 0;
      EnqueueHolds(s, s.mctl.t, s.mctl.m, k);
    }
  }

  lemma EnqueueConserves(s: World, t: nat, m: TrackerMsg)
    requires Conserved(s) && t < |s.trackers| && CallerOf(m) == {}
    ensures Conserved(Enqueue(s, t, m))
  {
    hide HeldInM, HeldBy, HeldInTasks, HeldByManager;
    forall k: Caller ensures Held(Enqueue(s, t, m), k) == if Waits(s, k) then 1 else 0 {
      EnqueueHolds(s, t, m, k);
    }
  }

  lemma DrainingConserves(s: World, todo: set<nat>)
    requires Conserved(s) && s.mctl.Draining?
    ensures Conserved(s.(mctl := Draining(todo)))
  {
    hide HeldInM, HeldBy, HeldInTasks;
    var s' := s.(mctl := Draining(todo));
    forall k: Caller ensures Held(s', k) == if Waits(s', k) then 1 else 0 {
      assert Held(s, k) == if Waits(s, k) then 1 else 0;
    }
  }

  lemma FinishConserves(s: World)
    requires Conserved(s) && (s.mctl.Draining? || s.mctl.Ready?)
    ensures Conserved(s.(mctl := Gone, managerQ := [], replies := s.replies + CallersInM(s.managerQ)))
  {
    hide HeldBy, HeldInTasks;
    var s' := s.(mctl := Gone, managerQ := [], replies := s.replies + CallersInM(s.managerQ));
    forall k: Caller ensures Held(s', k) == if Waits(s', k) then 1 else 0 {
      assert Held(s, k) == if Waits(s, k) then 1 else 0;
      DroppedCallersM(s.managerQ, k);
    }
  }

  lemma EmptyQueue(k: Caller)
    ensures HeldIn([], k) == 0
  {
  }

  lemma EndTrackerHolds(s: World, t: nat, k: Caller)
    requires t < |s.trackers| && Held(s, k) <= 1
    ensures Held(EndTracker(s, t), k) == Held(s, k)
  {
    hide HeldInM, HeldBy, HeldInTasks, HeldIn;
    HeldUpdate(s.trackers, t, s.trackers[t].(phase := Ended, queue := []), k);
    EmptyQueue(k);
    HeldAtLeast(s.trackers, t, k);
    DroppedCallers(s.trackers[t].queue, k);
  }

  lemma EndTrackerConserves(s: World, t: nat)
    requires Conserved(s) && t < |s.trackers|
    ensures Conserved(EndTracker(s, t))
  {
    hide Held;
    forall k: Caller ensures Held(EndTracker(s, t), k) == if Waits(s, k) then 1 else 0 {
      assert Held(s, k) == if Waits(s, k) then 1 else 0;
      EndTrackerHolds(s, t, k);
    }
  }

  lemma HeadHolds(q: seq<TrackerMsg>, k: Caller)
    requires |q| > 0
    ensures HeldIn(q, k) == Holds(q[0], k) + HeldIn(q[1..], k)
  {
  }

  /** The tracker pops a message and the channel goes on: to a reply or to a payout task. */
  lemma PopHolds(s: World, t: nat, s': World, k: Caller)
    requires t < |s.trackers| && |s.trackers[t].queue| > 0 && Held(s, k) <= 1
    requires |s'.trackers| == |s.trackers| && s'.trackers == s.trackers[t := s'.trackers[t]]
    requires s'.trackers[t].queue == s.trackers[t].queue[1..]
    requires s'.managerQ == s.managerQ && s'.mctl == s.mctl
    requires var m := s.trackers[t].queue[0];
             || (s'.tasks == s.tasks && s'.replies == s.replies + CallerOf(m))
             || (m.TReap? && s'.replies == s.replies && |s'.tasks| == |s.tasks| + 1
                 && s'.tasks == s.tasks + [s'.tasks[|s.tasks|]] && s'.tasks[|s.tasks|].w == m.w)
    ensures Held(s', k) == Held(s, k)
  {
    hide HeldInM, HeldBy, HeldInTasks, HeldIn, HeldByManager;
    HeadHolds(s.trackers[t].queue, k);
    HeldAtLeast(s.trackers, t, k);
    HeldUpdate(s.trackers, t, s'.trackers[t], k);
    if s'.tasks != s.tasks {
      HeldTaskAppend(s.tasks, s'.tasks[|s.tasks|], k);
    }
  }

  lemma PoppedThenEnded(s: World, t: nat, k: Caller)
    requires t < |s.trackers| && |s.trackers[t].queue| > 0 && Held(s, k) <= 1
    requires CallerOf(s.trackers[t].queue[0]) == {}
    ensures var popped := s.(trackers := s.trackers[t := s.trackers[t].(queue := s.trackers[t].queue[1..])]);
            Held(EndTracker(popped, t), k) == Held(s, k)
  {
    hide Held;
    var popped := s.(trackers := s.trackers[t := s.trackers[t].(queue := s.trackers[t].queue[1..])]);
    assert s.replies + {} == s.replies;
    PopHolds(s, t, popped, k);
    EndTrackerHolds(popped, t, k);
  }

  lemma TakeTrackerMsgConserves(s: World, t: nat, outcome: BlockOutcome)
    requires Conserved(s)
    requires t < |s.trackers| && s.trackers[t].phase.Serving? && |s.trackers[t].queue| > 0
    ensures Conserved(TakeTrackerMsg(s, t, outcome))
  {
    hide Held;
    var s' := TakeTrackerMsg(s, t, outcome);
    forall k: Caller ensures Held(s', k) == if Waits(s', k) then 1 else 0 {
      assert Held(s, k) == if Waits(s, k) then 1 else 0;
      if s'.trackers[t].phase.Ended? {
        PoppedThenEnded(s, t, k);
      } else {
        PopHolds(s, t, s', k);
      }
    }
  }

  lemma PayoutConserves(c: Config, s: World, i: nat)
    requires Conserved(s) && i < |s.tasks|
    ensures Conserved(StartPayout(c, s, i))
  {
    hide HeldInM, HeldBy, HeldInTasks, HeldByManager;
    forall k: Caller ensures Held(StartPayout(c, s, i), k) == if Waits(s, k) then 1 else 0 {
      assert Held(s, k) == if Waits(s, k) then 1 else 0;
      HeldRemoved(s.tasks, i, k);
    }
  }

  lemma IdleStepConserves(c: Config, s: World, st: Step)
    requires Conserved(s) && Enabled(c, s, st)
    requires st.ClientCreate? || st.ClientAsk? || st.Cancel? || st.Boot? || st.StateCancel? || st.StateStop?
             || st.StateGivesUp?
    ensures Conserved(Apply(c, s, st))
  {
    hide Conserved, Prepare, ListsPending, EvidenceOf;
    Unmoved(s, Apply(c, s, st));
  }

  /** A tracker that takes no message and does not end keeps its queue, and answers nobody. */
  ghost predicate QueuesKept(s: World, s': World) {
    && |s'.trackers| == |s.trackers| && (forall t :: 0 <= t < |s.trackers| ==> s'.trackers[t].queue == s.trackers[t].queue)
    && s'.ctl == s.ctl && s'.restoreWaits == s.restoreWaits
    && s'.managerQ == s.managerQ && s'.mctl == s.mctl && s'.tasks == s.tasks && s'.replies == s.replies
  }

  lemma NotifyMovesNothing(c: Config, s: World, st: Step)
    requires Enabled(c, s, st) && (st.TrackerAnnounce? || st.TrackerReport?)
    ensures QueuesKept(s, Apply(c, s, st))
  {
    if st.TrackerReport? {
      hide Apply, Enabled, QueuesKept;
      ReportMovesNothing(c, s, st.t);
    }
  }

  lemma ReportMovesNothing(c: Config, s: World, t: nat)
    requires Enabled(c, s, TrackerReport(t))
    ensures QueuesKept(s, Apply(c, s, TrackerReport(t)))
  {
  }

  lemma PhaseMovesNothing(c: Config, s: World, st: Step)
    requires Enabled(c, s, st) && (st.TrackerConnect? || st.TrackerTimeout? || st.TrackerVisit? || st.TrackerSettle?)
    ensures QueuesKept(s, Apply(c, s, st))
  {
    hide Prepare, EvidenceOf, Reports, Dropped, VisitAllowed;
  }

  lemma MovesNothing(c: Config, s: World, st: Step)
    requires Enabled(c, s, st)
    requires st.TrackerConnect? || st.TrackerAnnounce? || st.TrackerTimeout?
             || st.TrackerVisit? || st.TrackerReport? || st.TrackerSettle?
    ensures QueuesKept(s, Apply(c, s, st))
  {
    hide Apply, Enabled, QueuesKept;
    if st.TrackerAnnounce? || st.TrackerReport? {
      NotifyMovesNothing(c, s, st);
    } else {
      PhaseMovesNothing(c, s, st);
    }
  }

  lemma ConnectionStepConserves(c: Config, s: World, st: Step)
    requires Conserved(s) && Enabled(c, s, st)
    requires st.TrackerConnect? || st.TrackerAnnounce? || st.TrackerTimeout?
    ensures Conserved(Apply(c, s, st))
  {
    hide Conserved, Prepare, SendsAsState;
    MovesNothing(c, s, st);
    hide Apply, Enabled;
    Unmoved(s, Apply(c, s, st));
  }

  lemma RoundStepConserves(c: Config, s: World, st: Step)
    requires Conserved(s) && Enabled(c, s, st)
    requires st.TrackerVisit? || st.TrackerReport? || st.TrackerSettle?
    ensures Conserved(Apply(c, s, st))
  {
    hide Conserved, SendsAsState;
    MovesNothing(c, s, st);
    hide Apply, Enabled;
    Unmoved(s, Apply(c, s, st));
  }

  lemma StepConserves(c: Config, s: World, st: Step)
    requires Conserved(s) && Enabled(c, s, st)
    ensures Conserved(Apply(c, s, st))
  {
    hide Conserved, Prepare, ListsPending, VisitInvoice, SendReport, SetPhase, TakeStateMsg, TakeManagerMsg, TakeTrackerMsg, StartPayout,
      SubmitRestored, SendToManager, EndTracker, CallersInM;
    match st {
      case Crash => ConservedInit(c, s.d);
      case StateTake(now) => TakeStateMsgConserves(c, s, now);
      case StateSend => SendConserves(s);
      case StateResume => StateResumes(s);
      case RestoreSend => SubmitConserves(c, s);
      case RestoreResume => RestoreResumes(s);
      case ManagerTake => TakeManagerMsgConserves(c, s);
      case ManagerForward => ForwardConserves(s);
      case ManagerDrain(t) =>
        DrainingConserves(s, s.mctl.todo - {t});
        EnqueueConserves(s.(mctl := Draining(s.mctl.todo - {t})), t, TShutdown);
      case ManagerFinish => FinishConserves(s);
      case BlockArrives(t) => EnqueueConserves(s, t, TNewBlock);
      case TrackerQuit(t) => EndTrackerConserves(s, t);
      case TrackerTake(t, outcome) => TakeTrackerMsgConserves(s, t, outcome);
      case PayoutStart(i) => PayoutConserves(c, s, i);
      case TrackerConnect(_, _) => ConnectionStepConserves(c, s, st);
      case TrackerAnnounce(_, _) => ConnectionStepConserves(c, s, st);
      case TrackerVisit(_, _, _, _) => RoundStepConserves(c, s, st);
      case TrackerReport(_) => RoundStepConserves(c, s, st);
      case TrackerSettle(_) => RoundStepConserves(c, s, st);
      case TrackerTimeout(_) => ConnectionStepConserves(c, s, st);
      case _ => IdleStepConserves(c, s, st);
    }
  }

  /**
   * Reply conservation: in every reachable state a waiting State handler or restore task has its
   * reply channel in exactly one queue, actor, payout task or delivered reply, and nobody else has one.
   */
  lemma {:induction false} ReplyConservation(c: Config, s: World, steps: seq<Step>, s': World)
    requires Conserved(s) && Runs(c, s, steps, s')
    ensures Conserved(s')
    decreases |steps|
  {
    if |steps| > 0 {
      StepConserves(c, s, steps[0]);
      ReplyConservation(c, Apply(c, s, steps[0]), steps[1..], s');
    }
  }
}
