// What becomes of a balance found to cover an order: on its way to the State handler, recorded, or
// forgotten; and exactly which steps forget it.
module Notices {
  import opened Definitions
  import opened Ledger
  import opened Chains
  import opened Watching
  import opened Protocol
  import opened Replies
  import opened Safety

  // --- Where a report can be ---

  function ReportsOf(p: Phase): seq<Id> {
    if p.Checking? then p.reports else []
  }

  predicate AtTracker(s: World, t: nat, id: Id) {
    t < |s.trackers| && id in ReportsOf(s.trackers[t].phase)
  }

  ghost predicate ToReport(s: World, id: Id) {
    exists t :: AtTracker(s, t, id)
  }

  predicate InStateQueue(s: World, id: Id) {
    OrderPaid(id) in s.stateQ
  }

  ghost predicate Noticed(s: World, id: Id) {
    ToReport(s, id) || InStateQueue(s, id)
  }

  /** Seen covered, and neither recorded as paid nor about to be. */
  ghost predicate Forgotten(s: World, id: Id) {
    Evidenced(s.d, id) && !PaidIn(s.d.db, id) && !Noticed(s, id)
  }

  /** A visit finds the order's invoice covered. */
  ghost predicate SeesPaid(s: World, st: Step, id: Id) {
    && st.TrackerVisit? && st.id == id && st.t < |s.trackers| && id in s.trackers[st.t].watched
    && Reports(s.trackers[st.t].watched[id], st.v) > 0
  }

  /** The tracker's next report is of this order, and no other is anywhere. */
  ghost predicate OnlyReport(s: World, t: nat, id: Id) {
    && AtTracker(s, t, id) && !InStateQueue(s, id)
    && ReportsOf(s.trackers[t].phase)[0] == id && id !in ReportsOf(s.trackers[t].phase)[1..]
    && forall u :: u != t ==> !AtTracker(s, u, id)
  }

  /** The steps that forget an order not yet paid: a crash, the State handler's end, a report to a handler that has ended. */
  ghost predicate DropsNotice(s: World, st: Step, id: Id) {
    !PaidIn(s.d.db, id) &&
    match st
    case Crash => Noticed(s, id)
    case StateStop => InStateQueue(s, id) && !ToReport(s, id)
    case StateGivesUp => InStateQueue(s, id) && !ToReport(s, id)
    case TrackerReport(t) => s.ctl.Stopped? && OnlyReport(s, t, id)
    case _ => false
  }

  // --- One step ---

  /** Nothing about this order changed. */
  ghost predicate SameNotice(s: World, s': World, id: Id) {
    && (Noticed(s', id) <==> Noticed(s, id))
    && (Evidenced(s'.d, id) <==> Evidenced(s.d, id))
    && (PaidIn(s'.d.db, id) <==> PaidIn(s.d.db, id))
  }

  /** The trackers keep their reports, the State's queue the reports in it. */
  lemma SameReports(s: World, s': World, id: Id)
    requires |s'.trackers| == |s.trackers|
    requires forall t :: 0 <= t < |s.trackers| ==> ReportsOf(s'.trackers[t].phase) == ReportsOf(s.trackers[t].phase)
    requires InStateQueue(s', id) <==> InStateQueue(s, id)
    ensures Noticed(s', id) <==> Noticed(s, id)
  {
    hide ReportsOf;
    forall t: nat ensures AtTracker(s', t, id) <==> AtTracker(s, t, id) {
    }
    hide AtTracker, InStateQueue;
  }

  lemma ConnectionReports(c: Config, s: World, st: Step)
    requires Enabled(c, s, st)
    requires st.BlockArrives? || st.TrackerConnect? || st.TrackerQuit? || st.TrackerTimeout?
    ensures st.t < |s.trackers| && st.t < |Apply(c, s, st).trackers|
    ensures ReportsOf(Apply(c, s, st).trackers[st.t].phase) == ReportsOf(s.trackers[st.t].phase)
    ensures Apply(c, s, st).stateQ == s.stateQ && Apply(c, s, st).d == s.d
  {
    hide Prepare, CallersIn;
  }

  lemma AnnounceReports(c: Config, s: World, st: Step)
    requires Enabled(c, s, st) && st.TrackerAnnounce?
    ensures st.t < |s.trackers| && st.t < |Apply(c, s, st).trackers|
    ensures ReportsOf(Apply(c, s, st).trackers[st.t].phase) == ReportsOf(s.trackers[st.t].phase)
    ensures forall id :: InStateQueue(Apply(c, s, st), id) <==> InStateQueue(s, id)
    ensures Apply(c, s, st).d == s.d
  {
  }

  lemma SettleReports(c: Config, s: World, st: Step)
    requires Enabled(c, s, st) && st.TrackerSettle?
    ensures st.t < |s.trackers| && st.t < |Apply(c, s, st).trackers|
    ensures ReportsOf(Apply(c, s, st).trackers[st.t].phase) == ReportsOf(s.trackers[st.t].phase)
    ensures Apply(c, s, st).stateQ == s.stateQ && Apply(c, s, st).d == s.d
  {
  }

  lemma EndedReports(s: World, t: nat)
    requires t < |s.trackers|
    ensures var s' := EndTracker(s, t);
            |s'.trackers| == |s.trackers| && ReportsOf(s'.trackers[t].phase) == [] && s'.stateQ == s.stateQ && s'.d == s.d
  {
    hide CallersIn;
  }

  lemma TakenReports(s: World, t: nat, outcome: BlockOutcome)
    requires t < |s.trackers| && s.trackers[t].phase.Serving? && |s.trackers[t].queue| > 0
    ensures var s' := TakeTrackerMsg(s, t, outcome);
            && |s'.trackers| == |s.trackers| && s'.stateQ == s.stateQ && s'.d == s.d
            && ReportsOf(s'.trackers[t].phase) == [] == ReportsOf(s.trackers[t].phase)
  {
    hide EndTracker;
    var x := s.trackers[t];
    EndedReports(s.(trackers := s.trackers[t := x.(queue := x.queue[1..])]), t);
  }

  lemma TakeReports(c: Config, s: World, st: Step)
    requires Enabled(c, s, st) && st.TrackerTake?
    ensures st.t < |s.trackers| && st.t < |Apply(c, s, st).trackers|
    ensures ReportsOf(Apply(c, s, st).trackers[st.t].phase) == ReportsOf(s.trackers[st.t].phase)
    ensures Apply(c, s, st).stateQ == s.stateQ && Apply(c, s, st).d == s.d
  {
    hide TakeTrackerMsg;
    TakenReports(s, st.t, st.outcome);
  }

  lemma TrackerStepSame(c: Config, s: World, st: Step, id: Id)
    requires Enabled(c, s, st) && OfTrackers(st) && !st.TrackerVisit? && !st.TrackerReport?
    ensures SameNotice(s, Apply(c, s, st), id)
  {
    hide Apply, Enabled, Noticed, ReportsOf;
    TrackerFrame(c, s, st);
    if st.TrackerTake? {
      TakeReports(c, s, st);
    } else if st.TrackerAnnounce? {
      AnnounceReports(c, s, st);
    } else if st.TrackerSettle? {
      SettleReports(c, s, st);
    } else {
      ConnectionReports(c, s, st);
    }
    SameReports(s, Apply(c, s, st), id);
  }

  lemma OthersSame(c: Config, s: World, st: Step, id: Id)
    requires Enabled(c, s, st) && (OfManager(st) || st.PayoutStart?)
    ensures SameNotice(s, Apply(c, s, st), id)
  {
    hide Apply, Enabled, Noticed, ReportsOf;
    if OfManager(st) {
      ManagerFrame(c, s, st);
    } else {
      PayoutFrame(c, s, st);
    }
    SameReports(s, Apply(c, s, st), id);
  }

  lemma StateQueueSame(c: Config, s: World, st: Step, id: Id)
    requires Enabled(c, s, st) && OfState(st) && !st.StateStop? && !st.StateGivesUp?
    ensures InStateQueue(Apply(c, s, st), id) <==> InStateQueue(s, id)
  {
    hide WatchOf, ListsPending;
  }

  lemma StateStepSame(c: Config, s: World, st: Step, id: Id)
    requires Enabled(c, s, st) && OfState(st) && !st.StateStop? && !st.StateGivesUp?
    ensures SameNotice(s, Apply(c, s, st), id)
  {
    hide Apply, Enabled, Noticed, ReportsOf;
    StateFrame(c, s, st);
    StateQueueSame(c, s, st, id);
    SameReports(s, Apply(c, s, st), id);
  }

  // --- The steps that matter ---

  lemma QueueEmptied(c: Config, s: World, st: Step, id: Id)
    requires Enabled(c, s, st) && (st.StateStop? || st.StateGivesUp?)
    ensures var s' := Apply(c, s, st);
            && s'.d == s.d && !InStateQueue(s', id) && (ToReport(s', id) <==> ToReport(s, id))
  {
    var s' := Apply(c, s, st);
    assert s'.trackers == s.trackers;
    hide Apply, ReportsOf;
    forall t: nat ensures AtTracker(s', t, id) <==> AtTracker(s, t, id) {
    }
  }

  lemma VisitReports(c: Config, s: World, st: Step)
    requires Enabled(c, s, st) && st.TrackerVisit?
    ensures var s' := Apply(c, s, st);
            && st.t < |s.trackers| && st.id in s.trackers[st.t].watched && |s'.trackers| == |s.trackers|
            && ReportsOf(s.trackers[st.t].phase) == []
            && ReportsOf(s'.trackers[st.t].phase) == Repeat(st.id, Reports(s.trackers[st.t].watched[st.id], st.v))
            && s'.stateQ == s.stateQ && s'.d.db == s.d.db
  {
    hide EvidenceOf, Reports, Dropped, VisitAllowed, Repeat;
  }

  /** A covering balance leads to a report, nothing else does. */
  lemma VisitNotices(c: Config, s: World, st: Step, id: Id)
    requires Enabled(c, s, st) && st.TrackerVisit?
    ensures Noticed(Apply(c, s, st), id) <==> Noticed(s, id) || SeesPaid(s, st, id)
  {
    hide Apply, Enabled, Reports;
    TrackerFrame(c, s, st);
    VisitReports(c, s, st);
    var s' := Apply(c, s, st);
    if SeesPaid(s, st, id) {
      assert Repeat(id, Reports(s.trackers[st.t].watched[id], st.v))[0] == id;
      assert AtTracker(s', st.t, id);
    } else {
      NoNewReports(s, s', st, id);
      hide Repeat;
      SameMembers(s, s', id);
    }
  }

  lemma NoNewReports(s: World, s': World, st: Step, id: Id)
    requires st.TrackerVisit? && st.t < |s.trackers| && st.id in s.trackers[st.t].watched && OnlyTracker(s, s', st.t)
    requires ReportsOf(s.trackers[st.t].phase) == [] && !SeesPaid(s, st, id)
    requires ReportsOf(s'.trackers[st.t].phase) == Repeat(st.id, Reports(s.trackers[st.t].watched[st.id], st.v))
    ensures forall t: nat :: AtTracker(s', t, id) <==> AtTracker(s, t, id)
  {
    hide Reports, ReportsOf;
    forall t: nat ensures AtTracker(s', t, id) <==> AtTracker(s, t, id) {
    }
  }

  lemma SameMembers(s: World, s': World, id: Id)
    requires forall t: nat :: AtTracker(s', t, id) <==> AtTracker(s, t, id)
    requires InStateQueue(s', id) <==> InStateQueue(s, id)
    ensures Noticed(s', id) <==> Noticed(s, id)
  {
    hide AtTracker, InStateQueue;
  }

  lemma VisitAddsEvidence(c: Config, s: World, st: Step)
    requires Enabled(c, s, st) && st.TrackerVisit?
    ensures st.t < |s.trackers| && st.id in s.trackers[st.t].watched && s.trackers[st.t].phase.Checking?
    ensures var p, i := s.trackers[st.t].phase, s.trackers[st.t].watched[st.id];
            && Answered(c.block(st.t, p.at), p.assets, i, st.v)
            && Apply(c, s, st).d.evidence == s.d.evidence + EvidenceOf(st.t, p.at, AssetOf(p.assets, i.currency), i, st.v)
  {
    hide EvidenceOf, Reports, Dropped, Fetched;
  }

  lemma VisitEvidences(c: Config, s: World, st: Step, id: Id)
    requires Inv(c, s) && Enabled(c, s, st) && st.TrackerVisit?
    ensures Evidenced(Apply(c, s, st).d, id) <==> Evidenced(s.d, id) || SeesPaid(s, st, id)
  {
    assert Sound(c, s);
    hide Inv, Sound, Genuine, Apply, Enabled, EvidenceOf, Reports, Observed, Answered;
    VisitAddsEvidence(c, s, st);
    WatchedGenuine(c, s, st.t, st.id);
    var p := s.trackers[st.t].phase;
    var i := s.trackers[st.t].watched[st.id];
    NewEvidence(c, st.t, p.at, p.assets, i, st.v);
    ReportsIfEvidence(st.t, p.at, AssetOf(p.assets, i.currency), i, st.v);
  }

  lemma ReportsIfEvidence(t: nat, at: nat, asset: Option<u32>, i: Invoice, v: Visit)
    ensures EvidenceOf(t, at, asset, i, v) != {} ==> Reports(i, v) > 0
  {
  }

  lemma VisitLaw(c: Config, s: World, st: Step, id: Id)
    requires Inv(c, s) && Enabled(c, s, st) && st.TrackerVisit?
    ensures Forgotten(Apply(c, s, st), id) <==> Forgotten(s, id) && !SeesPaid(s, st, id)
  {
    hide Inv, Noticed, SeesPaid, Evidenced;
    VisitNotices(c, s, st, id);
    VisitEvidences(c, s, st, id);
    TrackerFrame(c, s, st);
    hide Apply, Enabled;
  }

  lemma ReportMoves(c: Config, s: World, t: nat)
    requires Enabled(c, s, TrackerReport(t))
    ensures var s' := Apply(c, s, TrackerReport(t));
            && t < |s.trackers| && |s'.trackers| == |s.trackers| && s'.d == s.d
            && |ReportsOf(s.trackers[t].phase)| > 0
            && ReportsOf(s'.trackers[t].phase) == ReportsOf(s.trackers[t].phase)[1..]
            && s'.stateQ == if s.ctl.Stopped? then s.stateQ else s.stateQ + [OrderPaid(ReportsOf(s.trackers[t].phase)[0])]
  {
  }

  lemma MembersOf(q: seq<Id>, id: Id)
    requires |q| > 0
    ensures id in q <==> id == q[0] || id in q[1..]
  {
  }

  /** A report moves from the tracker to the State's queue; it is gone if nobody reads that any more. */
  lemma ReportNotices(c: Config, s: World, t: nat, id: Id)
    requires Enabled(c, s, TrackerReport(t))
    ensures Noticed(Apply(c, s, TrackerReport(t)), id) <==> Noticed(s, id) && !(s.ctl.Stopped? && OnlyReport(s, t, id))
  {
    hide Apply, Enabled, Noticed, OnlyReport;
    TrackerFrame(c, s, TrackerReport(t));
    ReportMoves(c, s, t);
    var s' := Apply(c, s, TrackerReport(t));
    var q := ReportsOf(s.trackers[t].phase);
    MembersOf(q, id);
    OtherTrackers(s, s', t, id);
    hide OnlyTracker;
    if q[0] != id {
      OtherReport(s, s', t, id);
    } else if s.ctl.Stopped? {
      LastReport(s, s', t, id);
    } else {
      assert s'.stateQ[|s.stateQ|] == OrderPaid(id);
      InQueueNoticed(s', id);
      AtTrackerNoticed(s, t, id);
    }
  }

  lemma InQueueNoticed(s: World, id: Id)
    requires InStateQueue(s, id)
    ensures Noticed(s, id)
  {
  }

  lemma AtTrackerNoticed(s: World, t: nat, id: Id)
    requires AtTracker(s, t, id)
    ensures Noticed(s, id)
  {
    hide AtTracker;
  }

  lemma OtherReport(s: World, s': World, t: nat, id: Id)
    requires forall u: nat :: u != t ==> (AtTracker(s', u, id) <==> AtTracker(s, u, id))
    requires AtTracker(s', t, id) <==> AtTracker(s, t, id)
    requires t < |s.trackers| && |ReportsOf(s.trackers[t].phase)| > 0 && ReportsOf(s.trackers[t].phase)[0] != id
    requires s'.stateQ == s.stateQ || s'.stateQ == s.stateQ + [OrderPaid(ReportsOf(s.trackers[t].phase)[0])]
    ensures Noticed(s', id) <==> Noticed(s, id)
    ensures !OnlyReport(s, t, id)
  {
    assert InStateQueue(s', id) <==> InStateQueue(s, id);
    hide ReportsOf, AtTracker;
    SameMembers(s, s', id);
  }

  /** Of a report that is discarded, another copy may be left. */
  lemma LastReport(s: World, s': World, t: nat, id: Id)
    requires t < |s.trackers| == |s'.trackers| && s'.stateQ == s.stateQ
    requires |ReportsOf(s.trackers[t].phase)| > 0 && ReportsOf(s.trackers[t].phase)[0] == id
    requires ReportsOf(s'.trackers[t].phase) == ReportsOf(s.trackers[t].phase)[1..]
    requires forall u: nat :: u != t ==> (AtTracker(s', u, id) <==> AtTracker(s, u, id))
    ensures Noticed(s, id) && (Noticed(s', id) <==> !OnlyReport(s, t, id))
  {
    assert AtTracker(s, t, id);
    assert AtTracker(s', t, id) <==> id in ReportsOf(s.trackers[t].phase)[1..];
    hide ReportsOf, AtTracker;
    if !OnlyReport(s, t, id) && !InStateQueue(s, id) && !AtTracker(s', t, id) {
      var u: nat :| u != t && AtTracker(s, u, id);
      assert AtTracker(s', u, id);
    }
  }

  lemma OtherTrackers(s: World, s': World, t: nat, id: Id)
    requires OnlyTracker(s, s', t)
    ensures forall u: nat :: u != t ==> (AtTracker(s', u, id) <==> AtTracker(s, u, id))
  {
    hide ReportsOf;
  }

  lemma ReportLaw(c: Config, s: World, t: nat, id: Id)
    requires Inv(c, s) && Enabled(c, s, TrackerReport(t))
    ensures Forgotten(Apply(c, s, TrackerReport(t)), id)
       <==> Forgotten(s, id) || DropsNotice(s, TrackerReport(t), id)
  {
    hide Inv, Evidenced;
    if Noticed(s, id) {
      NoticedIsEvidenced(c, s, id);
    }
    if OnlyReport(s, t, id) {
      assert ToReport(s, id);
    }
    hide Noticed, OnlyReport;
    ReportNotices(c, s, t, id);
    ReportMoves(c, s, t);
    hide Apply, Enabled;
  }

  /** Nothing is reported without evidence. */
  lemma NoticedIsEvidenced(c: Config, s: World, id: Id)
    requires Inv(c, s) && Noticed(s, id)
    ensures Evidenced(s.d, id)
  {
    hide Conserved, DurableOk, CtlOk, Evidenced, RestoreOk, ManagerMsgOk, TrackerMsgOk, WatchedOk;
    if t: nat :| AtTracker(s, t, id) {
      assert TrackerOk(c, s.d, s.trackers[t]);
      assert PhaseOk(s.d, s.trackers[t].phase);
    } else {
      assert StateQOk(s.d, s.stateQ);
      assert OrderPaid(id) in s.stateQ;
    }
  }

  lemma TakenIsKey(c: Config, s: World, id: Id)
    requires Inv(c, s) && |s.stateQ| > 0 && s.stateQ[0] == OrderPaid(id)
    ensures id in s.d.db
  {
    assert s.stateQ[0] in s.stateQ;
    assert InStateQueue(s, id);
    NoticedIsEvidenced(c, s, id);
    hide Conserved, PayoutsOk, CtlOk, VolatileOk, VersionsOk, EvidenceOk, Evidenced;
    EvidencedIsKey(c, s.d, id);
  }

  /** Every report the State handler takes leaves its order recorded as paid. */
  lemma TakenIsRecorded(c: Config, s: World, now: u64, id: Id)
    requires Inv(c, s) && Enabled(c, s, StateTake(now))
    ensures PaidIn(Apply(c, s, StateTake(now)).d.db, id) <==> PaidIn(s.d.db, id) || s.stateQ[0] == OrderPaid(id)
  {
    hide Inv, TakePaid, TakeCreate, PaidIn;
    if s.stateQ[0] == OrderPaid(id) {
      TakenIsKey(c, s, id);
    }
    match s.stateQ[0] {
      case OrderPaid(other) => RecordsPaid(c, s.(stateQ := s.stateQ[1..]), other, id);
      case CreateInvoice(q) => RecordsCreated(c, s.(stateQ := s.stateQ[1..]), q, now, id);
      case ConnectChain(_) =>
      case Inquiry =>
    }
  }

  lemma RecordsPaid(c: Config, s: World, other: Id, id: Id)
    requires other == id ==> id in s.d.db
    ensures PaidIn(TakePaid(c, s, other).d.db, id) <==> PaidIn(s.d.db, id) || other == id
  {
    hide WatchOf, ValidUtf8;
  }

  lemma RecordsCreated(c: Config, s: World, q: OrderQuery, now: u64, id: Id)
    ensures PaidIn(TakeCreate(c, s, q, now).d.db, id) <==> PaidIn(s.d.db, id)
  {
    hide WatchOf, DeathAt, ValidUtf8;
  }

  lemma TakeLaw(c: Config, s: World, now: u64, id: Id)
    requires Inv(c, s) && Enabled(c, s, StateTake(now))
    ensures Forgotten(Apply(c, s, StateTake(now)), id) <==> Forgotten(s, id)
  {
    hide Inv;
    TakenIsRecorded(c, s, now, id);
    TakeStateMsgFrame(c, s, now);
    hide TakeStateMsg, PaidIn, ReportsOf;
    var s' := Apply(c, s, StateTake(now));
    assert s.stateQ == [s.stateQ[0]] + s.stateQ[1..];
    if s.stateQ[0] == OrderPaid(id) {
      assert InStateQueue(s, id);
    } else {
      SameReports(s, s', id);
    }
    hide Noticed, ToReport, InStateQueue;
  }

  lemma CrashLaw(c: Config, s: World, id: Id)
    requires Inv(c, s)
    ensures Forgotten(Apply(c, s, Crash), id) <==> Forgotten(s, id) || DropsNotice(s, Crash, id)
  {
    if Noticed(s, id) {
      NoticedIsEvidenced(c, s, id);
    }
    hide Inv, Evidenced;
    assert !Noticed(Started(c, s.d), id);
    hide Noticed;
  }

  lemma StopLaw(c: Config, s: World, st: Step, id: Id)
    requires Inv(c, s) && Enabled(c, s, st) && (st.StateStop? || st.StateGivesUp?)
    ensures Forgotten(Apply(c, s, st), id) <==> Forgotten(s, id) || DropsNotice(s, st, id)
  {
    if Noticed(s, id) {
      NoticedIsEvidenced(c, s, id);
    }
    hide Inv, Evidenced, ToReport, InStateQueue, Apply, Enabled;
    QueueEmptied(c, s, st, id);
  }

  lemma SameLaw(c: Config, s: World, st: Step, id: Id)
    requires Enabled(c, s, st) && !st.TrackerVisit? && !st.TrackerReport? && !st.StateTake? && !st.Crash?
    requires !st.StateStop? && !st.StateGivesUp?
    ensures Forgotten(Apply(c, s, st), id) <==> Forgotten(s, id)
  {
    hide Apply, Enabled, Noticed, Evidenced;
    if OfTrackers(st) {
      TrackerStepSame(c, s, st, id);
    } else if OfState(st) {
      StateStepSame(c, s, st, id);
    } else {
      OthersSame(c, s, st, id);
    }
  }

  /**
   * The exact law of one step: an order seen covered and not paid is forgotten exactly if it was and
   * no visit sees it covered again, or if the step drops the last report of it.
   */
  lemma ForgetsIff(c: Config, s: World, st: Step, id: Id)
    requires Inv(c, s) && Enabled(c, s, st)
    ensures Forgotten(Apply(c, s, st), id)
       <==> (Forgotten(s, id) && !SeesPaid(s, st, id)) || DropsNotice(s, st, id)
  {
    hide Inv, Apply, Enabled, Forgotten;
    if st.TrackerVisit? {
      VisitLaw(c, s, st, id);
    } else if st.TrackerReport? {
      ReportLaw(c, s, st.t, id);
    } else if st.StateTake? {
      TakeLaw(c, s, st.now, id);
    } else if st.Crash? {
      CrashLaw(c, s, id);
    } else if st.StateStop? || st.StateGivesUp? {
      StopLaw(c, s, st, id);
    } else {
      SameLaw(c, s, st, id);
    }
  }

  // --- A whole run ---

  ghost predicate SeenOn(c: Config, s: World, steps: seq<Step>, id: Id)
    decreases |steps|
  {
    |steps| > 0 && Enabled(c, s, steps[0])
    && (SeesPaid(s, steps[0], id) || SeenOn(c, Apply(c, s, steps[0]), steps[1..], id))
  }

  /** Some step drops the last report of the order, and no visit after it sees the order covered. */
  ghost predicate ForgottenOn(c: Config, s: World, steps: seq<Step>, id: Id)
    decreases |steps|
  {
    |steps| > 0 && Enabled(c, s, steps[0])
    && var s' := Apply(c, s, steps[0]);
       (DropsNotice(s, steps[0], id) && !SeenOn(c, s', steps[1..], id)) || ForgottenOn(c, s', steps[1..], id)
  }

  lemma {:induction false} ForgottenFrom(c: Config, s: World, steps: seq<Step>, s': World, id: Id)
    requires c.Valid() && Inv(c, s) && Runs(c, s, steps, s')
    ensures Forgotten(s', id) <==> (Forgotten(s, id) && !SeenOn(c, s, steps, id)) || ForgottenOn(c, s, steps, id)
    decreases |steps|
  {
    if |steps| > 0 {
      StepKeepsInv(c, s, steps[0]);
      ForgetsIff(c, s, steps[0], id);
      hide Inv, Apply, Enabled, Forgotten, SeesPaid, DropsNotice;
      ForgottenFrom(c, Apply(c, s, steps[0]), steps[1..], s', id);
    }
  }

  lemma StepKeepsInv(c: Config, s: World, st: Step)
    requires c.Valid() && Inv(c, s) && Enabled(c, s, st)
    ensures Inv(c, Apply(c, s, st))
  {
    ConservedOf(c, s);
    StepSound(c, s, st);
    StepConserves(c, s, st);
    hide Apply, Enabled, Conserved, DurableOk, CtlOk, VolatileOk;
  }

  /**
   * The exact law of reports, over every run from the first start. An order for which a covering
   * balance was ever fetched is recorded as paid, or its report is on its way, or it is forgotten;
   * and it is forgotten exactly if some step dropped the last report of it and it was not seen since.
   */
  lemma ForgottenIff(c: Config, steps: seq<Step>, s: World, id: Id)
    requires c.Valid() && Runs(c, Init(c), steps, s)
    ensures Forgotten(s, id) <==> ForgottenOn(c, Init(c), steps, id)
  {
    InvInit(c);
    assert !Forgotten(Init(c), id);
    hide Inv, Runs, Forgotten;
    ForgottenFrom(c, Init(c), steps, s, id);
  }
}
