// What becomes of the request to watch an order: where it can be, that it is in one place at most, and
// exactly which steps drop it and leave a pending order unwatched until the next start.
module Watches {
  import opened Definitions
  import opened Ledger
  import opened Chains
  import opened Watching
  import opened Protocol
  import opened Replies
  import opened Safety
  import opened Sightings
  import opened Losses
  import Intake

  // --- Where the request can be ---

  function Count<T>(q: seq<T>, p: T -> bool): nat {
    if |q| == 0 then 0 else (if p(q[0]) then 1 else 0) + Count(q[1..], p)
  }

  lemma {:induction false} CountAppended<T>(q: seq<T>, x: T, p: T -> bool)
    ensures Count(q + [x], p) == Count(q, p) + if p(x) then 1 else 0
  {
    if |q| > 0 {
      CountAppended(q[1..], x, p);
      assert (q + [x])[1..] == q[1..] + [x];
    } else {
      assert (q + [x])[1..] == [];
    }
  }

  lemma {:induction false} CountedIsThere<T>(q: seq<T>, p: T -> bool)
    ensures Count(q, p) > 0 <==> exists x :: x in q && p(x)
  {
    if |q| > 0 {
      CountedIsThere(q[1..], p);
      if x :| x in q && p(x) {
        assert x == q[0] || x in q[1..];
      }
    }
  }

  predicate AsksToWatch(m: ManagerMsg, id: Id) {
    m.MWatch? && m.w.id == id
  }

  predicate TellsToWatch(m: TrackerMsg, id: Id) {
    m.TWatch? && m.w.id == id
  }

  function AsksFor(id: Id): ManagerMsg -> bool {
    m => AsksToWatch(m, id)
  }

  function TellsFor(id: Id): TrackerMsg -> bool {
    m => TellsToWatch(m, id)
  }

  function RowOf(id: Id): ((Id, OrderInfo)) -> bool {
    (row: (Id, OrderInfo)) => row.0 == id
  }

  function AtHandler(ctl: StateCtl, id: Id): nat {
    if ctl.Sending? && AsksToWatch(ctl.m, id) then 1 else 0
  }

  function AtForwarder(mctl: ManagerCtl, id: Id): nat {
    if mctl.Forwarding? && TellsToWatch(mctl.m, id) then 1 else 0
  }

  /** With a tracker: still queued, or in the watch map of one that has not ended. */
  function AtTracker(x: TrackerState, id: Id): nat {
    Count(x.queue, TellsFor(id)) + if !x.phase.Ended? && id in x.watched then 1 else 0
  }

  function AtTrackers(xs: seq<TrackerState>, id: Id): nat {
    if |xs| == 0 then 0 else AtTrackers(xs[..|xs| - 1], id) + AtTracker(xs[|xs| - 1], id)
  }

  /** In how many places the order's watch request is. */
  function Places(s: World, id: Id): nat {
    AtHandler(s.ctl, id) + Count(s.restore, RowOf(id)) + Count(s.managerQ, AsksFor(id)) + AtForwarder(s.mctl, id)
    + AtTrackers(s.trackers, id)
  }

  lemma {:induction false} OneTrackerChanges(xs: seq<TrackerState>, t: nat, x: TrackerState, id: Id)
    requires t < |xs|
    ensures AtTrackers(xs[t := x], id) + AtTracker(xs[t], id) == AtTrackers(xs, id) + AtTracker(x, id)
  {
    hide AtTracker;
    var n := |xs| - 1;
    if t < n {
      OneTrackerChanges(xs[..n], t, x, id);
      assert xs[t := x][..n] == xs[..n][t := x];
    } else {
      assert xs[t := x][..n] == xs[..n];
    }
  }

  lemma {:induction false} AtOneOfThem(xs: seq<TrackerState>, t: nat, id: Id)
    requires t < |xs|
    ensures AtTracker(xs[t], id) <= AtTrackers(xs, id)
  {
    hide AtTracker;
    if t < |xs| - 1 {
      AtOneOfThem(xs[..|xs| - 1], t, id);
    }
  }

  lemma {:induction false} AtSomeTracker(xs: seq<TrackerState>, id: Id)
    requires AtTrackers(xs, id) > 0
    ensures exists t :: 0 <= t < |xs| && AtTracker(xs[t], id) > 0
  {
    hide AtTracker;
    if AtTracker(xs[|xs| - 1], id) == 0 {
      AtSomeTracker(xs[..|xs| - 1], id);
    }
  }

  lemma {:induction false} AtNone(xs: seq<TrackerState>, id: Id)
    requires forall t :: 0 <= t < |xs| ==> AtTracker(xs[t], id) == 0
    ensures AtTrackers(xs, id) == 0
  {
    hide AtTracker;
    if |xs| > 0 {
      AtNone(xs[..|xs| - 1], id);
    }
  }

  lemma NowhereAtStart(c: Config, d: Durable, id: Id)
    ensures Places(Started(c, d), id) == 0
  {
    AtNone(FreshTrackers(|c.chains|), id);
  }

  // --- One step conserves the requests ---

  /** How many places of the order's request the step clears without putting the request elsewhere. */
  ghost function Lapses(c: Config, s: World, st: Step, id: Id): nat
    requires Enabled(c, s, st)
  {
    match st
    case Crash => Places(s, id)
    case Boot(_) => Count(s.restore, RowOf(id))
    case StateSend => if s.mctl.Gone? then AtHandler(s.ctl, id) else 0
    case RestoreSend =>
      if s.restore[0].0 == id && (s.mctl.Gone? || c.fromBase58(s.restore[0].1.paymentAccount).None?) then 1 else 0
    case ManagerTake =>
      if AsksToWatch(s.managerQ[0], id) && Route(c.chains, s.managerQ[0].w.currency).None? then 1 else 0
    case ManagerForward => if s.trackers[s.mctl.t].phase.Ended? then AtForwarder(s.mctl, id) else 0
    case ManagerFinish => Count(s.managerQ, AsksFor(id))
    case TrackerQuit(t) => AtTracker(s.trackers[t], id)
    case TrackerTake(t, outcome) =>
      var x := s.trackers[t];
      if EndsTracker(x.queue[0], outcome) then AtTracker(x, id)
      else if TellsToWatch(x.queue[0], id) && id in x.watched then 1
      else 0
    case TrackerSettle(t) => if id in s.trackers[t].watched && id in s.trackers[t].phase.removals then 1 else 0
    case _ => 0
  }

  /** How many places it comes to be in for the first time in this life of the daemon. */
  ghost function Arises(c: Config, s: World, st: Step, id: Id): nat
    requires Enabled(c, s, st)
  {
    match st
    case Boot(list) => Count(list, RowOf(id))
    case StateTake(_) => AtHandler(Apply(c, s, st).ctl, id)
    case _ => 0
  }

  ghost predicate Accounts(c: Config, s: World, st: Step, id: Id)
    requires Enabled(c, s, st)
  {
    Places(Apply(c, s, st), id) + Lapses(c, s, st, id) == Places(s, id) + Arises(c, s, st, id)
  }

  lemma QuietTracker(c: Config, s: World, st: Step, id: Id)
    requires Enabled(c, s, st) && (st.BlockArrives? || st.TrackerConnect? || st.TrackerTimeout?)
    ensures st.t < |s.trackers| && st.t < |Apply(c, s, st).trackers|
    ensures AtTracker(Apply(c, s, st).trackers[st.t], id) == AtTracker(s.trackers[st.t], id)
  {
    CountAppended(s.trackers[st.t].queue, TNewBlock, TellsFor(id));
    hide Prepare, Count;
  }

  lemma NotifyingKeeps(c: Config, s: World, st: Step)
    requires Enabled(c, s, st) && (st.TrackerAnnounce? || st.TrackerReport?)
    ensures st.t < |s.trackers| && st.t < |Apply(c, s, st).trackers|
    ensures var x, x' := s.trackers[st.t], Apply(c, s, st).trackers[st.t];
            x' == x.(phase := x'.phase) && !x.phase.Ended? && !x'.phase.Ended?
  {
  }

  lemma NotifyingTracker(c: Config, s: World, st: Step, id: Id)
    requires Enabled(c, s, st) && (st.TrackerAnnounce? || st.TrackerReport?)
    ensures st.t < |s.trackers| && st.t < |Apply(c, s, st).trackers|
    ensures AtTracker(Apply(c, s, st).trackers[st.t], id) == AtTracker(s.trackers[st.t], id)
  {
    NotifyingKeeps(c, s, st);
    hide Apply, Enabled, Count, TellsFor;
  }

  lemma VisitingTracker(c: Config, s: World, st: Step, id: Id)
    requires Enabled(c, s, st) && st.TrackerVisit?
    ensures st.t < |s.trackers| && st.t < |Apply(c, s, st).trackers|
    ensures AtTracker(Apply(c, s, st).trackers[st.t], id) == AtTracker(s.trackers[st.t], id)
  {
    hide Count, TellsFor, EvidenceOf, Reports, Dropped, VisitAllowed, Repeat;
  }

  lemma SettlingTracker(c: Config, s: World, t: nat, id: Id)
    requires Enabled(c, s, TrackerSettle(t))
    ensures t < |s.trackers| && t < |Apply(c, s, TrackerSettle(t)).trackers|
    ensures AtTracker(Apply(c, s, TrackerSettle(t)).trackers[t], id) + Lapses(c, s, TrackerSettle(t), id)
         == AtTracker(s.trackers[t], id)
  {
    hide Count, TellsFor;
  }

  lemma QuittingTracker(c: Config, s: World, t: nat, id: Id)
    requires Enabled(c, s, TrackerQuit(t))
    ensures t < |s.trackers| && t < |Apply(c, s, TrackerQuit(t)).trackers|
    ensures AtTracker(Apply(c, s, TrackerQuit(t)).trackers[t], id) == 0
  {
    hide CallersIn, TellsFor;
  }

  lemma TakingChanges(s: World, t: nat, outcome: BlockOutcome)
    requires t < |s.trackers| && s.trackers[t].phase.Serving? && |s.trackers[t].queue| > 0
    ensures t < |TakeTrackerMsg(s, t, outcome).trackers|
    ensures var x, x' := s.trackers[t], TakeTrackerMsg(s, t, outcome).trackers[t];
            if EndsTracker(x.queue[0], outcome) then x' == x.(phase := Ended, queue := [])
            else
              && !x'.phase.Ended? && x'.queue == x.queue[1..]
              && x'.watched == if x.queue[0].TWatch? then x.watched[x.queue[0].w.id := FromRequest(x.queue[0].w)] else x.watched
  {
    hide CallersIn, FromRequest;
    var x := s.trackers[t];
    if EndsTracker(x.queue[0], outcome) {
      EndedIs(s.(trackers := s.trackers[t := x.(queue := x.queue[1..])]), t);
      hide EndTracker;
    } else {
      hide EndTracker;
    }
  }

  lemma EndedIs(s: World, t: nat)
    requires t < |s.trackers|
    ensures |EndTracker(s, t).trackers| == |s.trackers|
    ensures EndTracker(s, t).trackers[t] == s.trackers[t].(phase := Ended, queue := [])
  {
    hide CallersIn;
  }

  lemma TakingTracker(s: World, t: nat, outcome: BlockOutcome, id: Id)
    requires t < |s.trackers| && s.trackers[t].phase.Serving? && |s.trackers[t].queue| > 0
    ensures t < |TakeTrackerMsg(s, t, outcome).trackers|
    ensures var x, x' := s.trackers[t], TakeTrackerMsg(s, t, outcome).trackers[t];
            if EndsTracker(x.queue[0], outcome) then AtTracker(x', id) == 0
            else if TellsToWatch(x.queue[0], id) && id in x.watched then AtTracker(x', id) + 1 == AtTracker(x, id)
            else AtTracker(x', id) == AtTracker(x, id)
  {
    TakingChanges(s, t, outcome);
    var q := s.trackers[t].queue;
    assert Count(q, TellsFor(id)) == (if TellsToWatch(q[0], id) then 1 else 0) + Count(q[1..], TellsFor(id));
    assert Count([], TellsFor(id)) == 0;
    hide TakeTrackerMsg, EndsTracker, FromRequest, Count, TellsFor;
  }

  lemma OwnAccounts(c: Config, s: World, st: Step, id: Id)
    requires Enabled(c, s, st) && OfTrackers(st)
    ensures st.t < |s.trackers| && st.t < |Apply(c, s, st).trackers|
    ensures AtTracker(Apply(c, s, st).trackers[st.t], id) + Lapses(c, s, st, id) == AtTracker(s.trackers[st.t], id)
  {
    hide AtTracker, Places, Count;
    if st.TrackerTake? {
      hide TakeTrackerMsg, EndsTracker;
      TakingTracker(s, st.t, st.outcome, id);
    } else if st.TrackerSettle? {
      SettlingTracker(c, s, st.t, id);
    } else if st.TrackerQuit? {
      QuittingTracker(c, s, st.t, id);
    } else {
      hide Apply, Enabled;
      if st.TrackerVisit? {
        VisitingTracker(c, s, st, id);
      } else if st.TrackerAnnounce? || st.TrackerReport? {
        NotifyingTracker(c, s, st, id);
      } else {
        QuietTracker(c, s, st, id);
      }
    }
  }

  lemma OnePlaceChanges(s: World, s': World, t: nat, id: Id)
    requires OnlyTracker(s, s', t)
    ensures Places(s', id) + AtTracker(s.trackers[t], id) == Places(s, id) + AtTracker(s'.trackers[t], id)
  {
    OneTrackerChanges(s.trackers, t, s'.trackers[t], id);
    hide AtTrackers, AtTracker, Count, AsksFor, RowOf;
  }

  lemma TrackerAccounts(c: Config, s: World, st: Step, id: Id)
    requires Enabled(c, s, st) && OfTrackers(st)
    ensures Accounts(c, s, st, id)
  {
    hide Apply, Enabled, AtTracker, Lapses, Places, OnlyTracker;
    TrackerFrame(c, s, st);
    OwnAccounts(c, s, st, id);
    OnePlaceChanges(s, Apply(c, s, st), st.t, id);
  }

  lemma ManagerTakes(c: Config, s: World, id: Id)
    requires Enabled(c, s, ManagerTake)
    ensures var s' := Apply(c, s, ManagerTake);
            && s' == s.(managerQ := s.managerQ[1..], mctl := s'.mctl, replies := s'.replies)
            && AtForwarder(s.mctl, id) == 0
            && AtForwarder(s'.mctl, id) + Lapses(c, s, ManagerTake, id) == if AsksToWatch(s.managerQ[0], id) then 1 else 0
  {
    assert s.mctl.Ready? && |s.managerQ| > 0;
    TakenBy(c, s, id);
    hide TakeManagerMsg, Route;
  }

  lemma TakenBy(c: Config, s: World, id: Id)
    requires |s.managerQ| > 0 && s.mctl.Ready?
    ensures var s', m := TakeManagerMsg(c, s), s.managerQ[0];
            && s' == s.(managerQ := s.managerQ[1..], mctl := s'.mctl, replies := s'.replies)
            && AtForwarder(s'.mctl, id) == if AsksToWatch(m, id) && Route(c.chains, m.w.currency).Some? then 1 else 0
  {
    hide Route, Drained;
  }

  lemma TakingManager(c: Config, s: World, id: Id)
    requires Enabled(c, s, ManagerTake)
    ensures Accounts(c, s, ManagerTake, id)
  {
    ManagerTakes(c, s, id);
    var q := s.managerQ;
    assert |q| > 0 && Arises(c, s, ManagerTake, id) == 0;
    assert Count(q, AsksFor(id)) == (if AsksToWatch(q[0], id) then 1 else 0) + Count(q[1..], AsksFor(id));
    hide Apply, Enabled, AtTrackers, Count, AsksFor, RowOf, Lapses, Arises, AtForwarder;
  }

  lemma EnqueuedAt(s: World, t: nat, m: TrackerMsg, id: Id)
    requires t < |s.trackers|
    ensures AtTrackers(Enqueue(s, t, m).trackers, id) == AtTrackers(s.trackers, id) + if TellsToWatch(m, id) then 1 else 0
  {
    var x := s.trackers[t];
    OneTrackerChanges(s.trackers, t, x.(queue := x.queue + [m]), id);
    CountAppended(x.queue, m, TellsFor(id));
    hide AtTrackers, Count;
  }

  lemma ManagerForwards(c: Config, s: World)
    requires Enabled(c, s, ManagerForward)
    ensures var s', t := Apply(c, s, ManagerForward), s.mctl.t;
            && t < |s.trackers|
            && s' == s.(mctl := Ready, trackers := s'.trackers, replies := s'.replies)
            && s'.trackers == if s.trackers[t].phase.Ended? then s.trackers else Enqueue(s, t, s.mctl.m).trackers
  {
    hide CallerOf;
  }

  lemma ForwardingManager(c: Config, s: World, id: Id)
    requires Enabled(c, s, ManagerForward)
    ensures Accounts(c, s, ManagerForward, id)
  {
    ManagerForwards(c, s);
    EnqueuedAt(s, s.mctl.t, s.mctl.m, id);
    assert Arises(c, s, ManagerForward, id) == 0;
    assert Lapses(c, s, ManagerForward, id) == if s.trackers[s.mctl.t].phase.Ended? then AtForwarder(s.mctl, id) else 0;
    hide Apply, Enabled, Lapses, Arises, AtTrackers, Count, AsksFor, RowOf, Enqueue;
  }

  lemma ManagerDrains(c: Config, s: World, t: nat)
    requires Enabled(c, s, ManagerDrain(t))
    ensures var s' := Apply(c, s, ManagerDrain(t));
            && t < |s.trackers| && s.mctl.Draining? && s'.mctl.Draining?
            && s' == s.(mctl := s'.mctl, trackers := s'.trackers)
            && s'.trackers == if s.trackers[t].phase.Ended? then s.trackers else Enqueue(s, t, TShutdown).trackers
  {
  }

  lemma DrainingManager(c: Config, s: World, t: nat, id: Id)
    requires Enabled(c, s, ManagerDrain(t))
    ensures Accounts(c, s, ManagerDrain(t), id)
  {
    ManagerDrains(c, s, t);
    EnqueuedAt(s, t, TShutdown, id);
    assert Arises(c, s, ManagerDrain(t), id) == 0 && Lapses(c, s, ManagerDrain(t), id) == 0;
    hide Apply, Enabled, Lapses, Arises, AtTrackers, Count, AsksFor, RowOf, Enqueue;
  }

  lemma FinishingManager(c: Config, s: World, id: Id)
    requires Enabled(c, s, ManagerFinish)
    ensures Accounts(c, s, ManagerFinish, id)
  {
    assert Count([], AsksFor(id)) == 0;
    hide AtTrackers, Count, AsksFor, RowOf, CallersInM;
  }

  lemma HandlerSends(c: Config, s: World, id: Id)
    requires Enabled(c, s, StateSend)
    ensures var s' := Apply(c, s, StateSend);
            && s' == s.(managerQ := s'.managerQ, ctl := s'.ctl, d := s'.d)
            && s'.managerQ == (if s.mctl.Gone? then s.managerQ else s.managerQ + [s.ctl.m])
            && AtHandler(s'.ctl, id) == 0
            && (s.mctl.Gone? ==> Lapses(c, s, StateSend, id) == AtHandler(s.ctl, id))
            && (!s.mctl.Gone? ==> Lapses(c, s, StateSend, id) == 0)
  {
  }

  lemma SendingHandler(c: Config, s: World, id: Id)
    requires Enabled(c, s, StateSend)
    ensures Accounts(c, s, StateSend, id)
  {
    HandlerSends(c, s, id);
    assert s.ctl.Sending? && Arises(c, s, StateSend, id) == 0;
    CountAppended(s.managerQ, s.ctl.m, AsksFor(id));
    assert AsksFor(id)(s.ctl.m) == AsksToWatch(s.ctl.m, id);
    hide Apply, Enabled, AtTrackers, Count, AsksFor, RowOf, Lapses, Arises;
  }

  lemma RestoreSubmits(c: Config, s: World)
    requires Enabled(c, s, RestoreSend)
    ensures var s' := Apply(c, s, RestoreSend);
            && |s.restore| > 0
            && s' == s.(restore := s.restore[1..], managerQ := s'.managerQ, restoreWaits := s'.restoreWaits, submitted := s'.submitted)
            && var w := WatchOf(c, s.restore[0].0, s.restore[0].1, RestoreTask);
               s'.managerQ == if w.None? || s.mctl.Gone? then s.managerQ else s.managerQ + [MWatch(w.value)]
  {
    hide WatchOf;
  }

  lemma SubmittingRestore(c: Config, s: World, id: Id)
    requires Enabled(c, s, RestoreSend)
    ensures Accounts(c, s, RestoreSend, id)
  {
    RestoreSubmits(c, s);
    var (name, o) := s.restore[0];
    assert Count(s.restore, RowOf(id)) == (if name == id then 1 else 0) + Count(s.restore[1..], RowOf(id));
    Intake.RequestIff(c, name, o, RestoreTask);
    if c.fromBase58(o.paymentAccount).Some? {
      var m := MWatch(WatchOf(c, name, o, RestoreTask).value);
      CountAppended(s.managerQ, m, AsksFor(id));
      assert AsksFor(id)(m) == (name == id);
    }
    assert Arises(c, s, RestoreSend, id) == 0;
    hide Apply, Enabled, Arises, AtTrackers, Count, RowOf, WatchOf, AsksFor;
  }

  lemma RestingState(c: Config, s: World, st: Step, id: Id)
    requires Enabled(c, s, st) && OfState(st) && !st.StateSend? && !st.RestoreSend?
    ensures Accounts(c, s, st, id)
  {
    hide AtTrackers, Count, RowOf, AsksFor, ListsPending;
  }

  lemma TakingHandler(c: Config, s: World, now: u64, id: Id)
    requires Enabled(c, s, StateTake(now))
    ensures Accounts(c, s, StateTake(now), id)
  {
    TakeStateMsgFrame(c, s, now);
    hide TakeStateMsg, AtTrackers, Count, RowOf, AsksFor;
  }

  lemma StartingPayout(c: Config, s: World, st: Step, id: Id)
    requires Enabled(c, s, st) && st.PayoutStart?
    ensures Accounts(c, s, st, id)
  {
    PayoutFrame(c, s, st);
    assert Lapses(c, s, st, id) == 0 && Arises(c, s, st, id) == 0;
    hide Apply, Enabled, AtTrackers, Count, RowOf, AsksFor;
  }

  /** Every step moves a request, leaves it where it is, or is accounted for. */
  lemma StepAccounts(c: Config, s: World, st: Step, id: Id)
    requires Enabled(c, s, st)
    ensures Accounts(c, s, st, id)
  {
    if OfTrackers(st) {
      hide Apply, Enabled, Accounts;
      TrackerAccounts(c, s, st, id);
    } else if OfManager(st) {
      hide Apply, Enabled, Accounts;
      match st {
        case ManagerTake => TakingManager(c, s, id);
        case ManagerForward => ForwardingManager(c, s, id);
        case ManagerDrain(t) => DrainingManager(c, s, t, id);
        case ManagerFinish => FinishingManager(c, s, id);
      }
    } else if st.StateTake? {
      hide Apply, Enabled, Accounts;
      TakingHandler(c, s, st.now, id);
    } else if st.PayoutStart? {
      hide Apply, Enabled, Accounts;
      StartingPayout(c, s, st, id);
    } else if st.Crash? {
      NowhereAtStart(c, s.d, id);
      hide Places;
    } else {
      hide Apply, Enabled, Accounts;
      if st.StateSend? {
        SendingHandler(c, s, id);
      } else if st.RestoreSend? {
        SubmittingRestore(c, s, id);
      } else {
        RestingState(c, s, st, id);
      }
    }
  }

  /** Somewhere on its way to a tracker, or watched by one. */
  ghost predicate CaredFor(s: World, id: Id) {
    || (s.ctl.Sending? && AsksToWatch(s.ctl.m, id))
    || (exists row :: row in s.restore && row.0 == id)
    || (exists m :: m in s.managerQ && AsksToWatch(m, id))
    || (s.mctl.Forwarding? && TellsToWatch(s.mctl.m, id))
    || (exists t :: 0 <= t < |s.trackers| && CaresFor(s.trackers[t], id))
  }

  ghost predicate CaresFor(x: TrackerState, id: Id) {
    (!x.phase.Ended? && id in x.watched) || exists m :: m in x.queue && TellsToWatch(m, id)
  }

  lemma AtTrackerIff(x: TrackerState, id: Id)
    ensures AtTracker(x, id) > 0 <==> CaresFor(x, id)
  {
    CountedIsThere(x.queue, TellsFor(id));
    hide Count;
    assert forall m :: TellsFor(id)(m) == TellsToWatch(m, id);
  }

  lemma AtTrackersIff(xs: seq<TrackerState>, id: Id)
    ensures AtTrackers(xs, id) > 0 <==> exists t :: 0 <= t < |xs| && CaresFor(xs[t], id)
  {
    forall t | 0 <= t < |xs| ensures AtTracker(xs[t], id) <= AtTrackers(xs, id) && (AtTracker(xs[t], id) > 0 <==> CaresFor(xs[t], id)) {
      AtOneOfThem(xs, t, id);
      AtTrackerIff(xs[t], id);
    }
    hide AtTracker, CaresFor, AtTrackers;
    if AtTrackers(xs, id) > 0 {
      AtSomeTracker(xs, id);
    }
  }

  lemma PlacesIff(s: World, id: Id)
    ensures Places(s, id) > 0 <==> CaredFor(s, id)
  {
    CountedIsThere(s.restore, RowOf(id));
    CountedIsThere(s.managerQ, AsksFor(id));
    AtTrackersIff(s.trackers, id);
    hide Count, AtTrackers, CaresFor;
    assert forall m :: AsksFor(id)(m) == AsksToWatch(m, id);
    assert forall row :: RowOf(id)(row) == (row.0 == id);
  }

  // --- What is known of every reachable state ---

  /** In one place at most; only for stored orders; and nowhere before the restore list is read. */
  ghost predicate Placed(s: World, id: Id) {
    Places(s, id) <= 1 && (Places(s, id) > 0 ==> id in s.d.db) && (s.ctl.Booting? ==> Places(s, id) == 0)
  }

  ghost predicate VersionsKnown(c: Config, d: Durable) {
    forall id, o :: (id, o) in d.versions ==> Known(c, o.currency.currency)
  }

  lemma {:induction false} ListedOnce(list: seq<(Id, OrderInfo)>, id: Id)
    requires forall i, j :: 0 <= i < j < |list| ==> list[i].0 != list[j].0
    ensures Count(list, RowOf(id)) == if exists row :: row in list && row.0 == id then 1 else 0
  {
    CountedIsThere(list, RowOf(id));
    assert forall row :: RowOf(id)(row) == (row.0 == id);
    if |list| > 0 {
      ListedOnce(list[1..], id);
      assert forall row :: row in list[1..] ==> row.0 != list[0].0;
    }
  }

  lemma ListedIff(m: Orders, list: seq<(Id, OrderInfo)>, id: Id)
    requires ListsPending(m, list)
    ensures Count(list, RowOf(id)) == if id in m && m[id].paymentStatus.Pending? then 1 else 0
  {
    ListedOnce(list, id);
    hide Count, ValidUtf8;
    if id in m && m[id].paymentStatus.Pending? {
      assert (id, m[id]) in list;
    }
    if row :| row in list && row.0 == id {
      assert (row.0, row.1) in list;
    }
  }

  /** The handler comes to send a watch request exactly for an order that it stores for the first time. */
  lemma NewlyStoredIff(c: Config, s: World, now: u64, id: Id)
    requires c.Valid() && s.ctl.Idle? && |s.stateQ| > 0
    ensures var s' := TakeStateMsg(c, s, now);
            && AtHandler(s'.ctl, id) == (if id !in s.d.db && id in s'.d.db then 1 else 0)
            && (id in s.d.db ==> id in s'.d.db)
  {
    var s1 := s.(stateQ := s.stateQ[1..]);
    hide TakeCreate, TakePaid, OnlyStores, Config.Valid;
    match s.stateQ[0] {
      case ConnectChain(_) =>
      case Inquiry =>
      case OrderPaid(other) =>
        Intake.PaymentIsAsked(c, s1, other);
        PaidKeepsKeys(c, s1, other);
      case CreateInvoice(q) => CreatesIff(c, s1, q, now, id);
    }
  }

  lemma PaidKeepsKeys(c: Config, s: World, id: Id)
    requires s.ctl.Idle?
    ensures TakePaid(c, s, id).d.db.Keys == s.d.db.Keys && TakePaid(c, s, id).d.versions == s.d.versions
    ensures !TakePaid(c, s, id).ctl.Sending? || TakePaid(c, s, id).ctl.m.MReap?
  {
    Intake.PaymentIsAsked(c, s, id);
    hide TakePaid, Intake.AsksFor;
  }

  lemma CreatesIff(c: Config, s: World, q: OrderQuery, now: u64, id: Id)
    requires c.Valid() && s.ctl.Idle?
    ensures var s' := TakeCreate(c, s, q, now);
            && AtHandler(s'.ctl, id) == (if id !in s.d.db && id in s'.d.db then 1 else 0)
            && (id in s.d.db ==> id in s'.d.db)
  {
    hide TakeCreate, Config.Valid, RecordsRequest, Amends, Intake.IsCurrency;
    if q.currency !in s.currencies {
      Intake.UnknownCurrencyIsRefused(c, s, q, now);
    } else if q.order in s.d.db {
      Intake.KnownOrderIsNotAsked(c, s, q, now);
    } else {
      Intake.NewOrderIsAsked(c, s, q, now);
    }
  }

  /** Nobody but the handler, on a message, stores an order. */
  lemma KeysStay(c: Config, s: World, st: Step, id: Id)
    requires c.Valid() && Enabled(c, s, st)
    ensures id in s.d.db ==> id in Apply(c, s, st).d.db
    ensures !st.StateTake? ==> Apply(c, s, st).d.db == s.d.db
  {
    if st.StateTake? {
      NewlyStoredIff(c, s, st.now, id);
      hide TakeStateMsg;
    } else {
      OthersPayNothing(c, s, st);
    }
  }

  lemma StaysBooting(c: Config, s: World, st: Step)
    requires Enabled(c, s, st)
    ensures var s' := Apply(c, s, st);
            s'.ctl.Booting? <==> st.Crash? || (s.ctl.Booting? && !st.Boot? && !st.StateTake?)
  {
    if OfTrackers(st) {
      TrackerFrame(c, s, st);
      hide Apply, Enabled;
    } else if OfManager(st) {
      ManagerFrame(c, s, st);
      hide Apply, Enabled;
    } else if st.StateTake? {
      TakeStateMsgFrame(c, s, st.now);
      hide TakeStateMsg;
    } else {
      hide WatchOf, ListsPending;
    }
  }

  lemma ArisesIs(c: Config, s: World, st: Step, id: Id)
    requires c.Valid() && Enabled(c, s, st)
    ensures Arises(c, s, st, id) ==
            if st.Boot? then (if id in s.d.db && s.d.db[id].paymentStatus.Pending? then 1 else 0)
            else if id !in s.d.db && id in Apply(c, s, st).d.db then 1 else 0
  {
    hide Config.Valid;
    if st.Boot? {
      ListedIff(s.d.db, st.list, id);
    } else if st.StateTake? {
      NewlyStoredIff(c, s, st.now, id);
      hide TakeStateMsg, AtHandler;
    } else {
      KeysStay(c, s, st, id);
      hide Apply, Enabled;
    }
  }

  lemma StepPlaced(c: Config, s: World, st: Step, id: Id)
    requires c.Valid() && Placed(s, id) && Enabled(c, s, st)
    ensures Placed(Apply(c, s, st), id)
  {
    StepAccounts(c, s, st, id);
    ArisesIs(c, s, st, id);
    KeysStay(c, s, st, id);
    StaysBooting(c, s, st);
    if st.Boot? {
      hide Apply, Places, Lapses, Arises, Config.Valid, ListsPending;
    } else if st.Crash? {
      hide Places, Arises, Config.Valid;
    } else {
      hide Apply, Enabled, Places, Lapses, Arises, Config.Valid;
    }
  }

  lemma TakenVersionsKnown(c: Config, s: World, now: u64)
    requires c.Valid() && VersionsKnown(c, s.d) && AssetsKnown(c, s.currencies) && s.ctl.Idle? && |s.stateQ| > 0
    ensures VersionsKnown(c, TakeStateMsg(c, s, now).d)
  {
    var s1 := s.(stateQ := s.stateQ[1..]);
    hide TakeCreate, TakePaid, Known, Config.Valid, OnlyStores, RecordsRequest, Amends;
    match s.stateQ[0] {
      case ConnectChain(_) =>
      case Inquiry =>
      case OrderPaid(other) => PaidKeepsKeys(c, s1, other);
      case CreateInvoice(q) =>
        if q.currency !in s.currencies {
          Intake.UnknownCurrencyIsRefused(c, s1, q, now);
        } else if q.order in s.d.db {
          Intake.KnownOrderIsNotAsked(c, s1, q, now);
        } else {
          Intake.NewOrderIsAsked(c, s1, q, now);
        }
    }
  }

  lemma OthersKeepVersions(c: Config, s: World, st: Step)
    requires Enabled(c, s, st) && !st.StateTake?
    ensures Apply(c, s, st).d.versions == s.d.versions
  {
    if OfTrackers(st) {
      TrackerFrame(c, s, st);
      hide Apply, Enabled;
    } else if OfManager(st) {
      ManagerFrame(c, s, st);
      hide Apply, Enabled;
    } else if OfState(st) {
      StateFrame(c, s, st);
      hide Apply, Enabled;
    } else if st.PayoutStart? {
      PayoutFrame(c, s, st);
      hide Apply, Enabled;
    }
  }

  lemma StepVersionsKnown(c: Config, s: World, st: Step)
    requires c.Valid() && VersionsKnown(c, s.d) && AllKnown(c, s) && Enabled(c, s, st)
    ensures VersionsKnown(c, Apply(c, s, st).d)
  {
    if st.StateTake? {
      TakenVersionsKnown(c, s, st.now);
      hide TakeStateMsg, VersionsKnown;
    } else {
      OthersKeepVersions(c, s, st);
      hide Apply, Enabled, Known;
    }
  }

  ghost predicate Tended(c: Config, s: World, id: Id) {
    Healthy(c, s) && VersionsKnown(c, s.d) && Placed(s, id)
  }

  lemma StepTended(c: Config, s: World, st: Step, id: Id)
    requires c.Valid() && Tended(c, s, id) && Enabled(c, s, st)
    ensures Tended(c, Apply(c, s, st), id)
  {
    StepHealthy(c, s, st);
    StepPlaced(c, s, st, id);
    assert AllKnown(c, s) by { KnownOf(c, s); }
    hide Healthy, Placed, Apply, Enabled, Config.Valid, VersionsKnown, AllKnown;
    StepVersionsKnown(c, s, st);
  }

  lemma KnownOf(c: Config, s: World)
    requires Healthy(c, s)
    ensures AllKnown(c, s)
  {
    hide Inv, Deadlock.Shaped, AllConfigured, AllKnown;
  }

  lemma InitTended(c: Config, id: Id)
    ensures Tended(c, Init(c), id)
  {
    InitHealthy(c);
    NowhereAtStart(c, NothingYet(), id);
    hide Healthy, Places;
  }

  // --- Which steps drop it ---

  /**
   * The restore task finding the manager gone; the manager forwarding to a tracker that has ended; the
   * manager ending with the request in its queue; a tracker ending with the request in its queue or
   * the invoice in its map; a round settling that has decided to let the invoice go.
   */
  ghost predicate DropsWatch(s: World, st: Step, id: Id) {
    match st
    case RestoreSend => |s.restore| > 0 && s.restore[0].0 == id && s.mctl.Gone?
    case ManagerForward =>
      && s.mctl.Forwarding? && TellsToWatch(s.mctl.m, id)
      && s.mctl.t < |s.trackers| && s.trackers[s.mctl.t].phase.Ended?
    case ManagerFinish => exists m :: m in s.managerQ && AsksToWatch(m, id)
    case TrackerQuit(t) => t < |s.trackers| && CaresFor(s.trackers[t], id)
    case TrackerTake(t, outcome) =>
      && t < |s.trackers| && |s.trackers[t].queue| > 0 && EndsTracker(s.trackers[t].queue[0], outcome)
      && CaresFor(s.trackers[t], id)
    case TrackerSettle(t) =>
      && t < |s.trackers| && s.trackers[t].phase.Checking?
      && id in s.trackers[t].watched && id in s.trackers[t].phase.removals
    case _ => false
  }

  lemma RestoredParses(c: Config, s: World)
    requires Inv(c, s) && |s.restore| > 0
    ensures c.fromBase58(s.restore[0].1.paymentAccount).Some?
  {
    hide Conserved, CtlOk, EvidenceOk, PayoutsOk, StateQOk, TrackerOk, ManagerMsgOk, InFlight, TrackerMsgOk;
    assert s.restore[0] in s.restore;
    assert (s.restore[0].0, s.restore[0].1) in s.d.versions;
  }

  lemma WatchIsRouted(c: Config, s: World)
    requires Inv(c, s) && VersionsKnown(c, s.d) && |s.managerQ| > 0 && s.managerQ[0].MWatch?
    ensures Route(c.chains, s.managerQ[0].w.currency).Some?
  {
    hide Conserved, DurableOk, CtlOk, StateQOk, TrackerOk, InFlight, TrackerMsgOk, RestoreOk, Route;
    assert s.managerQ[0] in s.managerQ;
    assert ManagerMsgOk(c, s.d, s.managerQ[0]);
    var w := s.managerQ[0].w;
    var o :| (w.id, o) in s.d.versions && InvoiceOf(c, w.id, o) == Some(FromRequest(w));
    KnownIsRouted(c, w.currency);
  }

  lemma KnownIsRouted(c: Config, n: Text)
    requires Known(c, n)
    ensures Route(c.chains, n).Some?
  {
    var t :| 0 <= t < |c.chains| && n in Names(c.chains[t]);
    RoutesIff(c.chains, n);
    NamesAreAllNames(c.chains, t, n);
  }

  /** A tracker does not get a request for what it watches already. */
  lemma NotWatchedYet(s: World, t: nat, id: Id)
    requires Placed(s, id) && t < |s.trackers| && !s.trackers[t].phase.Ended? && |s.trackers[t].queue| > 0
    requires TellsToWatch(s.trackers[t].queue[0], id)
    ensures id !in s.trackers[t].watched
  {
    AtOneOfThem(s.trackers, t, id);
    hide AtTrackers;
    assert Count(s.trackers[t].queue, TellsFor(id)) > 0;
    hide Count;
  }

  lemma TrackerLapses(c: Config, s: World, st: Step, id: Id)
    requires Placed(s, id) && Enabled(c, s, st) && OfTrackers(st)
    ensures Lapses(c, s, st, id) > 0 <==> DropsWatch(s, st, id)
  {
    assert st.t < |s.trackers|;
    hide AtTracker, CaresFor, Placed, EndsTracker;
    AtTrackerIff(s.trackers[st.t], id);
    if st.TrackerTake? {
      if TellsToWatch(s.trackers[st.t].queue[0], id) {
        NotWatchedYet(s, st.t, id);
      }
    } else {
      hide VisitAllowed, Prepare;
    }
  }

  lemma ManagerLapses(c: Config, s: World, st: Step, id: Id)
    requires Inv(c, s) && VersionsKnown(c, s.d) && Enabled(c, s, st) && OfManager(st)
    ensures Lapses(c, s, st, id) > 0 <==> DropsWatch(s, st, id)
  {
    if st.ManagerTake? {
      if s.managerQ[0].MWatch? {
        WatchIsRouted(c, s);
      }
      hide Inv, VersionsKnown, Count, AsksFor, Route, CaresFor;
    } else {
      hide Inv, VersionsKnown;
      if st.ManagerFinish? {
        CountedIsThere(s.managerQ, AsksFor(id));
        assert forall m :: AsksFor(id)(m) == AsksToWatch(m, id);
      }
      hide Count, AsksFor, Route, CaresFor, NoSenders;
    }
  }

  lemma SendLapsesNothing(c: Config, s: World, id: Id)
    requires Healthy(c, s) && Enabled(c, s, StateSend)
    ensures Lapses(c, s, StateSend, id) == 0
  {
    hide Healthy;
    SendsToManager(c, s);
  }

  lemma RestoreLapses(c: Config, s: World, id: Id)
    requires Inv(c, s) && Enabled(c, s, RestoreSend)
    ensures Lapses(c, s, RestoreSend, id) > 0 <==> DropsWatch(s, RestoreSend, id)
  {
    assert |s.restore| > 0;
    hide Inv;
    RestoredParses(c, s);
  }

  lemma BootLapsesNothing(c: Config, s: World, st: Step, id: Id)
    requires Placed(s, id) && Enabled(c, s, st) && OfState(st) && !st.StateSend? && !st.RestoreSend?
    ensures Lapses(c, s, st, id) == 0
  {
    hide Count, AtTrackers, ListsPending;
  }

  lemma StateLapses(c: Config, s: World, st: Step, id: Id)
    requires Healthy(c, s) && Placed(s, id) && Enabled(c, s, st) && OfState(st)
    ensures Lapses(c, s, st, id) > 0 <==> DropsWatch(s, st, id)
  {
    hide Healthy, Inv, Placed, Lapses, Enabled;
    if st.StateSend? {
      SendLapsesNothing(c, s, id);
    } else if st.RestoreSend? {
      HealthyInv(c, s);
      RestoreLapses(c, s, id);
    } else {
      BootLapsesNothing(c, s, st, id);
    }
  }

  /** The request lapses in exactly these steps. */
  lemma LapsesIff(c: Config, s: World, st: Step, id: Id)
    requires Tended(c, s, id) && Enabled(c, s, st) && !st.Crash?
    ensures Lapses(c, s, st, id) > 0 <==> DropsWatch(s, st, id)
  {
    HealthyInv(c, s);
    hide Healthy, Inv, VersionsKnown, Placed;
    if OfTrackers(st) {
      hide Enabled, Lapses, DropsWatch;
      TrackerLapses(c, s, st, id);
    } else if OfManager(st) {
      hide Enabled, Lapses, DropsWatch;
      ManagerLapses(c, s, st, id);
    } else if OfState(st) {
      hide Enabled, Lapses, DropsWatch;
      StateLapses(c, s, st, id);
    }
  }

  // --- The law ---

  ghost predicate PendingIn(db: Orders, id: Id) {
    id in db && db[id].paymentStatus.Pending?
  }

  /** Stored and pending, but neither watched nor going to be in this life of the daemon. */
  ghost predicate Neglected(s: World, id: Id) {
    PendingIn(s.d.db, id) && !s.ctl.Booting? && !CaredFor(s, id)
  }

  lemma PendingBefore(c: Config, s: World, st: Step, id: Id)
    requires Enabled(c, s, st) && PendingIn(Apply(c, s, st).d.db, id) && id in s.d.db
    ensures PendingIn(s.d.db, id)
  {
    if !PendingIn(s.d.db, id) {
      PaidStays(c, s, st, id);
    }
    hide Apply, Enabled;
  }

  /** A request exists only of a stored order, so there is nothing to drop before. */
  lemma UnstoredDropsNothing(c: Config, s: World, st: Step, id: Id)
    requires Tended(c, s, id) && Enabled(c, s, st) && id !in s.d.db
    ensures !DropsWatch(s, st, id)
  {
    hide Tended, Placed, CaredFor, DropsWatch, Enabled;
    PlacedOf(c, s, id);
    NowhereBefore(s, id);
    NothingToDrop(s, st, id);
  }

  lemma NothingToDrop(s: World, st: Step, id: Id)
    requires !CaredFor(s, id)
    ensures !DropsWatch(s, st, id)
  {
    if st.RestoreSend? && |s.restore| > 0 {
      assert s.restore[0] in s.restore;
    }
    hide EndsTracker;
  }

  /** Where a step leaves the request: nowhere if it drops it, in one place if it makes it, and else as it was. */
  lemma StepPlaces(c: Config, s: World, st: Step, id: Id)
    requires c.Valid() && Tended(c, s, id) && Enabled(c, s, st) && !st.Crash?
    ensures var s' := Apply(c, s, st);
            Places(s', id) == if st.Boot? then (if PendingIn(s.d.db, id) then 1 else 0)
                              else if id !in s.d.db && id in s'.d.db then 1
                              else if DropsWatch(s, st, id) then 0
                              else Places(s, id)
  {
    hide Apply, Enabled, Places, Lapses, Arises, DropsWatch, Config.Valid, Tended;
    LapsesIff(c, s, st, id);
    PlacedOf(c, s, id);
    BootsFirst(c, s, st, id);
    if id !in s.d.db {
      UnstoredDropsNothing(c, s, st, id);
    }
    StepAccounts(c, s, st, id);
    ArisesIs(c, s, st, id);
  }

  /** A step leaves a pending order neglected exactly if it was before or the step drops its request; a crash never does. */
  lemma NeglectsIff(c: Config, s: World, st: Step, id: Id)
    requires c.Valid() && Tended(c, s, id) && Enabled(c, s, st) && PendingIn(Apply(c, s, st).d.db, id)
    ensures Neglected(Apply(c, s, st), id) <==> !st.Crash? && (Neglected(s, id) || DropsWatch(s, st, id))
  {
    hide Tended, Apply, Enabled, Places, CaredFor, DropsWatch, Config.Valid, PendingIn;
    var s' := Apply(c, s, st);
    StaysBooting(c, s, st);
    if !st.Crash? {
      StillPending(c, s, st, id);
      BootsFirst(c, s, st, id);
      StepPlaces(c, s, st, id);
      PlacesIff(s, id);
      PlacesIff(s', id);
      if id !in s.d.db {
        UnstoredDropsNothing(c, s, st, id);
      }
    }
  }

  lemma StillPending(c: Config, s: World, st: Step, id: Id)
    requires Enabled(c, s, st) && PendingIn(Apply(c, s, st).d.db, id)
    ensures PendingIn(s.d.db, id) <==> id in s.d.db
    ensures id in Apply(c, s, st).d.db
    ensures st.Boot? ==> id in s.d.db
  {
    if id in s.d.db {
      PendingBefore(c, s, st, id);
    }
    if st.Boot? {
      OthersPayNothing(c, s, st);
    }
    hide Apply, Enabled;
  }

  lemma PlacedOf(c: Config, s: World, id: Id)
    requires Tended(c, s, id)
    ensures Placed(s, id)
  {
  }

  lemma BootsWhileBooting(c: Config, s: World, st: Step)
    requires Enabled(c, s, st) && (st.Boot? || st.StateTake?)
    ensures s.ctl.Booting? <==> st.Boot?
  {
  }

  lemma NowhereBefore(s: World, id: Id)
    requires Placed(s, id) && (s.ctl.Booting? || id !in s.d.db)
    ensures !CaredFor(s, id)
  {
    hide CaredFor, Places;
    PlacesIff(s, id);
  }

  /** Before the restore list is read, no step drops anything. */
  lemma BootsFirst(c: Config, s: World, st: Step, id: Id)
    requires Tended(c, s, id) && Enabled(c, s, st)
    ensures s.ctl.Booting? ==> !DropsWatch(s, st, id)
    ensures st.Boot? ==> s.ctl.Booting?
    ensures st.StateTake? ==> !s.ctl.Booting?
  {
    hide Tended, Placed, CaredFor, DropsWatch, Enabled;
    PlacedOf(c, s, id);
    if st.Boot? || st.StateTake? {
      BootsWhileBooting(c, s, st);
    }
    if s.ctl.Booting? {
      NowhereBefore(s, id);
      NothingToDrop(s, st, id);
    }
  }

  /** Some step of the run drops the order's watch request, and no crash comes after it. */
  ghost predicate DroppedForGood(c: Config, s: World, steps: seq<Step>, id: Id)
    decreases |steps|
  {
    |steps| > 0 && Enabled(c, s, steps[0])
    && ((DropsWatch(s, steps[0], id) && Crash !in steps) || DroppedForGood(c, Apply(c, s, steps[0]), steps[1..], id))
  }

  lemma StillStored(c: Config, s: World, st: Step, id: Id)
    requires c.Valid() && Enabled(c, s, st) && id !in Apply(c, s, st).d.db
    ensures id !in s.d.db
  {
    KeysStay(c, s, st, id);
  }

  lemma {:induction false} PaidFromThere(c: Config, s: World, steps: seq<Step>, s': World, id: Id)
    requires Runs(c, s, steps, s') && PaidIn(s.d.db, id)
    ensures PaidIn(s'.d.db, id)
    decreases |steps|
  {
    if |steps| > 0 {
      PaidStays(c, s, steps[0], id);
      hide PaidIn, Apply, Enabled;
      PaidFromThere(c, Apply(c, s, steps[0]), steps[1..], s', id);
    }
  }

  lemma FirstStep(c: Config, s: World, st: Step, id: Id)
    requires c.Valid() && Tended(c, s, id) && Enabled(c, s, st) && !PaidIn(Apply(c, s, st).d.db, id)
    ensures Neglected(Apply(c, s, st), id) <==> !st.Crash? && (Neglected(s, id) || DropsWatch(s, st, id))
  {
    hide Tended, Apply, Enabled, DropsWatch, CaredFor, Config.Valid;
    if id in Apply(c, s, st).d.db {
      NeglectsIff(c, s, st, id);
    } else {
      StillStored(c, s, st, id);
      UnstoredDropsNothing(c, s, st, id);
    }
  }

  lemma {:induction false} NeglectedFrom(c: Config, s: World, steps: seq<Step>, s': World, id: Id)
    requires c.Valid() && Tended(c, s, id) && Runs(c, s, steps, s') && PendingIn(s'.d.db, id)
    ensures Neglected(s', id) <==> (Neglected(s, id) && Crash !in steps) || DroppedForGood(c, s, steps, id)
    decreases |steps|
  {
    if |steps| > 0 {
      var s1 := Apply(c, s, steps[0]);
      StepTended(c, s, steps[0], id);
      if PaidIn(s1.d.db, id) {
        PaidFromThere(c, s1, steps[1..], s', id);
      }
      FirstStep(c, s, steps[0], id);
      assert Crash in steps <==> steps[0].Crash? || Crash in steps[1..];
      hide Tended, Neglected, Apply, Enabled, DropsWatch, Config.Valid;
      NeglectedFrom(c, s1, steps[1..], s', id);
    }
  }

  /**
   * The exact law of watching, over every run from the first start. The request to watch a pending
   * order is never in two places; it is in none exactly if one of the named steps dropped it and the
   * daemon did not crash and start again since, or it has not read its restore list yet.
   */
  lemma NeglectedIff(c: Config, steps: seq<Step>, s: World, id: Id)
    requires c.Valid() && Runs(c, Init(c), steps, s) && PendingIn(s.d.db, id)
    ensures Places(s, id) <= 1
    ensures CaredFor(s, id) <==> Places(s, id) == 1
    ensures !s.ctl.Booting? ==> (CaredFor(s, id) <==> !DroppedForGood(c, Init(c), steps, id))
  {
    InitTended(c, id);
    RunsTended(c, Init(c), steps, s, id);
    PlacesIff(s, id);
    hide Healthy, Places, CaredFor, Runs, DroppedForGood, VersionsKnown;
    NeglectedFrom(c, Init(c), steps, s, id);
  }

  lemma {:induction false} RunsTended(c: Config, s: World, steps: seq<Step>, s': World, id: Id)
    requires c.Valid() && Tended(c, s, id) && Runs(c, s, steps, s')
    ensures Tended(c, s', id)
    decreases |steps|
  {
    if |steps| > 0 {
      StepTended(c, s, steps[0], id);
      hide Tended, Apply, Enabled, Config.Valid;
      RunsTended(c, Apply(c, s, steps[0]), steps[1..], s', id);
    }
  }

  /** The step that stores a new order leaves its watch request about to be sent, and nowhere else. */
  lemma NewlyStored(c: Config, s: World, st: Step, id: Id)
    requires c.Valid() && Tended(c, s, id) && Enabled(c, s, st) && id !in s.d.db && id in Apply(c, s, st).d.db
    ensures var s' := Apply(c, s, st);
            s'.ctl.Sending? && AsksToWatch(s'.ctl.m, id) && Places(s', id) == 1
  {
    KeysStay(c, s, st, id);
    StepPlaced(c, s, st, id);
    NewlyStoredIff(c, s, st.now, id);
    hide TakeStateMsg, Count, AtTrackers, Healthy, VersionsKnown, Config.Valid;
  }
}
