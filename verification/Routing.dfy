// Every currency the State handler accepts belongs to one chain, and everything asked about an
// order goes to that chain's tracker, which knows the currency.
module Routing {
  import opened Definitions
  import opened Ledger
  import opened Chains
  import opened Watching
  import opened Protocol

  /** Deduplication does not look at chain names; routing needs them distinct. */
  ghost predicate NamedApart(c: Config) {
    forall i, j :: 0 <= i < j < |c.chains| ==> c.chains[i].name != c.chains[j].name
  }

  ghost predicate Home(c: Config, t: nat, currency: Text) {
    Route(c.chains, currency) == Some(t)
  }

  /** The currency is routed, to the chain of this name. */
  ghost predicate Routed(c: Config, currency: Text, chainName: Text) {
    && Route(c.chains, currency).Some?
    && Route(c.chains, currency).value < |c.chains|
    && c.chains[Route(c.chains, currency).value].name == chainName
  }

  lemma HomeIff(c: Config, t: nat, n: Text)
    requires c.Valid() && NamedApart(c) && t < |c.chains|
    ensures n in Names(c.chains[t]) <==> Home(c, t, n)
  {
    if n in Names(c.chains[t]) {
      RoutedHomeIff(c.chains, t, n);
    }
    if Home(c, t, n) {
      RoutesIff(c.chains, n);
      var i := OwnerOfName(c.chains, n);
      RoutedHomeIff(c.chains, i, n);
    }
  }

  // --- The invariant ---

  ghost predicate AssetsRouted(c: Config, assets: Assets) {
    forall n :: n in assets ==> Routed(c, n, assets[n].chainName)
  }

  /** The currencies of a connection are exactly those of its chain. */
  ghost predicate ChainAssets(c: Config, t: nat, assets: Assets) {
    && AssetsRouted(c, assets)
    && forall n :: n in assets <==> Home(c, t, n)
  }

  ghost predicate OrderRouted(c: Config, o: OrderInfo) {
    Routed(c, o.currency.currency, o.currency.chainName)
  }

  ghost predicate OrdersRouted(c: Config, m: Orders) {
    forall id :: id in m ==> OrderRouted(c, m[id])
  }

  ghost predicate RowsRouted(c: Config, rows: seq<(Id, OrderInfo)>) {
    forall row :: row in rows ==> OrderRouted(c, row.1)
  }

  ghost predicate ManagerMsgRouted(c: Config, m: ManagerMsg) {
    match m
    case MWatch(w) => Route(c.chains, w.currency).Some?
    case MReap(w) => Route(c.chains, w.currency).Some?
    case MShutdown => true
  }

  ghost predicate TrackerMsgHome(c: Config, t: nat, m: TrackerMsg) {
    match m
    case TWatch(w) => Home(c, t, w.currency)
    case TReap(w) => Home(c, t, w.currency)
    case TNewBlock => true
    case TShutdown => true
  }

  ghost predicate PhaseHome(c: Config, t: nat, p: Phase) {
    match p
    case Connecting => true
    case Announcing(assets) => ChainAssets(c, t, assets)
    case Checking(assets, _, _, _, _, _) => ChainAssets(c, t, assets)
    case Serving(assets) => ChainAssets(c, t, assets)
    case Ended => true
  }

  ghost predicate TrackerHome(c: Config, t: nat, x: TrackerState) {
    && PhaseHome(c, t, x.phase)
    && (forall id :: id in x.watched ==> Home(c, t, x.watched[id].currency))
    && (forall m :: m in x.queue ==> TrackerMsgHome(c, t, m))
  }

  ghost predicate TaskHome(c: Config, k: Task) {
    ChainAssets(c, k.chain, k.assets) && Home(c, k.chain, k.w.currency)
  }

  ghost predicate StateQRouted(c: Config, q: seq<StateMsg>) {
    forall m :: m in q && m.ConnectChain? ==> AssetsRouted(c, m.assets)
  }

  ghost predicate AllRouted(c: Config, s: World) {
    && OrdersRouted(c, s.d.db)
    && (s.ctl.Sending? ==> ManagerMsgRouted(c, s.ctl.m))
    && StateQRouted(c, s.stateQ)
    && AssetsRouted(c, s.currencies)
    && RowsRouted(c, s.restore)
    && (forall m :: m in s.managerQ ==> ManagerMsgRouted(c, m))
    && (s.mctl.Forwarding? ==> TrackerMsgHome(c, s.mctl.t, s.mctl.m))
    && (forall t :: 0 <= t < |s.trackers| ==> TrackerHome(c, t, s.trackers[t]))
    && (forall k :: k in s.tasks ==> TaskHome(c, k))
  }

  // --- Steps ---

  lemma ConnectHome(c: Config, t: nat, report: NodeReport)
    requires c.Valid() && NamedApart(c) && t < |c.chains| && Prepare(c.chains[t], report).Ok?
    ensures ChainAssets(c, t, Prepare(c.chains[t], report).value)
  {
    var assets := Prepare(c.chains[t], report).value;
    NamesDistinct(c.chains, t);
    ExactMatch(c.chains[t], report);
    hide Prepare, Route, Names;
    forall n ensures n in assets <==> Home(c, t, n) {
      HomeIff(c, t, n);
      assert n in SetOf(Names(c.chains[t])) <==> n in Names(c.chains[t]);
    }
  }

  lemma WatchRouted(c: Config, id: Id, o: OrderInfo, k: Caller)
    requires OrderRouted(c, o)
    ensures WatchOf(c, id, o, k).Some? ==> Route(c.chains, WatchOf(c, id, o, k).value.currency).Some?
  {
    hide Route;
  }

  lemma StoredRouted(c: Config, m: Orders, id: Id, o: OrderInfo)
    requires OrdersRouted(c, m) && OrderRouted(c, o)
    ensures OrdersRouted(c, m[id := o])
  {
    hide OrderRouted;
  }

  lemma CreatedRouted(c: Config, s: World, q: OrderQuery, account: Text, death: u64)
    requires AssetsRouted(c, s.currencies) && q.currency in s.currencies
    ensures var r := CreateOrder(s.d.db, q.order, q, s.currencies[q.currency].Info(q.currency), account, death).1;
            r.Collision? || OrderRouted(c, r.info)
  {
    hide Routed;
    assert Routed(c, q.currency, s.currencies[q.currency].chainName);
  }

  /** Only the stored orders and the handler's control state changed. */
  lemma StateRouted(c: Config, s: World, s': World)
    requires AllRouted(c, s) && s' == s.(d := s'.d, ctl := s'.ctl)
    requires OrdersRouted(c, s'.d.db) && (s'.ctl.Sending? ==> ManagerMsgRouted(c, s'.ctl.m))
    ensures AllRouted(c, s')
  {
    hide TrackerHome, TaskHome, ManagerMsgRouted, StateQRouted, RowsRouted, TrackerMsgHome, AssetsRouted, OrdersRouted;
  }

  lemma CurrenciesRouted(c: Config, s: World)
    requires AllRouted(c, s)
    ensures AssetsRouted(c, s.currencies)
  {
  }

  lemma TakeCreateRouted(c: Config, s: World, q: OrderQuery, now: u64)
    requires AllRouted(c, s) && s.ctl.Idle?
    ensures AllRouted(c, TakeCreate(c, s, q, now))
  {
    CurrenciesRouted(c, s);
    OrdersAreRouted(c, s);
    hide AllRouted, OrdersRouted, OrderRouted, AssetsRouted, CreateOrder, ManagerMsgRouted, WatchOf;
    if q.currency in s.currencies {
      var currency := s.currencies[q.currency].Info(q.currency);
      var account := c.toBase58(c.account(c.recipient, q.order), currency.ss58);
      CreatedRouted(c, s, q, account, DeathAt(now, c.lifetime));
      var response := CreateOrder(s.d.db, q.order, q, currency, account, DeathAt(now, c.lifetime)).1;
      if !response.Collision? {
        StoredRouted(c, s.d.db, q.order, response.info);
        CreatedWatchRouted(c, q.order, response.info);
        StateRouted(c, s, TakeCreate(c, s, q, now));
      }
    }
  }

  lemma CreatedWatchRouted(c: Config, id: Id, o: OrderInfo)
    ensures OrderRouted(c, o) && WatchOf(c, id, o, StateTask).Some? ==>
              ManagerMsgRouted(c, MWatch(WatchOf(c, id, o, StateTask).value))
              && ManagerMsgRouted(c, MReap(WatchOf(c, id, o, StateTask).value))
  {
    hide Route;
  }

  lemma TakePaidRouted(c: Config, s: World, id: Id)
    requires AllRouted(c, s) && s.ctl.Idle?
    ensures AllRouted(c, TakePaid(c, s, id))
  {
    OrdersAreRouted(c, s);
    if id in s.d.db && s.d.db[id].paymentStatus.Pending? {
      var o := s.d.db[id].(paymentStatus := Paid);
      assert OrderRouted(c, s.d.db[id]);
      assert OrderRouted(c, o);
      hide AllRouted, OrdersRouted, OrderRouted, ManagerMsgRouted, WatchOf;
      StoredRouted(c, s.d.db, id, o);
      CreatedWatchRouted(c, id, o);
      StateRouted(c, s, TakePaid(c, s, id));
    }
  }

  lemma TakeStateMsgRouted(c: Config, s: World, now: u64)
    requires AllRouted(c, s) && s.ctl.Idle? && |s.stateQ| > 0
    ensures AllRouted(c, TakeStateMsg(c, s, now))
  {
    hide TakeCreate, TakePaid, TrackerHome, TaskHome, Routed;
    var s1 := s.(stateQ := s.stateQ[1..]);
    assert s.stateQ[0] in s.stateQ;
    assert AllRouted(c, s1);
    match s.stateQ[0] {
      case ConnectChain(assets) => assert AssetsRouted(c, s.currencies + assets);
      case OrderPaid(id) => TakePaidRouted(c, s1, id);
      case CreateInvoice(q) => TakeCreateRouted(c, s1, q, now);
      case Inquiry =>
    }
  }

  /** Only the handler's control state and the manager's queue changed. */
  lemma SentRouted(c: Config, s: World, s': World)
    requires AllRouted(c, s) && s' == s.(d := s.d.(issued := s'.d.issued), ctl := s'.ctl, managerQ := s'.managerQ)
    requires !s'.ctl.Sending? && forall m :: m in s'.managerQ ==> ManagerMsgRouted(c, m)
    ensures AllRouted(c, s')
  {
    hide ManagerMsgRouted, TrackerHome, TaskHome, StateQRouted, RowsRouted, TrackerMsgHome, AssetsRouted, OrdersRouted;
  }

  lemma SendRouted(c: Config, s: World)
    requires AllRouted(c, s) && s.ctl.Sending?
    ensures AllRouted(c, SendToManager(s))
  {
    hide AllRouted, ManagerMsgRouted, SendToManager;
    SendIs(s);
    SentIsRouted(c, s);
    SentRouted(c, s, SendToManager(s));
  }

  lemma SendIs(s: World)
    requires s.ctl.Sending?
    ensures var s' := SendToManager(s);
            && s' == s.(d := s.d.(issued := s'.d.issued), ctl := s'.ctl, managerQ := s'.managerQ) && !s'.ctl.Sending?
            && (s'.managerQ == s.managerQ || s'.managerQ == s.managerQ + [s.ctl.m])
  {
  }

  lemma SentIsRouted(c: Config, s: World)
    requires AllRouted(c, s) && s.ctl.Sending?
    ensures forall m :: m in SendToManager(s).managerQ ==> ManagerMsgRouted(c, m)
  {
    SendIs(s);
    hide ManagerMsgRouted, TrackerHome, TaskHome, StateQRouted, RowsRouted, TrackerMsgHome, AssetsRouted, OrdersRouted,
      SendToManager;
  }

  lemma SubmitRouted(c: Config, s: World)
    requires AllRouted(c, s) && |s.restore| > 0
    ensures AllRouted(c, SubmitRestored(c, s))
  {
    hide Route, TrackerHome, TaskHome, StateQRouted, TrackerMsgHome, AssetsRouted, OrdersRouted;
    var (id, o) := s.restore[0];
    assert s.restore[0] in s.restore;
    WatchRouted(c, id, o, RestoreTask);
  }

  lemma TakeManagerMsgRouted(c: Config, s: World)
    requires AllRouted(c, s) && |s.managerQ| > 0
    ensures AllRouted(c, TakeManagerMsg(c, s))
  {
    hide Route, TrackerHome, TaskHome, StateQRouted, RowsRouted, AssetsRouted, OrdersRouted, Drained;
    assert ManagerMsgRouted(c, s.managerQ[0]);
  }

  /** Only tracker t, the message being forwarded and the payout tasks may differ. */
  lemma TrackersRouted(c: Config, s: World, s': World, t: nat)
    requires AllRouted(c, s) && t < |s.trackers| && |s'.trackers| == |s.trackers|
    requires s'.d.db == s.d.db && s'.ctl == s.ctl && s'.stateQ == s.stateQ && s'.currencies == s.currencies
    requires s'.restore == s.restore && s'.managerQ == s.managerQ
    requires s'.mctl == s.mctl || !s'.mctl.Forwarding?
    requires forall u :: 0 <= u < |s.trackers| && u != t ==> s'.trackers[u] == s.trackers[u]
    requires TrackerHome(c, t, s'.trackers[t])
    requires forall k :: k in s'.tasks ==> TaskHome(c, k)
    ensures AllRouted(c, s')
  {
    hide TrackerHome, TaskHome, StateQRouted, RowsRouted, AssetsRouted, OrdersRouted, ManagerMsgRouted, TrackerMsgHome;
  }

  lemma TrackerIsHome(c: Config, s: World)
    requires AllRouted(c, s)
    ensures forall t :: 0 <= t < |s.trackers| ==> TrackerHome(c, t, s.trackers[t])
    ensures forall k :: k in s.tasks ==> TaskHome(c, k)
    ensures s.mctl.Forwarding? ==> TrackerMsgHome(c, s.mctl.t, s.mctl.m)
  {
  }

  lemma EnqueueRouted(c: Config, s: World, s1: World, t: nat, m: TrackerMsg)
    requires AllRouted(c, s) && t < |s.trackers| && TrackerMsgHome(c, t, m)
    requires s1 == s || (s1 == s.(mctl := s1.mctl) && !s1.mctl.Forwarding?)
    ensures AllRouted(c, s1) && AllRouted(c, Enqueue(s1, t, m))
  {
    TrackerIsHome(c, s);
    hide AllRouted, TaskHome, TrackerMsgHome, PhaseHome, Home;
    var x := s.trackers[t];
    assert TrackerHome(c, t, x.(queue := x.queue + [m]));
    hide TrackerHome;
    TrackersRouted(c, s, s1, t);
    TrackersRouted(c, s, Enqueue(s1, t, m), t);
  }

  lemma ForwardRouted(c: Config, s: World)
    requires AllRouted(c, s) && s.mctl.Forwarding? && s.mctl.t < |s.trackers|
    ensures AllRouted(c, ForwardToTracker(s))
  {
    TrackerIsHome(c, s);
    hide AllRouted, TrackerHome, TaskHome, TrackerMsgHome;
    if s.trackers[s.mctl.t].phase.Ended? {
      TrackersRouted(c, s, ForwardToTracker(s), s.mctl.t);
    } else {
      EnqueueRouted(c, s, s.(mctl := Ready), s.mctl.t, s.mctl.m);
    }
  }

  lemma EndTrackerRouted(c: Config, s: World, t: nat)
    requires AllRouted(c, s) && t < |s.trackers|
    ensures AllRouted(c, EndTracker(s, t))
  {
    TrackerIsHome(c, s);
    hide AllRouted, TaskHome, TrackerMsgHome, Home, CallersIn;
    assert TrackerHome(c, t, s.trackers[t].(phase := Ended, queue := []));
    hide TrackerHome;
    TrackersRouted(c, s, EndTracker(s, t), t);
  }

  lemma NewPhaseHome(c: Config, t: nat, x: TrackerState, p: Phase)
    requires TrackerHome(c, t, x) && PhaseHome(c, t, p)
    ensures TrackerHome(c, t, x.(phase := p))
  {
    hide PhaseHome, Home, TrackerMsgHome;
  }

  lemma SetPhaseRouted(c: Config, s: World, t: nat, p: Phase)
    requires AllRouted(c, s) && t < |s.trackers| && PhaseHome(c, t, p)
    ensures AllRouted(c, SetPhase(s, t, p))
  {
    TrackerIsHome(c, s);
    hide AllRouted, TaskHome, TrackerHome, PhaseHome;
    NewPhaseHome(c, t, s.trackers[t], p);
    TrackersRouted(c, s, SetPhase(s, t, p), t);
  }

  /** Within a connection the assets stay what they were announced to be. */
  lemma SameAssets(c: Config, s: World, t: nat)
    requires AllRouted(c, s) && t < |s.trackers|
    requires var p := s.trackers[t].phase; p.Announcing? || p.Checking? || p.Serving?
    ensures ChainAssets(c, t, s.trackers[t].phase.assets)
  {
    TrackerIsHome(c, s);
    hide AllRouted, TaskHome, ChainAssets;
  }

  lemma NotifyRouted(c: Config, s: World, m: StateMsg)
    requires AllRouted(c, s) && (m.ConnectChain? ==> AssetsRouted(c, m.assets))
    ensures AllRouted(c, s.(stateQ := s.stateQ + [m]))
  {
    hide AssetsRouted, TrackerHome, TaskHome, RowsRouted, OrdersRouted, ManagerMsgRouted, TrackerMsgHome;
  }

  lemma SettleRouted(c: Config, s: World, t: nat)
    requires AllRouted(c, s) && t < |s.trackers| && s.trackers[t].phase.Checking?
    ensures var x := s.trackers[t];
            AllRouted(c, s.(trackers := s.trackers[t := x.(watched := x.watched - x.phase.removals, phase := Serving(x.phase.assets))]))
  {
    TrackerIsHome(c, s);
    hide AllRouted, TaskHome, ChainAssets, Home, TrackerMsgHome;
    var x := s.trackers[t];
    var x' := x.(watched := x.watched - x.phase.removals, phase := Serving(x.phase.assets));
    assert TrackerHome(c, t, x');
    hide TrackerHome;
    TrackersRouted(c, s, s.(trackers := s.trackers[t := x']), t);
  }

  lemma PoppedHome(c: Config, t: nat, x: TrackerState)
    requires TrackerHome(c, t, x) && |x.queue| > 0
    ensures TrackerMsgHome(c, t, x.queue[0])
    ensures TrackerHome(c, t, x.(queue := x.queue[1..]))
  {
    hide Home, PhaseHome, TrackerMsgHome;
  }

  lemma AddedHome(c: Config, t: nat, x: TrackerState, w: Watch)
    requires TrackerHome(c, t, x) && Home(c, t, w.currency)
    ensures TrackerHome(c, t, x.(watched := x.watched[w.id := FromRequest(w)]))
  {
    hide Home, PhaseHome, TrackerMsgHome;
  }

  lemma TakeTrackerMsgRouted(c: Config, s: World, t: nat, outcome: BlockOutcome)
    requires AllRouted(c, s) && t < |s.trackers| && s.trackers[t].phase.Serving? && |s.trackers[t].queue| > 0
    ensures AllRouted(c, TakeTrackerMsg(s, t, outcome))
  {
    TrackerIsHome(c, s);
    SameAssets(c, s, t);
    hide AllRouted, TrackerHome, ChainAssets, Home;
    var x := s.trackers[t];
    var x1 := x.(queue := x.queue[1..]);
    var s1 := s.(trackers := s.trackers[t := x1]);
    var s' := TakeTrackerMsg(s, t, outcome);
    PoppedHome(c, t, x);
    TrackersRouted(c, s, s1, t);
    match x.queue[0] {
      case TNewBlock =>
        if outcome.Die? {
          EndTrackerRouted(c, s1, t);
        } else {
          NewPhaseHome(c, t, x1, s'.trackers[t].phase);
          TrackersRouted(c, s, s', t);
        }
      case TWatch(w) =>
        AddedHome(c, t, x1, w);
        TrackersRouted(c, s, s', t);
      case TReap(w) =>
        TrackersRouted(c, s, s', t);
      case TShutdown =>
        EndTrackerRouted(c, s1, t);
    }
  }

  lemma StartRouted(c: Config, s: World, k: nat)
    requires AllRouted(c, s) && k < |s.tasks|
    ensures AllRouted(c, StartPayout(c, s, k))
  {
    hide TrackerHome, TaskHome, StateQRouted, RowsRouted, AssetsRouted, OrdersRouted, ManagerMsgRouted, TrackerMsgHome;
  }

  lemma IdleStepRouted(c: Config, s: World, st: Step)
    requires AllRouted(c, s) && Enabled(c, s, st)
    requires st.ClientCreate? || st.ClientAsk? || st.Cancel? || st.StateResume? || st.StateCancel?
             || st.StateStop? || st.StateGivesUp? || st.RestoreResume? || st.ManagerFinish?
    ensures AllRouted(c, Apply(c, s, st))
  {
    hide TrackerHome, TaskHome, RowsRouted, AssetsRouted, OrdersRouted, TrackerMsgHome, ListsPending, Prepare, CallersInM,
      Route;
  }

  lemma ListedRouted(c: Config, db: Orders, list: seq<(Id, OrderInfo)>)
    requires OrdersRouted(c, db) && ListsPending(db, list)
    ensures RowsRouted(c, list)
  {
    forall row | row in list ensures OrderRouted(c, row.1) {
      assert (row.0, row.1) in list;
    }
    hide OrderRouted, ListsPending;
  }

  lemma BootRouted(c: Config, s: World, list: seq<(Id, OrderInfo)>)
    requires AllRouted(c, s) && ListsPending(s.d.db, list) && s.ctl.Booting?
    ensures AllRouted(c, Apply(c, s, Boot(list)))
  {
    hide TrackerHome, TaskHome, StateQRouted, AssetsRouted, OrdersRouted, ManagerMsgRouted, TrackerMsgHome, ListsPending,
      OrderRouted, RowsRouted;
    ListedRouted(c, s.d.db, list);
  }

  lemma StartedRouted(c: Config, d: Durable)
    requires OrdersRouted(c, d.db)
    ensures AllRouted(c, Started(c, d))
  {
    hide OrdersRouted;
  }

  lemma OrdersAreRouted(c: Config, s: World)
    requires AllRouted(c, s)
    ensures OrdersRouted(c, s.d.db)
  {
  }

  lemma VisitRouted(c: Config, s: World, t: nat, id: Id, v: Visit)
    requires AllRouted(c, s) && t < |s.trackers| && s.trackers[t].phase.Checking? && id in s.trackers[t].watched
    ensures AllRouted(c, VisitInvoice(s, t, id, v))
  {
    TrackerIsHome(c, s);
    SameAssets(c, s, t);
    hide AllRouted, TrackerHome, ChainAssets, EvidenceOf, Reports, Dropped;
    var s' := VisitInvoice(s, t, id, v);
    NewPhaseHome(c, t, s.trackers[t], s'.trackers[t].phase);
    TrackersRouted(c, s, s', t);
  }

  lemma ReportRouted(c: Config, s: World, t: nat)
    requires AllRouted(c, s) && t < |s.trackers| && s.trackers[t].phase.Checking? && s.trackers[t].phase.reports != []
    ensures AllRouted(c, SendReport(s, t))
  {
    SameAssets(c, s, t);
    hide AllRouted, ChainAssets;
    var p := s.trackers[t].phase;
    var m := OrderPaid(p.reports[0]);
    NotifyRouted(c, s, m);
    SetPhaseRouted(c, s, t, p.(reports := p.reports[1..]));
    SetPhaseRouted(c, s.(stateQ := s.stateQ + [m]), t, p.(reports := p.reports[1..]));
  }

  lemma AnnounceRouted(c: Config, s: World, t: nat, at: nat)
    requires AllRouted(c, s) && Enabled(c, s, TrackerAnnounce(t, at))
    ensures AllRouted(c, Apply(c, s, TrackerAnnounce(t, at)))
  {
    SameAssets(c, s, t);
    hide AllRouted, Prepare, ListsPending;
    var x := s.trackers[t];
    var p := Checking(x.phase.assets, false, at, x.watched.Keys, [], {});
    var m := ConnectChain(x.phase.assets);
    NotifyRouted(c, s, m);
    SetPhaseRouted(c, s, t, p);
    SetPhaseRouted(c, s.(stateQ := s.stateQ + [m]), t, p);
  }

  lemma ConnectionStepRouted(c: Config, s: World, st: Step)
    requires c.Valid() && NamedApart(c) && AllRouted(c, s) && Enabled(c, s, st)
    requires st.BlockArrives? || st.TrackerConnect? || st.TrackerQuit? || st.TrackerAnnounce? || st.TrackerTimeout?
    ensures AllRouted(c, Apply(c, s, st))
  {
    hide AllRouted, Prepare, EndTracker, SetPhase, ChainAssets;
    match st {
      case BlockArrives(t) => EnqueueRouted(c, s, s, t, TNewBlock);
      case TrackerConnect(t, report) =>
        ConnectHome(c, t, report);
        SetPhaseRouted(c, s, t, Announcing(Prepare(c.chains[t], report).value));
      case TrackerQuit(t) => EndTrackerRouted(c, s, t);
      case TrackerAnnounce(t, at) => AnnounceRouted(c, s, t, at);
      case TrackerTimeout(t) => SetPhaseRouted(c, s, t, Connecting);
    }
  }

  lemma RoundStepRouted(c: Config, s: World, st: Step)
    requires AllRouted(c, s) && Enabled(c, s, st)
    requires st.TrackerVisit? || st.TrackerReport? || st.TrackerSettle? || st.TrackerTake?
    ensures AllRouted(c, Apply(c, s, st))
  {
    hide AllRouted, TakeTrackerMsg, VisitInvoice, SendReport;
    match st {
      case TrackerVisit(t, id, _, v) => VisitRouted(c, s, t, id, v);
      case TrackerReport(t) => ReportRouted(c, s, t);
      case TrackerSettle(t) => SettleRouted(c, s, t);
      case TrackerTake(t, outcome) => TakeTrackerMsgRouted(c, s, t, outcome);
    }
  }

  lemma TrackerStepRouted(c: Config, s: World, st: Step)
    requires c.Valid() && NamedApart(c) && AllRouted(c, s) && Enabled(c, s, st) && OfTrackers(st)
    ensures AllRouted(c, Apply(c, s, st))
  {
    hide AllRouted, Apply, Enabled;
    if st.TrackerVisit? || st.TrackerReport? || st.TrackerSettle? || st.TrackerTake? {
      RoundStepRouted(c, s, st);
    } else {
      ConnectionStepRouted(c, s, st);
    }
  }

  lemma StepRouted(c: Config, s: World, st: Step)
    requires c.Valid() && NamedApart(c) && AllRouted(c, s) && Enabled(c, s, st)
    ensures AllRouted(c, Apply(c, s, st))
  {
    hide AllRouted, Prepare, ListsPending, TakeStateMsg, TakeManagerMsg, TakeTrackerMsg, StartPayout, SubmitRestored,
      SendToManager, EndTracker, CallersInM, VisitInvoice, SendReport, SetPhase, ForwardToTracker;
    match st {
      case Crash => OrdersAreRouted(c, s); StartedRouted(c, s.d);
      case Boot(list) => BootRouted(c, s, list);
      case StateTake(now) => TakeStateMsgRouted(c, s, now);
      case StateSend => SendRouted(c, s);
      case RestoreSend => SubmitRouted(c, s);
      case ManagerTake => TakeManagerMsgRouted(c, s);
      case ManagerForward => ForwardRouted(c, s);
      case ManagerDrain(t) => EnqueueRouted(c, s, s.(mctl := Draining(s.mctl.todo - {t})), t, TShutdown);
      case PayoutStart(k) => StartRouted(c, s, k);
      case BlockArrives(_) => TrackerStepRouted(c, s, st);
      case TrackerConnect(_, _) => TrackerStepRouted(c, s, st);
      case TrackerQuit(_) => TrackerStepRouted(c, s, st);
      case TrackerAnnounce(_, _) => TrackerStepRouted(c, s, st);
      case TrackerVisit(_, _, _, _) => TrackerStepRouted(c, s, st);
      case TrackerReport(_) => TrackerStepRouted(c, s, st);
      case TrackerSettle(_) => TrackerStepRouted(c, s, st);
      case TrackerTake(_, _) => TrackerStepRouted(c, s, st);
      case TrackerTimeout(_) => TrackerStepRouted(c, s, st);
      case _ => IdleStepRouted(c, s, st);
    }
  }

  lemma {:induction false} RunsRouted(c: Config, s: World, steps: seq<Step>, s': World)
    requires c.Valid() && NamedApart(c) && AllRouted(c, s) && Runs(c, s, steps, s')
    ensures AllRouted(c, s')
    decreases |steps|
  {
    if |steps| > 0 {
      StepRouted(c, s, steps[0]);
      hide AllRouted, Apply, Enabled;
      RunsRouted(c, Apply(c, s, steps[0]), steps[1..], s');
    }
  }

  lemma RoutedReachable(c: Config, s: World)
    requires c.Valid() && NamedApart(c) && Reachable(c, s)
    ensures AllRouted(c, s)
  {
    hide AllRouted;
    var steps :| Runs(c, Init(c), steps, s);
    StartedRouted(c, NothingYet());
    RunsRouted(c, Init(c), steps, s);
  }

  // --- The theorems ---

  /**
   * Routing soundness: whatever the State handler accepts or has stored routes to the chain named
   * in its properties, and the manager refuses no request it is given.
   */
  lemma AcceptedIsRouted(c: Config, s: World)
    requires c.Valid() && NamedApart(c) && Reachable(c, s)
    ensures forall n :: n in s.currencies ==> Routed(c, n, s.currencies[n].chainName)
    ensures forall id :: id in s.d.db ==> Routed(c, s.d.db[id].currency.currency, s.d.db[id].currency.chainName)
    ensures forall m :: m in s.managerQ && m.MWatch? ==> Route(c.chains, m.w.currency).Some?
    ensures forall m :: m in s.managerQ && m.MReap? ==> Route(c.chains, m.w.currency).Some?
  {
    RoutedReachable(c, s);
    hide TrackerHome, TaskHome, Routed, Route;
    forall m | m in s.managerQ && (m.MWatch? || m.MReap?) ensures Route(c.chains, m.w.currency).Some? {
      assert ManagerMsgRouted(c, m);
    }
    forall id | id in s.d.db ensures Routed(c, s.d.db[id].currency.currency, s.d.db[id].currency.chainName) {
      assert OrderRouted(c, s.d.db[id]);
    }
  }

  /**
   * Through all reconnects, a watched invoice's currency belongs to its own tracker, and a connected
   * tracker knows it; so does the connection a payout task was spawned from. No balance lookup fails
   * for an unknown currency.
   */
  lemma TrackerKnowsItsInvoices(c: Config, s: World, t: nat, id: Id)
    requires c.Valid() && NamedApart(c) && Reachable(c, s)
    requires t < |s.trackers| && id in s.trackers[t].watched
    ensures Home(c, t, s.trackers[t].watched[id].currency)
    ensures var p := s.trackers[t].phase;
            p.Announcing? || p.Checking? || p.Serving? ==> s.trackers[t].watched[id].currency in p.assets
  {
    RoutedReachable(c, s);
    TrackerIsHome(c, s);
    hide AllRouted, Route;
  }

  lemma PayoutKnowsItsCurrency(c: Config, s: World, k: nat)
    requires c.Valid() && NamedApart(c) && Reachable(c, s) && k < |s.tasks|
    ensures s.tasks[k].w.currency in s.tasks[k].assets
  {
    RoutedReachable(c, s);
    TrackerIsHome(c, s);
    hide AllRouted, Route;
    assert TaskHome(c, s.tasks[k]);
  }
}
