// Building blocks of runs: chains connect, a client asks, the restore task has an order watched, a
// block covers it, the State handler records the payment. Every block finds the same balance.
module Scenarios {
  import opened Definitions
  import opened Ledger
  import opened Chains
  import opened Watching
  import opened Protocol
  import opened Safety

  ghost predicate CanReach(c: Config, s: World, s': World) {
    exists steps :: Runs(c, s, steps, s')
  }

  lemma Here(c: Config, s: World)
    ensures CanReach(c, s, s)
  {
    assert Runs(c, s, [], s);
  }

  lemma Then(c: Config, s: World, m: World, st: Step)
    requires CanReach(c, s, m) && Enabled(c, m, st)
    ensures CanReach(c, s, Apply(c, m, st))
  {
    hide Enabled, Apply;
    var steps :| Runs(c, s, steps, m);
    var m' := Apply(c, m, st);
    assert [st][1..] == [];
    assert Runs(c, m', [], m');
    assert Runs(c, m, [st], m');
    RunsOn(c, s, steps, m, [st], m');
  }

  lemma Onward(c: Config, s: World, m: World, s': World)
    requires CanReach(c, s, m) && CanReach(c, m, s')
    ensures CanReach(c, s, s')
  {
    hide Runs;
    var one :| Runs(c, s, one, m);
    var two :| Runs(c, m, two, s');
    RunsOn(c, s, one, m, two, s');
  }

  /** One more step, to the world it leads to. */
  lemma To(c: Config, s0: World, s: World, st: Step, s': World)
    requires CanReach(c, s0, s) && Enabled(c, s, st) && Apply(c, s, st) == s'
    ensures CanReach(c, s0, s')
  {
    hide CanReach, Enabled, Apply;
    Then(c, s0, s, st);
  }

  lemma CanReachIsReachable(c: Config, s: World)
    requires CanReach(c, Init(c), s)
    ensures Reachable(c, s)
  {
    hide Runs;
  }

  // --- One tracker ---

  function With(s: World, t: nat, x: TrackerState): World
    requires t < |s.trackers|
  {
    s.(trackers := s.trackers[t := x])
  }

  lemma WithTwice(s: World, t: nat, x: TrackerState, y: TrackerState)
    requires t < |s.trackers|
    ensures With(With(s, t, x), t, y) == With(s, t, y)
  {
    assert s.trackers[t := x][t := y] == s.trackers[t := y];
  }

  lemma Connected(c: Config, s: World, t: nat, report: NodeReport)
    requires t < |c.chains| && t < |s.trackers| && s.trackers[t].phase.Connecting?
    requires Prepare(c.chains[t], report).Ok?
    ensures Enabled(c, s, TrackerConnect(t, report))
    ensures Apply(c, s, TrackerConnect(t, report))
         == With(s, t, s.trackers[t].(phase := Announcing(Prepare(c.chains[t], report).value)))
  {
    hide Prepare;
  }

  lemma Announced(c: Config, s: World, t: nat)
    requires t < |s.trackers| && s.trackers[t].phase.Announcing? && !s.ctl.Stopped? && |s.stateQ| < c.capacity
    ensures Enabled(c, s, TrackerAnnounce(t, 0))
    ensures var x := s.trackers[t];
            && Apply(c, s, TrackerAnnounce(t, 0))
               == With(s.(stateQ := s.stateQ + [ConnectChain(x.phase.assets)]), t,
                       x.(phase := Checking(x.phase.assets, false, 0, x.watched.Keys, [], {})))
  {
  }

  lemma SettledEmpty(c: Config, s: World, t: nat)
    requires t < |s.trackers|
    requires var p := s.trackers[t].phase; p.Checking? && p.reports == [] && p.todo == {}
    ensures Enabled(c, s, TrackerSettle(t))
    ensures var x := s.trackers[t];
            Apply(c, s, TrackerSettle(t))
            == With(s, t, x.(watched := x.watched - x.phase.removals, phase := Serving(x.phase.assets)))
  {
  }

  lemma BlockComes(c: Config, s: World, t: nat)
    requires t < |s.trackers| && !s.trackers[t].phase.Ended? && |s.trackers[t].queue| < c.capacity
    ensures Enabled(c, s, BlockArrives(t))
    ensures var x := s.trackers[t]; Apply(c, s, BlockArrives(t)) == With(s, t, x.(queue := x.queue + [TNewBlock]))
  {
  }

  lemma BlockIsTaken(c: Config, s: World, t: nat)
    requires t < |s.trackers| && s.trackers[t].phase.Serving? && s.trackers[t].queue == [TNewBlock]
    requires c.block(t, 0).eventsReadable
    ensures Enabled(c, s, TrackerTake(t, Process(0)))
    ensures var x := s.trackers[t];
            && Apply(c, s, TrackerTake(t, Process(0)))
               == With(s, t, x.(phase := Checking(x.phase.assets, true, 0, x.watched.Keys, [], {}), queue := []))
  {
    var x := s.trackers[t];
    WithTwice(s, t, x.(queue := []), x.(phase := Checking(x.phase.assets, true, 0, x.watched.Keys, [], {}), queue := []));
    assert x.queue[1..] == [];
  }

  lemma WatchIsServed(c: Config, s: World, t: nat, w: Watch)
    requires t < |s.trackers| && s.trackers[t].phase.Serving? && s.trackers[t].queue == [TWatch(w)]
    ensures Enabled(c, s, TrackerTake(t, Process(0)))
    ensures var x := s.trackers[t];
            && Apply(c, s, TrackerTake(t, Process(0)))
               == With(s.(replies := s.replies + {w.caller}), t,
                       x.(watched := x.watched[w.id := FromRequest(w)], queue := []))
  {
    assert s.trackers[t].queue[1..] == [];
  }

  lemma ReportIsSent(c: Config, s: World, t: nat)
    requires t < |s.trackers| && s.trackers[t].phase.Checking? && s.trackers[t].phase.reports != []
    requires !s.ctl.Stopped? && |s.stateQ| < c.capacity
    ensures Enabled(c, s, TrackerReport(t))
    ensures var x := s.trackers[t];
            && Apply(c, s, TrackerReport(t))
               == With(s.(stateQ := s.stateQ + [OrderPaid(x.phase.reports[0])]), t,
                       x.(phase := x.phase.(reports := x.phase.reports[1..])))
  {
  }

  // --- Chains connect ---

  /** The assets chain t reports when its node says this; None if the node does not pass. */
  function Learned(chains: seq<Chain>, reports: seq<NodeReport>, t: nat): Option<Assets>
    requires t < |chains| == |reports|
  {
    match Prepare(chains[t], reports[t])
    case Ok(assets) => Some(assets)
    case Err(_) => None
  }

  /** The currencies the State handler knows once the first k chains have had their chance to connect. */
  function Currencies(chains: seq<Chain>, reports: seq<NodeReport>, k: nat): Assets
    requires k <= |chains| == |reports|
  {
    if k == 0 then map[]
    else
      match Learned(chains, reports, k - 1)
      case None => Currencies(chains, reports, k - 1)
      case Some(assets) => Currencies(chains, reports, k - 1) + assets
  }

  function Fresh(): TrackerState {
    TrackerState(Connecting, map[], [])
  }

  function UpTo(chains: seq<Chain>, reports: seq<NodeReport>, k: nat, t: nat): TrackerState
    requires t < |chains| == |reports|
  {
    match Learned(chains, reports, t)
    case None => Fresh()
    case Some(assets) => if t < k then TrackerState(Serving(assets), map[], []) else Fresh()
  }

  function Trackers(chains: seq<Chain>, reports: seq<NodeReport>, k: nat): (r: seq<TrackerState>)
    requires k <= |chains| == |reports|
    ensures |r| == |chains| && forall t :: 0 <= t < |r| ==> r[t] == UpTo(chains, reports, k, t)
  {
    seq(|chains|, t requires 0 <= t < |chains| => UpTo(chains, reports, k, t))
  }

  /** Idle with nothing queued, and no tracker but these k up. */
  ghost predicate Resting(c: Config, reports: seq<NodeReport>, k: nat, s: World) {
    && k <= |c.chains| == |reports|
    && s.ctl.Idle? && s.stateQ == []
    && s.currencies == Currencies(c.chains, reports, k) && s.trackers == Trackers(c.chains, reports, k)
  }

  lemma LearnsAssets(c: Config, s: World, assets: Assets)
    requires s.ctl.Idle? && s.stateQ == [ConnectChain(assets)]
    ensures Enabled(c, s, StateTake(0))
    ensures Apply(c, s, StateTake(0)) == s.(stateQ := [], currencies := s.currencies + assets)
  {
    assert s.stateQ[1..] == [];
  }

  /** A tracker that can connect goes up, and the State handler learns its assets. */
  lemma OneConnects(c: Config, s: World, t: nat, report: NodeReport)
    requires c.capacity > 0 && t < |c.chains| && t < |s.trackers| && s.trackers[t] == Fresh()
    requires s.ctl.Idle? && s.stateQ == [] && Prepare(c.chains[t], report).Ok?
    ensures var assets := Prepare(c.chains[t], report).value;
            CanReach(c, s, With(s.(currencies := s.currencies + assets), t, TrackerState(Serving(assets), map[], [])))
  {
    var assets := Prepare(c.chains[t], report).value;
    Connected(c, s, t, report);
    hide Prepare, CanReach, Apply, Enabled;
    Here(c, s);
    var x1 := TrackerState(Announcing(assets), map[], []);
    var s1 := With(s, t, x1);
    To(c, s, s, TrackerConnect(t, report), s1);
    Announced(c, s1, t);
    var x2 := TrackerState(Checking(assets, false, 0, {}, [], {}), map[], []);
    var s2 := s.(stateQ := [ConnectChain(assets)]);
    assert [] + [ConnectChain(assets)] == [ConnectChain(assets)];
    assert x1.watched.Keys == {};
    WithTwice(s2, t, x1, x2);
    To(c, s, s1, TrackerAnnounce(t, 0), With(s2, t, x2));
    SettledEmpty(c, With(s2, t, x2), t);
    var x3 := TrackerState(Serving(assets), map[], []);
    assert x2.watched - {} == x3.watched;
    WithTwice(s2, t, x2, x3);
    To(c, s, With(s2, t, x2), TrackerSettle(t), With(s2, t, x3));
    LearnsAssets(c, With(s2, t, x3), assets);
    To(c, s, With(s2, t, x3), StateTake(0), With(s.(currencies := s.currencies + assets), t, x3));
  }

  function Connecteds(c: Config, reports: seq<NodeReport>, k: nat, s: World): World
    requires k <= |c.chains| == |reports|
  {
    s.(currencies := Currencies(c.chains, reports, k), trackers := Trackers(c.chains, reports, k))
  }

  lemma OneMoreUp(c: Config, reports: seq<NodeReport>, k: nat)
    requires 0 < k <= |c.chains| == |reports|
    ensures Learned(c.chains, reports, k - 1).None? ==> Trackers(c.chains, reports, k) == Trackers(c.chains, reports, k - 1)
    ensures Learned(c.chains, reports, k - 1).Some? ==>
              Trackers(c.chains, reports, k)
              == Trackers(c.chains, reports, k - 1)[k - 1 := TrackerState(Serving(Learned(c.chains, reports, k - 1).value), map[], [])]
    ensures Trackers(c.chains, reports, k - 1)[k - 1] == Fresh()
  {
    hide Learned;
  }

  lemma NextConnects(c: Config, reports: seq<NodeReport>, k: nat, s: World)
    requires c.capacity > 0 && 0 < k <= |c.chains| == |reports| && Resting(c, reports, 0, s)
    ensures CanReach(c, Connecteds(c, reports, k - 1, s), Connecteds(c, reports, k, s))
  {
    OneMoreUp(c, reports, k);
    hide CanReach, Prepare, Trackers, Route;
    var m := Connecteds(c, reports, k - 1, s);
    if Learned(c.chains, reports, k - 1).None? {
      Here(c, m);
    } else {
      OneConnects(c, m, k - 1, reports[k - 1]);
    }
  }

  lemma {:induction false} ChainsConnect(c: Config, reports: seq<NodeReport>, k: nat, s: World)
    requires c.capacity > 0 && k <= |c.chains| == |reports| && Resting(c, reports, 0, s)
    ensures CanReach(c, s, Connecteds(c, reports, k, s))
  {
    hide CanReach, Trackers;
    if k == 0 {
      Here(c, s);
    } else {
      ChainsConnect(c, reports, k - 1, s);
      NextConnects(c, reports, k, s);
      hide Connecteds;
      Onward(c, s, Connecteds(c, reports, k - 1, s), Connecteds(c, reports, k, s));
    }
  }

  // --- Lives of the daemon ---

  /** A daemon that has read this restore list and whose chains have connected. */
  function Up(c: Config, reports: seq<NodeReport>, d: Durable, list: seq<(Id, OrderInfo)>): World
    requires |c.chains| == |reports|
  {
    Connecteds(c, reports, |c.chains|, Started(c, d).(ctl := Idle, restore := list, booted := list))
  }

  lemma ComesUp(c: Config, reports: seq<NodeReport>, d: Durable, list: seq<(Id, OrderInfo)>)
    requires c.capacity > 0 && |c.chains| == |reports| && ListsPending(d.db, list)
    ensures CanReach(c, Started(c, d), Up(c, reports, d, list))
  {
    var s0 := Started(c, d);
    var s1 := s0.(ctl := Idle, restore := list, booted := list);
    Here(c, s0);
    Boots(c, s0, list);
    hide CanReach, Enabled, Apply, ListsPending;
    To(c, s0, s0, Boot(list), s1);
    assert s1.trackers == Trackers(c.chains, reports, 0);
    ChainsConnect(c, reports, |c.chains|, s1);
    Onward(c, s0, s1, Up(c, reports, d, list));
  }

  lemma Boots(c: Config, s: World, list: seq<(Id, OrderInfo)>)
    requires s.ctl.Booting? && ListsPending(s.d.db, list)
    ensures Enabled(c, s, Boot(list)) && Apply(c, s, Boot(list)) == s.(ctl := Idle, restore := list, booted := list)
  {
  }

  /** What the database keeps of a request. */
  function Stored(c: Config, assets: Assets, d: Durable, q: OrderQuery): Durable
    requires q.currency in assets
  {
    var currency := assets[q.currency].Info(q.currency);
    var account := c.toBase58(c.account(c.recipient, q.order), currency.ss58);
    var r := CreateOrder(d.db, q.order, q, currency, account, DeathAt(0, c.lifetime)).1;
    if r.Collision? then d else StoreVersion(d, q.order, r.info)
  }

  /** A client's request is stored; on a known order the State handler is idle again. */
  lemma Asks(c: Config, s: World, q: OrderQuery) returns (s': World)
    requires c.capacity > 0 && s.ctl.Idle? && s.stateQ == [] && q.currency in s.currencies
    ensures CanReach(c, s, s') && s'.d == Stored(c, s.currencies, s.d, q)
    ensures q.order in s.d.db ==> s' == s.(d := s'.d)
  {
    Here(c, s);
    var s1 := s.(stateQ := [CreateInvoice(q)]);
    assert Apply(c, s, ClientCreate(q)) == s1 by {
      assert [] + [CreateInvoice(q)] == [CreateInvoice(q)];
    }
    Then(c, s, s, ClientCreate(q));
    s' := TakeCreate(c, s, q, 0);
    Takes(c, s1, q);
    hide CanReach, Apply, Enabled, TakeCreate;
    To(c, s, s1, StateTake(0), s');
    Creates(c, s, q);
  }

  lemma Takes(c: Config, s: World, q: OrderQuery)
    requires s.ctl.Idle? && s.stateQ == [CreateInvoice(q)]
    ensures Enabled(c, s, StateTake(0)) && Apply(c, s, StateTake(0)) == TakeCreate(c, s.(stateQ := []), q, 0)
  {
    hide TakeCreate;
    assert s.stateQ[1..] == [];
  }

  lemma Creates(c: Config, s: World, q: OrderQuery)
    requires q.currency in s.currencies
    ensures var s' := TakeCreate(c, s, q, 0);
            s'.d == Stored(c, s.currencies, s.d, q) && (q.order in s.d.db ==> s' == s.(d := s'.d))
  {
    hide WatchOf, StoreVersion, ValidUtf8;
  }

  /** One request in a life of its own: the daemon comes up, stores it, and crashes. */
  lemma OneLife(c: Config, reports: seq<NodeReport>, d: Durable, list: seq<(Id, OrderInfo)>, q: OrderQuery)
    requires c.capacity > 0 && |c.chains| == |reports| && ListsPending(d.db, list)
    requires q.currency in Currencies(c.chains, reports, |c.chains|)
    ensures CanReach(c, Started(c, d), Started(c, Stored(c, Currencies(c.chains, reports, |c.chains|), d, q)))
  {
    hide CanReach, ListsPending, Currencies, Stored, Enabled, Apply;
    ComesUp(c, reports, d, list);
    var s := Up(c, reports, d, list);
    var s' := Asks(c, s, q);
    Onward(c, Started(c, d), s, s');
    Crashes(c, s');
    To(c, Started(c, d), s', Crash, Started(c, s'.d));
  }

  lemma Crashes(c: Config, s: World)
    ensures Enabled(c, s, Crash) && Apply(c, s, Crash) == Started(c, s.d)
  {
  }

  // --- The requests for one order ---

  /** What is stored after these requests, and nothing else. */
  function After(c: Config, assets: Assets, qs: seq<OrderQuery>): Durable
    requires forall q :: q in qs ==> q.currency in assets
  {
    if |qs| == 0 then NothingYet() else Stored(c, assets, After(c, assets, qs[..|qs| - 1]), qs[|qs| - 1])
  }

  ghost predicate ForOneOrder(assets: Assets, id: Id, qs: seq<OrderQuery>) {
    forall q :: q in qs ==> q.order == id && q.currency in assets
  }

  /** What a request asks for. */
  function TermsOf(c: Config, assets: Assets, q: OrderQuery): (Text, u128)
    requires q.currency in assets
  {
    (q.currency, c.units(q.amount, assets[q.currency].decimals))
  }

  /** The one order is pending, with the terms of the last request and its own account. */
  ghost predicate PendingAs(c: Config, assets: Assets, id: Id, q: OrderQuery, d: Durable)
    requires q.currency in assets
  {
    && d.db.Keys == {id} && d.db[id].paymentStatus.Pending?
    && c.fromBase58(d.db[id].paymentAccount) == Some(c.account(c.recipient, id))
    && Terms(c, d.db[id]) == TermsOf(c, assets, q)
    && d.evidence == {} && d.issued == [] && d.started == []
  }

  lemma StoredIsPending(c: Config, assets: Assets, id: Id, q: OrderQuery, q': OrderQuery, d: Durable)
    requires c.Valid() && q.order == q'.order == id && q.currency in assets && q'.currency in assets
    requires d == NothingYet() || PendingAs(c, assets, id, q, d)
    ensures PendingAs(c, assets, id, q', Stored(c, assets, d, q'))
  {
    hide ValidUtf8, Acceptable;
  }

  lemma {:induction false} AfterIsPending(c: Config, assets: Assets, id: Id, qs: seq<OrderQuery>)
    requires c.Valid() && ForOneOrder(assets, id, qs) && |qs| > 0
    ensures PendingAs(c, assets, id, qs[|qs| - 1], After(c, assets, qs))
  {
    var front, q := qs[..|qs| - 1], qs[|qs| - 1];
    hide PendingAs, Stored, Config.Valid;
    if |front| == 0 {
      StoredIsPending(c, assets, id, q, q, NothingYet());
    } else {
      AfterIsPending(c, assets, id, front);
      StoredIsPending(c, assets, id, front[|front| - 1], q, After(c, assets, front));
    }
  }

  /** The restore list after these requests. */
  function ListAfter(id: Id, d: Durable): seq<(Id, OrderInfo)> {
    if id in d.db then [(id, d.db[id])] else []
  }

  lemma ListsAfter(c: Config, assets: Assets, id: Id, qs: seq<OrderQuery>)
    requires c.Valid() && ForOneOrder(assets, id, qs)
    ensures ListsPending(After(c, assets, qs).db, ListAfter(id, After(c, assets, qs)))
  {
    if |qs| > 0 {
      AfterIsPending(c, assets, id, qs);
      hide After, Stored, ValidUtf8, TermsOf, Terms;
    }
  }

  /** Each request in a life of its own. */
  lemma {:induction false} Lives(c: Config, reports: seq<NodeReport>, id: Id, qs: seq<OrderQuery>)
    requires c.Valid() && |c.chains| == |reports| && ForOneOrder(Currencies(c.chains, reports, |c.chains|), id, qs)
    ensures CanReach(c, Init(c), Started(c, After(c, Currencies(c.chains, reports, |c.chains|), qs)))
  {
    if |qs| == 0 {
      Here(c, Init(c));
    } else {
      var assets := Currencies(c.chains, reports, |c.chains|);
      var front, q := qs[..|qs| - 1], qs[|qs| - 1];
      Lives(c, reports, id, front);
      ListsAfter(c, assets, id, front);
      hide CanReach, Currencies, Stored, ListsPending, ListAfter;
      var d := After(c, assets, front);
      OneLife(c, reports, d, ListAfter(id, d), q);
      Onward(c, Init(c), Started(c, d), Started(c, After(c, assets, qs)));
    }
  }

  /** With the State handler idle, further requests change the record and nothing else. */
  lemma {:induction false} Changes(c: Config, s: World, id: Id, qs: seq<OrderQuery>, n: nat)
    requires c.Valid() && 0 < n <= |qs| && ForOneOrder(s.currencies, id, qs)
    requires s.ctl.Idle? && s.stateQ == [] && s.d == After(c, s.currencies, qs[..n])
    ensures CanReach(c, s, s.(d := After(c, s.currencies, qs)))
    decreases |qs| - n
  {
    hide CanReach, Stored;
    AfterIsPending(c, s.currencies, id, qs[..n]);
    if n == |qs| {
      assert qs[..n] == qs;
      Here(c, s);
    } else {
      var s' := Asks(c, s, qs[n]);
      assert qs[..n + 1][..n] == qs[..n];
      Changes(c, s', id, qs, n + 1);
      hide After;
      Onward(c, s, s', s.(d := After(c, s.currencies, qs)));
    }
  }

  // --- The restore task has an order watched ---

  lemma Submits(c: Config, s: World, id: Id, o: OrderInfo, w: Watch)
    requires c.capacity > 0 && s.restore == [(id, o)] && !s.restoreWaits && s.mctl.Ready? && s.managerQ == []
    requires WatchOf(c, id, o, RestoreTask) == Some(w)
    ensures Enabled(c, s, RestoreSend)
    ensures Apply(c, s, RestoreSend)
         == s.(restore := [], managerQ := [MWatch(w)], restoreWaits := true, submitted := s.submitted + [w])
  {
    hide WatchOf;
    assert [] + [MWatch(w)] == [MWatch(w)];
    assert s.restore[1..] == [];
  }

  function RequestIn(m: ManagerMsg): TrackerMsg
    requires !m.MShutdown?
  {
    if m.MWatch? then TWatch(m.w) else TReap(m.w)
  }

  lemma Picks(c: Config, s: World, m: ManagerMsg, t: nat)
    requires s.mctl.Ready? && s.managerQ == [m] && !m.MShutdown? && Route(c.chains, m.w.currency) == Some(t)
    ensures Enabled(c, s, ManagerTake)
    ensures Apply(c, s, ManagerTake) == s.(managerQ := [], mctl := Forwarding(t, RequestIn(m)))
  {
    hide Route;
    assert s.managerQ[1..] == [];
  }

  lemma Forwards(c: Config, s: World, t: nat, m: TrackerMsg)
    requires c.capacity > 0 && t < |s.trackers| && s.mctl == Forwarding(t, m)
    requires !s.trackers[t].phase.Ended? && s.trackers[t].queue == []
    ensures Enabled(c, s, ManagerForward)
    ensures Apply(c, s, ManagerForward) == With(s.(mctl := Ready), t, s.trackers[t].(queue := [m]))
  {
    assert [] + [m] == [m];
  }

  lemma Resumes(c: Config, s: World)
    requires s.restoreWaits && s.replies == {RestoreTask}
    ensures Enabled(c, s, RestoreResume) && Apply(c, s, RestoreResume) == s.(restoreWaits := false, replies := {})
  {
  }

  lemma RestoreWatches(c: Config, s: World, t: nat, o: OrderInfo, w: Watch, assets: Assets)
    requires c.capacity > 0 && s.restore == [(w.id, o)] && !s.restoreWaits && s.mctl.Ready? && s.managerQ == []
    requires s.replies == {} && w.caller.RestoreTask? && WatchOf(c, w.id, o, RestoreTask) == Some(w)
    requires Route(c.chains, w.currency) == Some(t) && t < |s.trackers|
    requires s.trackers[t] == TrackerState(Serving(assets), map[], [])
    ensures CanReach(c, s, With(s.(restore := [], submitted := s.submitted + [w]), t,
                                TrackerState(Serving(assets), map[w.id := FromRequest(w)], [])))
  {
    hide Route, WatchOf, CanReach, Apply, Enabled;
    Here(c, s);
    Submits(c, s, w.id, o, w);
    var s1 := s.(restore := [], managerQ := [MWatch(w)], restoreWaits := true, submitted := s.submitted + [w]);
    To(c, s, s, RestoreSend, s1);
    Picks(c, s1, MWatch(w), t);
    var s2 := s1.(managerQ := [], mctl := Forwarding(t, TWatch(w)));
    To(c, s, s1, ManagerTake, s2);
    Forwards(c, s2, t, TWatch(w));
    var s3 := s2.(mctl := Ready);
    var x3 := TrackerState(Serving(assets), map[], [TWatch(w)]);
    To(c, s, s2, ManagerForward, With(s3, t, x3));
    WatchIsServed(c, With(s3, t, x3), t, w);
    var s4 := s3.(replies := {RestoreTask});
    var x4 := TrackerState(Serving(assets), map[w.id := FromRequest(w)], []);
    WithTwice(s4, t, x3, x4);
    To(c, s, With(s3, t, x3), TrackerTake(t, Process(0)), With(s4, t, x4));
    Resumes(c, With(s4, t, x4));
    To(c, s, With(s4, t, x4), RestoreResume,
       With(s.(restore := [], submitted := s.submitted + [w]), t, x4));
  }

  // --- A block covers a watched order ---

  /** In every block of every chain every account holds exactly this much of everything, and was sent something. */
  ghost predicate HoldsExactly(c: Config, amount: u128) {
    forall t: nat, at: nat :: Holds(c.block(t, at), amount)
  }

  ghost predicate Holds(b: BlockData, amount: u128) {
    b.eventsReadable && (forall a: Account :: b.transferred(a)) && (forall a: Account, x :: b.balance(a, x) == amount)
  }

  /** A chain history in which every account holds this amount of everything, in every block. */
  function Flat(amount: u128): (nat, nat) -> BlockData {
    (t, at) => BlockData((a, x) => amount, true, a => true)
  }

  lemma FlatHolds(c: Config, amount: u128)
    requires c.Valid()
    ensures c.(block := Flat(amount)).Valid() && HoldsExactly(c.(block := Flat(amount)), amount)
  {
    hide Acceptable;
  }

  /** A transfer and the deadline test each find the invoice covered, exactly: two reports. */
  function PaidVisit(i: Invoice): Visit {
    Visit(true, Some(i.amount), true, Some(i.amount))
  }

  function Sight(t: nat, assets: Assets, i: Invoice): Evidence {
    Evidence(t, 0, AssetOf(assets, i.currency), i, i.amount)
  }

  function Seen(d: Durable, e: Evidence): Durable {
    d.(evidence := d.evidence + {e})
  }

  function Round(assets: Assets, i: Invoice, todo: set<Id>, reports: seq<Id>, removals: set<Id>): TrackerState {
    TrackerState(Checking(assets, true, 0, todo, reports, removals), map[i.id := i], [])
  }

  lemma InvoiceIsVisited(c: Config, s: World, t: nat, assets: Assets, i: Invoice)
    requires t < |s.trackers| && s.trackers[t] == Round(assets, i, {i.id}, [], {})
    requires i.currency in assets && HoldsExactly(c, i.amount)
    ensures Enabled(c, s, TrackerVisit(t, i.id, 0, PaidVisit(i)))
    ensures Apply(c, s, TrackerVisit(t, i.id, 0, PaidVisit(i)))
         == With(s.(d := Seen(s.d, Sight(t, assets, i))), t, Round(assets, i, {}, [i.id, i.id], {i.id}))
  {
    assert Holds(c.block(t, 0), i.amount);
    hide HoldsExactly, AssetOf;
    assert Repeat(i.id, 2) == [i.id, i.id];
    assert {i.id} - {i.id} == {} && {} + {i.id} == {i.id};
    assert EvidenceOf(t, 0, AssetOf(assets, i.currency), i, PaidVisit(i)) == {Sight(t, assets, i)};
  }

  lemma BlockNotices(c: Config, s: World, t: nat, assets: Assets, i: Invoice)
    requires c.capacity > 0 && t < |s.trackers| && s.trackers[t] == TrackerState(Serving(assets), map[i.id := i], [])
    requires i.currency in assets && HoldsExactly(c, i.amount)
    ensures CanReach(c, s, With(s.(d := Seen(s.d, Sight(t, assets, i))), t, Round(assets, i, {}, [i.id, i.id], {i.id})))
  {
    assert Holds(c.block(t, 0), i.amount);
    hide CanReach, Apply, Enabled, HoldsExactly;
    Here(c, s);
    BlockComes(c, s, t);
    var x1 := TrackerState(Serving(assets), map[i.id := i], [TNewBlock]);
    assert [] + [TNewBlock] == [TNewBlock];
    To(c, s, s, BlockArrives(t), With(s, t, x1));
    BlockIsTaken(c, With(s, t, x1), t);
    var x2 := Round(assets, i, {i.id}, [], {});
    assert x1.watched.Keys == {i.id};
    WithTwice(s, t, x1, x2);
    To(c, s, With(s, t, x1), TrackerTake(t, Process(0)), With(s, t, x2));
    InvoiceIsVisited(c, With(s, t, x2), t, assets, i);
    var s3 := s.(d := Seen(s.d, Sight(t, assets, i)));
    var x3 := Round(assets, i, {}, [i.id, i.id], {i.id});
    WithTwice(s3, t, x2, x3);
    To(c, s, With(s, t, x2), TrackerVisit(t, i.id, 0, PaidVisit(i)), With(s3, t, x3));
  }

  lemma TakesPaid(c: Config, s: World, id: Id, w: Watch)
    requires s.ctl.Idle? && s.stateQ == [OrderPaid(id)]
    requires id in s.d.db && s.d.db[id].paymentStatus.Pending?
    requires WatchOf(c, id, s.d.db[id].(paymentStatus := Paid), StateTask) == Some(w)
    ensures Enabled(c, s, StateTake(0))
    ensures Apply(c, s, StateTake(0)) == s.(stateQ := [], d := StorePaid(s.d, id), ctl := Sending(MReap(w)))
  {
    hide WatchOf, MarkPaid, TakePaid, StorePaid;
    assert s.stateQ[1..] == [];
    PaidShape(c, s.(stateQ := []), id);
  }

  /** The first of two reports is sent and the State handler records the payment. */
  lemma NoticeIsRecorded(c: Config, s: World, t: nat, assets: Assets, i: Invoice, w: Watch)
    requires c.capacity > 0 && t < |s.trackers| && s.trackers[t] == Round(assets, i, {}, [i.id, i.id], {i.id})
    requires s.ctl.Idle? && s.stateQ == [] && i.id in s.d.db && s.d.db[i.id].paymentStatus.Pending?
    requires WatchOf(c, i.id, s.d.db[i.id].(paymentStatus := Paid), StateTask) == Some(w)
    ensures CanReach(c, s, With(s.(d := StorePaid(s.d, i.id), ctl := Sending(MReap(w))), t,
                                Round(assets, i, {}, [i.id], {i.id})))
  {
    hide CanReach, WatchOf, StorePaid, Apply, Enabled;
    Here(c, s);
    ReportIsSent(c, s, t);
    var x1 := Round(assets, i, {}, [i.id], {i.id});
    assert [i.id, i.id][1..] == [i.id];
    assert [] + [OrderPaid(i.id)] == [OrderPaid(i.id)];
    var s1 := With(s.(stateQ := [OrderPaid(i.id)]), t, x1);
    To(c, s, s, TrackerReport(t), s1);
    TakesPaid(c, s1, i.id, w);
    To(c, s, s1, StateTake(0), With(s.(d := StorePaid(s.d, i.id), ctl := Sending(MReap(w))), t, x1));
  }

  // --- A whole run ---

  /** The currency is routed to a chain that connects and knows it. */
  ghost predicate Offered(chains: seq<Chain>, reports: seq<NodeReport>, t: nat, n: Text)
    requires |chains| == |reports|
  {
    && Route(chains, n) == Some(t) && t < |chains|
    && Learned(chains, reports, t).Some? && n in Learned(chains, reports, t).value
  }

  /** The order paid, its payout about to be requested, and the tracker's second report still unsent. */
  ghost predicate JustPaid(s: World, d: Durable, t: nat, assets: Assets, i: Invoice, w: Watch) {
    && s.d == d && s.ctl == Sending(MReap(w)) && s.stateQ == []
    && s.mctl.Ready? && s.managerQ == [] && s.replies == {} && s.tasks == []
    && t < |s.trackers| && s.trackers[t] == Round(assets, i, {}, [i.id], {i.id})
  }

  /** What the restore task asks to be watched, and what the State handler asks to be paid out. */
  lemma Restored(c: Config, assets: Assets, id: Id, q: OrderQuery, d: Durable) returns (w: Watch)
    requires q.currency in assets && PendingAs(c, assets, id, q, d)
    ensures WatchOf(c, id, d.db[id], RestoreTask) == Some(w)
    ensures w.id == id && w.caller.RestoreTask? && w.currency == q.currency && (w.currency, w.amount) == TermsOf(c, assets, q)
    ensures ListAfter(id, d) == [(id, d.db[id])]
  {
    w := WatchOf(c, id, d.db[id], RestoreTask).value;
  }

  lemma Reaped(c: Config, assets: Assets, id: Id, q: OrderQuery, d: Durable) returns (w: Watch)
    requires q.currency in assets && PendingAs(c, assets, id, q, d)
    ensures id in d.db && d.db[id].paymentStatus.Pending?
    ensures WatchOf(c, id, d.db[id].(paymentStatus := Paid), StateTask) == Some(w)
    ensures w.id == id && w.caller.StateTask? && w.currency == q.currency
  {
    w := WatchOf(c, id, d.db[id].(paymentStatus := Paid), StateTask).value;
  }

  lemma UpServes(c: Config, reports: seq<NodeReport>, t: nat)
    requires t < |c.chains| == |reports| && Learned(c.chains, reports, t).Some?
    ensures var ts := Trackers(c.chains, reports, |c.chains|);
            t < |ts| && ts[t] == TrackerState(Serving(Learned(c.chains, reports, t).value), map[], [])
  {
    hide Learned;
  }

  /** A daemon comes up, and has the order watched as it is. */
  lemma WatchedAgain(c: Config, reports: seq<NodeReport>, d: Durable, t: nat, o: OrderInfo, v: Watch) returns (s: World)
    requires c.capacity > 0 && |c.chains| == |reports| && Offered(c.chains, reports, t, v.currency)
    requires ListsPending(d.db, [(v.id, o)]) && v.caller.RestoreTask? && WatchOf(c, v.id, o, RestoreTask) == Some(v)
    ensures CanReach(c, Started(c, d), s)
    ensures s == Up(c, reports, d, [(v.id, o)]).(restore := [], submitted := [v], trackers := s.trackers)
    ensures t < |s.trackers|
            && s.trackers[t] == TrackerState(Serving(Learned(c.chains, reports, t).value), map[v.id := FromRequest(v)], [])
  {
    hide CanReach, ListsPending, Learned, Trackers, Currencies, Route, WatchOf;
    var list := [(v.id, o)];
    var assets := Learned(c.chains, reports, t).value;
    var u := Up(c, reports, d, list);
    ComesUp(c, reports, d, list);
    UpServes(c, reports, t);
    RestoreWatches(c, u, t, o, v, assets);
    assert [] + [v] == [v];
    s := With(u.(restore := [], submitted := [v]), t, TrackerState(Serving(assets), map[v.id := FromRequest(v)], []));
    Onward(c, Started(c, d), u, s);
  }

  /** A watched order, the State handler idle: a block covers it, and the payment is recorded. */
  lemma GetsPaid(c: Config, s: World, t: nat, assets: Assets, i: Invoice, w: Watch) returns (s': World)
    requires c.capacity > 0 && t < |s.trackers| && s.trackers[t] == TrackerState(Serving(assets), map[i.id := i], [])
    requires i.currency in assets && HoldsExactly(c, i.amount)
    requires s.ctl.Idle? && s.stateQ == [] && i.id in s.d.db && s.d.db[i.id].paymentStatus.Pending?
    requires WatchOf(c, i.id, s.d.db[i.id].(paymentStatus := Paid), StateTask) == Some(w)
    ensures CanReach(c, s, s')
    ensures s' == With(s.(d := StorePaid(Seen(s.d, Sight(t, assets, i)), i.id), ctl := Sending(MReap(w))), t,
                       Round(assets, i, {}, [i.id], {i.id}))
  {
    hide CanReach, WatchOf, StorePaid, HoldsExactly;
    BlockNotices(c, s, t, assets, i);
    var x2, x3 := Round(assets, i, {}, [i.id, i.id], {i.id}), Round(assets, i, {}, [i.id], {i.id});
    var s2 := With(s.(d := Seen(s.d, Sight(t, assets, i))), t, x2);
    NoticeIsRecorded(c, s2, t, assets, i, w);
    var s3 := s.(d := StorePaid(Seen(s.d, Sight(t, assets, i)), i.id), ctl := Sending(MReap(w)));
    WithTwice(s3, t, x2, x3);
    s' := With(s3, t, x3);
    Onward(c, s, s2, s');
  }

  /**
   * The requests up to number n arrive, each in a life of its own; in the last life the restore task
   * has the order watched as it then is, the other requests arrive, and a block covers what is watched.
   */
  lemma PaidRun(c: Config, reports: seq<NodeReport>, id: Id, qs: seq<OrderQuery>, n: nat, t: nat)
    returns (s: World, i: Invoice, w: Watch)
    requires c.Valid() && |c.chains| == |reports| && ForOneOrder(Currencies(c.chains, reports, |c.chains|), id, qs)
    requires n < |qs| && Offered(c.chains, reports, t, qs[n].currency)
    requires HoldsExactly(c, TermsOf(c, Currencies(c.chains, reports, |c.chains|), qs[n]).1)
    ensures CanReach(c, Init(c), s)
    ensures var all := Currencies(c.chains, reports, |c.chains|);
            var assets := Learned(c.chains, reports, t).value;
            && i.id == id && (i.currency, i.amount) == TermsOf(c, all, qs[n])
            && w.id == id && w.caller.StateTask? && w.currency == qs[|qs| - 1].currency
            && JustPaid(s, StorePaid(Seen(After(c, all, qs), Sight(t, assets, i)), id), t, assets, i, w)
  {
    hide CanReach, JustPaid, After, ListsPending, HoldsExactly, Learned, Currencies, Route, WatchOf, StorePaid, Stored,
      TermsOf, Acceptable, ListAfter;
    var all := Currencies(c.chains, reports, |c.chains|);
    var assets := Learned(c.chains, reports, t).value;
    var d := After(c, all, qs[..n + 1]);
    Lives(c, reports, id, qs[..n + 1]);
    ListsAfter(c, all, id, qs[..n + 1]);
    AfterIsPending(c, all, id, qs[..n + 1]);
    var v := Restored(c, all, id, qs[n], d);
    i := FromRequest(v);
    w := Reaped(c, all, id, qs[|qs| - 1], After(c, all, qs)) by {
      AfterIsPending(c, all, id, qs);
    }
    s := FinalLife(c, reports, id, qs, n, t, v, w);
    Onward(c, Init(c), Started(c, d), s);
  }

  lemma FinalLife(c: Config, reports: seq<NodeReport>, id: Id, qs: seq<OrderQuery>, n: nat, t: nat, v: Watch, w: Watch)
    returns (s: World)
    requires c.Valid() && |c.chains| == |reports| && ForOneOrder(Currencies(c.chains, reports, |c.chains|), id, qs)
    requires n < |qs| && v.id == w.id == id && v.caller.RestoreTask? && Offered(c.chains, reports, t, v.currency)
    requires HoldsExactly(c, v.amount)
    requires var d := After(c, Currencies(c.chains, reports, |c.chains|), qs[..n + 1]);
             && id in d.db && ListsPending(d.db, [(id, d.db[id])])
             && WatchOf(c, id, d.db[id], RestoreTask) == Some(v)
    requires var d := After(c, Currencies(c.chains, reports, |c.chains|), qs);
             && id in d.db && d.db[id].paymentStatus.Pending?
             && WatchOf(c, id, d.db[id].(paymentStatus := Paid), StateTask) == Some(w)
    ensures var all := Currencies(c.chains, reports, |c.chains|);
            var assets := Learned(c.chains, reports, t).value;
            var i := FromRequest(v);
            && CanReach(c, Started(c, After(c, all, qs[..n + 1])), s)
            && JustPaid(s, StorePaid(Seen(After(c, all, qs), Sight(t, assets, i)), id), t, assets, i, w)
  {
    hide CanReach, After, ListsPending, HoldsExactly, Learned, Currencies, Route, WatchOf, StorePaid, Trackers, Acceptable;
    var all := Currencies(c.chains, reports, |c.chains|);
    var assets := Learned(c.chains, reports, t).value;
    var d := After(c, all, qs[..n + 1]);
    var s1 := WatchedAgain(c, reports, d, t, d.db[id], v);
    Changes(c, s1, id, qs, n + 1);
    var s2 := s1.(d := After(c, all, qs));
    Onward(c, Started(c, d), s1, s2);
    s := GetsPaid(c, s2, t, assets, FromRequest(v), w);
    Onward(c, Started(c, d), s2, s);
  }
}
