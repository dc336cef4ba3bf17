// Where the balances that make orders paid were seen: on the chain that is configured for the
// currency, and in the asset that is configured for it; and that no other currency is accepted.
module Sightings {
  import opened Definitions
  import opened Ledger
  import opened Chains
  import opened Watching
  import opened Protocol
  import Safety

  /** The chain is configured with this currency; without a native token, under this asset id. */
  ghost predicate ConfiguredAs(chain: Chain, currency: Text, asset: Option<u32>) {
    && currency in Names(chain)
    && (chain.nativeToken.None? ==>
          exists j :: 0 <= j < |chain.asset| && chain.asset[j].name == currency && asset == Some(chain.asset[j].id))
  }

  ghost predicate AssetsConfigured(chain: Chain, assets: Assets) {
    forall n :: n in assets ==> ConfiguredAs(chain, n, assets[n].assetId)
  }

  ghost predicate PhaseConfigured(chain: Chain, p: Phase) {
    p.Announcing? || p.Checking? || p.Serving? ==> AssetsConfigured(chain, p.assets)
  }

  ghost predicate SeenAsConfigured(c: Config, e: Evidence) {
    e.chain < |c.chains| && ConfiguredAs(c.chains[e.chain], e.invoice.currency, e.asset)
  }

  ghost predicate AllConfigured(c: Config, s: World) {
    && |s.trackers| == |c.chains|
    && (forall t :: 0 <= t < |s.trackers| ==> PhaseConfigured(c.chains[t], s.trackers[t].phase))
    && (forall e :: e in s.d.evidence ==> SeenAsConfigured(c, e))
  }

  lemma PreparedConfigured(chain: Chain, r: NodeReport)
    requires Prepare(chain, r).Ok?
    ensures AssetsConfigured(chain, Prepare(chain, r).value)
  {
    var all := AssetsOf(r, r.listing);
    hide AssetsOf;
    forall n | n in Prepare(chain, r).value ensures ConfiguredAs(chain, n, Prepare(chain, r).value[n].assetId) {
      assert Wanted(chain, r.specs, n, all[n]);
      if chain.nativeToken.Some? {
        assert Names(chain)[0] == n;
      } else {
        var i :| 0 <= i < |chain.asset| && chain.asset[i].name == n && Some(chain.asset[i].id) == all[n].assetId;
        assert Names(chain)[i] == n;
      }
    }
  }

  lemma EvidenceConfigured(c: Config, t: nat, p: Phase, i: Invoice, v: Visit)
    requires t < |c.chains| && p.Checking? && AssetsConfigured(c.chains[t], p.assets)
    requires Answered(c.block(t, p.at), p.assets, i, v)
    ensures forall e :: e in EvidenceOf(t, p.at, AssetOf(p.assets, i.currency), i, v) ==> SeenAsConfigured(c, e)
  {
    hide ConfiguredAs;
  }

  /** A step that adds no evidence and leaves this tracker in a phase with the same assets, or none. */
  lemma OneTrackerConfigured(c: Config, s: World, s': World, t: nat)
    requires AllConfigured(c, s) && OnlyTracker(s, s', t)
    requires PhaseConfigured(c.chains[t], s'.trackers[t].phase)
    requires forall e :: e in s'.d.evidence && e !in s.d.evidence ==> SeenAsConfigured(c, e)
    ensures AllConfigured(c, s')
  {
    hide PhaseConfigured, SeenAsConfigured;
  }

  lemma VisitConfigured(c: Config, s: World, st: Step)
    requires AllConfigured(c, s) && Enabled(c, s, st) && st.TrackerVisit?
    ensures AllConfigured(c, Apply(c, s, st))
  {
    TrackerFrame(c, s, st);
    var p := s.trackers[st.t].phase;
    assert PhaseConfigured(c.chains[st.t], p);
    EvidenceConfigured(c, st.t, p, s.trackers[st.t].watched[st.id], st.v);
    hide AllConfigured, EvidenceOf, Reports, Dropped, OnlyTracker, AssetsConfigured, SeenAsConfigured, Fetched;
    OneTrackerConfigured(c, s, Apply(c, s, st), st.t);
  }

  lemma ConnectedPhase(c: Config, s: World, t: nat, report: NodeReport)
    requires Enabled(c, s, TrackerConnect(t, report))
    ensures var s' := Apply(c, s, TrackerConnect(t, report));
            && t < |s.trackers| && t < |s'.trackers| && s'.d == s.d && t < |c.chains| && Prepare(c.chains[t], report).Ok?
            && s'.trackers[t].phase == Announcing(Prepare(c.chains[t], report).value)
  {
    hide Prepare;
  }

  lemma UnconnectedPhase(c: Config, s: World, st: Step)
    requires Enabled(c, s, st) && (st.BlockArrives? || st.TrackerQuit? || st.TrackerTimeout?)
    ensures var s' := Apply(c, s, st);
            && st.t < |s.trackers| && st.t < |s'.trackers| && s'.d == s.d
            && var p := s'.trackers[st.t].phase; p.Connecting? || p.Ended? || p == s.trackers[st.t].phase
  {
    hide CallersIn;
  }

  lemma ConnectionKept(c: Config, s: World, st: Step)
    requires AllConfigured(c, s) && Enabled(c, s, st)
    requires st.BlockArrives? || st.TrackerConnect? || st.TrackerQuit? || st.TrackerTimeout?
    ensures st.t < |s.trackers| && st.t < |Apply(c, s, st).trackers|
    ensures PhaseConfigured(c.chains[st.t], Apply(c, s, st).trackers[st.t].phase) && Apply(c, s, st).d == s.d
  {
    hide Apply, Enabled, Prepare, AssetsConfigured;
    if st.TrackerConnect? {
      ConnectedPhase(c, s, st.t, st.report);
      PreparedConfigured(c.chains[st.t], st.report);
    } else {
      UnconnectedPhase(c, s, st);
      assert PhaseConfigured(c.chains[st.t], s.trackers[st.t].phase);
    }
  }

  lemma NotifiedPhase(c: Config, s: World, st: Step)
    requires Enabled(c, s, st) && (st.TrackerAnnounce? || st.TrackerReport?)
    ensures var s' := Apply(c, s, st);
            && st.t < |s.trackers| && st.t < |s'.trackers| && s'.d == s.d
            && s'.trackers[st.t].phase.Checking? && s'.trackers[st.t].phase.assets == s.trackers[st.t].phase.assets
  {
  }

  lemma SettledPhase(c: Config, s: World, t: nat)
    requires Enabled(c, s, TrackerSettle(t))
    ensures var s' := Apply(c, s, TrackerSettle(t));
            && t < |s.trackers| && t < |s'.trackers| && s'.d == s.d
            && s'.trackers[t].phase == Serving(s.trackers[t].phase.assets)
  {
  }

  lemma RoundKept(c: Config, s: World, st: Step)
    requires AllConfigured(c, s) && Enabled(c, s, st)
    requires st.TrackerAnnounce? || st.TrackerReport? || st.TrackerSettle?
    ensures st.t < |s.trackers| && st.t < |Apply(c, s, st).trackers|
    ensures PhaseConfigured(c.chains[st.t], Apply(c, s, st).trackers[st.t].phase) && Apply(c, s, st).d == s.d
  {
    assert st.t < |s.trackers| && (s.trackers[st.t].phase.Announcing? || s.trackers[st.t].phase.Checking?);
    hide Apply, Enabled, AssetsConfigured;
    if st.TrackerSettle? {
      SettledPhase(c, s, st.t);
    } else {
      NotifiedPhase(c, s, st);
    }
    assert PhaseConfigured(c.chains[st.t], s.trackers[st.t].phase);
  }

  lemma TakenPhase(s: World, t: nat, outcome: BlockOutcome)
    requires t < |s.trackers| && s.trackers[t].phase.Serving? && |s.trackers[t].queue| > 0
    ensures var s' := TakeTrackerMsg(s, t, outcome);
            && s'.d == s.d && |s'.trackers| == |s.trackers|
            && var p := s'.trackers[t].phase;
               p.Ended? || p.Connecting? || ((p.Checking? || p.Serving?) && p.assets == s.trackers[t].phase.assets)
  {
    hide CallersIn, EndTracker;
    var x := s.trackers[t];
    EndedPhase(s.(trackers := s.trackers[t := x.(queue := x.queue[1..])]), t);
  }

  lemma EndedPhase(s: World, t: nat)
    requires t < |s.trackers|
    ensures var s' := EndTracker(s, t);
            s'.d == s.d && |s'.trackers| == |s.trackers| && s'.trackers[t].phase.Ended?
  {
    hide CallersIn;
  }

  lemma TakeKept(c: Config, s: World, st: Step)
    requires AllConfigured(c, s) && Enabled(c, s, st) && st.TrackerTake?
    ensures st.t < |Apply(c, s, st).trackers|
    ensures PhaseConfigured(c.chains[st.t], Apply(c, s, st).trackers[st.t].phase) && Apply(c, s, st).d == s.d
  {
    assert PhaseConfigured(c.chains[st.t], s.trackers[st.t].phase);
    hide AssetsConfigured, TakeTrackerMsg, AllConfigured;
    TakenPhase(s, st.t, st.outcome);
  }

  lemma TrackerStepConfigured(c: Config, s: World, st: Step)
    requires AllConfigured(c, s) && Enabled(c, s, st) && OfTrackers(st)
    ensures AllConfigured(c, Apply(c, s, st))
  {
    hide AllConfigured, Apply, Enabled, PhaseConfigured, OnlyTracker;
    if st.TrackerVisit? {
      VisitConfigured(c, s, st);
    } else {
      TrackerFrame(c, s, st);
      if st.TrackerTake? {
        TakeKept(c, s, st);
      } else if st.TrackerAnnounce? || st.TrackerReport? || st.TrackerSettle? {
        RoundKept(c, s, st);
      } else {
        ConnectionKept(c, s, st);
      }
      OneTrackerConfigured(c, s, Apply(c, s, st), st.t);
    }
  }

  /** Nobody else makes evidence or gives a tracker assets. */
  lemma StepConfigured(c: Config, s: World, st: Step)
    requires AllConfigured(c, s) && Enabled(c, s, st)
    ensures AllConfigured(c, Apply(c, s, st))
  {
    if OfTrackers(st) {
      hide Apply, Enabled, AllConfigured;
      TrackerStepConfigured(c, s, st);
    } else if st.Crash? {
      hide SeenAsConfigured;
    } else if st.StateTake? {
      TakeStateMsgFrame(c, s, st.now);
      hide TakeStateMsg, SeenAsConfigured, PhaseConfigured;
    } else {
      if OfManager(st) {
        ManagerFrame(c, s, st);
      } else if st.PayoutStart? {
        PayoutFrame(c, s, st);
      } else {
        StateFrame(c, s, st);
      }
      hide Apply, Enabled, SeenAsConfigured, PhaseConfigured;
    }
  }

  lemma {:induction false} RunsConfigured(c: Config, s: World, steps: seq<Step>, s': World)
    requires AllConfigured(c, s) && Runs(c, s, steps, s')
    ensures AllConfigured(c, s')
    decreases |steps|
  {
    if |steps| > 0 {
      StepConfigured(c, s, steps[0]);
      hide AllConfigured, Apply, Enabled;
      RunsConfigured(c, Apply(c, s, steps[0]), steps[1..], s');
    }
  }

  /**
   * Every paid order was seen paid: on a chain configured with the currency of a genuine version of
   * its record, at some block, its own account held at least that version's amount, in the asset
   * configured for the currency.
   */
  lemma PaidWasSeen(c: Config, s: World, id: Id)
    requires c.Valid() && Reachable(c, s)
    requires id in s.d.db && s.d.db[id].paymentStatus.Paid?
    ensures exists e, o :: e in s.d.evidence && (id, o) in s.d.versions
                        && (e.invoice.currency, e.invoice.amount) == Terms(c, o)
                        && SeenAsConfigured(c, e)
                        && c.block(e.chain, e.at).balance(c.account(c.recipient, id), e.asset) >= Terms(c, o).1
  {
    Safety.PaidHasEvidence(c, s, id);
    var steps :| Runs(c, Init(c), steps, s);
    assert AllConfigured(c, Init(c));
    RunsConfigured(c, Init(c), steps, s);
    hide Runs, Reachable, SeenAsConfigured;
    var e, o :| e in s.d.evidence && (id, o) in s.d.versions && Safety.InvoiceOf(c, id, o) == Some(e.invoice)
                && Safety.Observed(c, e) && e.invoice.address == c.account(c.recipient, id);
    assert (e.invoice.currency, e.invoice.amount) == Terms(c, o);
  }

  // --- Only configured currencies are accepted ---

  ghost predicate Known(c: Config, n: Text) {
    exists t :: 0 <= t < |c.chains| && n in Names(c.chains[t])
  }

  ghost predicate AssetsKnown(c: Config, assets: Assets) {
    forall n :: n in assets ==> Known(c, n)
  }

  ghost predicate QueueKnown(c: Config, q: seq<StateMsg>) {
    forall m :: m in q && m.ConnectChain? ==> AssetsKnown(c, m.assets)
  }

  ghost predicate OrdersKnown(c: Config, db: Orders) {
    forall id :: id in db ==> Known(c, db[id].currency.currency)
  }

  ghost predicate AllKnown(c: Config, s: World) {
    AssetsKnown(c, s.currencies) && QueueKnown(c, s.stateQ) && OrdersKnown(c, s.d.db)
  }

  lemma AnnouncedKnown(c: Config, s: World, t: nat)
    requires AllConfigured(c, s) && t < |s.trackers| && s.trackers[t].phase.Announcing?
    ensures AssetsKnown(c, s.trackers[t].phase.assets)
  {
    assert PhaseConfigured(c.chains[t], s.trackers[t].phase);
  }

  lemma QueueGrows(c: Config, q: seq<StateMsg>, m: StateMsg)
    requires QueueKnown(c, q) && (m.ConnectChain? ==> AssetsKnown(c, m.assets))
    ensures QueueKnown(c, q + [m])
  {
    hide AssetsKnown;
  }

  lemma AnnounceKnown(c: Config, s: World, st: Step)
    requires AllConfigured(c, s) && QueueKnown(c, s.stateQ) && Enabled(c, s, st) && (st.TrackerAnnounce? || st.TrackerReport?)
    ensures QueueKnown(c, Apply(c, s, st).stateQ)
  {
    if st.TrackerAnnounce? {
      AnnouncedKnown(c, s, st.t);
      QueueGrows(c, s.stateQ, ConnectChain(s.trackers[st.t].phase.assets));
    } else {
      QueueGrows(c, s.stateQ, OrderPaid(s.trackers[st.t].phase.reports[0]));
    }
    hide AssetsKnown, QueueKnown, AllConfigured;
  }

  lemma TakesNothingIn(s: World, t: nat, outcome: BlockOutcome)
    requires t < |s.trackers| && s.trackers[t].phase.Serving? && |s.trackers[t].queue| > 0
    ensures TakeTrackerMsg(s, t, outcome).stateQ == s.stateQ
  {
    TakeTrackerMsgFrame(s, t, outcome);
    hide TakeTrackerMsg;
  }

  lemma SameStateQ(c: Config, s: World, st: Step)
    requires Enabled(c, s, st) && OfTrackers(st) && !st.TrackerAnnounce? && !st.TrackerReport?
    ensures Apply(c, s, st).stateQ == s.stateQ
  {
    hide Prepare, EvidenceOf, Reports, Dropped, VisitAllowed, CallersIn, TakeTrackerMsg;
    if st.TrackerTake? {
      TakesNothingIn(s, st.t, st.outcome);
    }
  }

  lemma TrackerStepKnown(c: Config, s: World, st: Step)
    requires AllConfigured(c, s) && AllKnown(c, s) && Enabled(c, s, st) && OfTrackers(st)
    ensures AllKnown(c, Apply(c, s, st))
  {
    hide Apply, Enabled, AssetsKnown, QueueKnown, OrdersKnown, AllConfigured;
    TrackerFrame(c, s, st);
    if st.TrackerAnnounce? || st.TrackerReport? {
      AnnounceKnown(c, s, st);
    } else {
      SameStateQ(c, s, st);
    }
  }

  lemma StateStepKnown(c: Config, s: World, st: Step)
    requires AllKnown(c, s) && Enabled(c, s, st) && OfState(st)
    ensures AllKnown(c, Apply(c, s, st))
  {
    StateFrame(c, s, st);
    forall m: StateMsg | !m.ConnectChain? { QueueGrows(c, s.stateQ, m); }
    hide WatchOf, ListsPending, AssetsKnown, QueueKnown, OrdersKnown;
    assert QueueKnown(c, []) by { EmptyKnown(c); }
  }

  lemma EmptyKnown(c: Config)
    ensures QueueKnown(c, []) && AssetsKnown(c, map[])
  {
  }

  lemma CreatedFor(m: Orders, id: Id, q: OrderQuery, currency: CurrencyInfo, account: Text, death: u64)
    ensures var r := CreateOrder(m, id, q, currency, account, death).1; r.Collision? || r.info.currency == currency
  {
  }

  lemma CreateKnown(c: Config, s: World, q: OrderQuery, now: u64)
    requires AssetsKnown(c, s.currencies) && OrdersKnown(c, s.d.db)
    ensures OrdersKnown(c, TakeCreate(c, s, q, now).d.db)
  {
    hide WatchOf, Known, ValidUtf8, CreateOrder, DeathAt;
    if q.currency in s.currencies {
      assert Known(c, q.currency);
      var currency := s.currencies[q.currency].Info(q.currency);
      CreatedFor(s.d.db, q.order, q, currency, c.toBase58(c.account(c.recipient, q.order), currency.ss58), DeathAt(now, c.lifetime));
    }
  }

  lemma PaidKnown(c: Config, s: World, id: Id)
    requires OrdersKnown(c, s.d.db)
    ensures OrdersKnown(c, TakePaid(c, s, id).d.db)
  {
    hide WatchOf, Known, ValidUtf8;
  }

  lemma LearnedKnown(c: Config, assets: Assets, more: Assets)
    requires AssetsKnown(c, assets) && AssetsKnown(c, more)
    ensures AssetsKnown(c, assets + more)
  {
    hide Known;
  }

  lemma PoppedKnown(c: Config, q: seq<StateMsg>)
    requires QueueKnown(c, q) && |q| > 0
    ensures QueueKnown(c, q[1..]) && (q[0].ConnectChain? ==> AssetsKnown(c, q[0].assets))
  {
    hide AssetsKnown;
  }

  lemma TakeKnown(c: Config, s: World, now: u64)
    requires AllKnown(c, s) && s.ctl.Idle? && |s.stateQ| > 0
    ensures AllKnown(c, TakeStateMsg(c, s, now))
  {
    PoppedKnown(c, s.stateQ);
    hide AssetsKnown, OrdersKnown, QueueKnown, TakeCreate, TakePaid;
    var s1 := s.(stateQ := s.stateQ[1..]);
    match s.stateQ[0] {
      case ConnectChain(assets) => LearnedKnown(c, s.currencies, assets);
      case OrderPaid(id) => PaidKnown(c, s1, id); TakePaidFrame(c, s1, id);
      case CreateInvoice(q) => CreateKnown(c, s1, q, now); TakeCreateFrame(c, s1, q, now);
      case Inquiry =>
    }
  }

  lemma StepKnown(c: Config, s: World, st: Step)
    requires AllConfigured(c, s) && AllKnown(c, s) && Enabled(c, s, st)
    ensures AllKnown(c, Apply(c, s, st))
  {
    if OfTrackers(st) {
      hide Apply, Enabled, AllConfigured, AllKnown;
      TrackerStepKnown(c, s, st);
    } else if OfState(st) {
      hide Apply, Enabled, AllConfigured, AllKnown;
      StateStepKnown(c, s, st);
    } else if st.StateTake? {
      hide TakeStateMsg, AllKnown;
      TakeKnown(c, s, st.now);
    } else if st.Crash? {
      EmptyKnown(c);
      hide AssetsKnown, QueueKnown, OrdersKnown;
    } else {
      if OfManager(st) {
        ManagerFrame(c, s, st);
      } else {
        PayoutFrame(c, s, st);
      }
      hide Apply, Enabled, AssetsKnown, QueueKnown, OrdersKnown;
    }
  }

  lemma KnownAtStart(c: Config)
    ensures AllConfigured(c, Init(c)) && AllKnown(c, Init(c))
  {
  }

  /** Every order's currency is one of a configured chain, so the manager finds a tracker for it. */
  lemma OrdersAreRouted(c: Config, s: World, id: Id)
    requires AllKnown(c, s) && id in s.d.db
    ensures Route(c.chains, s.d.db[id].currency.currency).Some?
  {
    var n := s.d.db[id].currency.currency;
    assert Known(c, n);
    var t :| 0 <= t < |c.chains| && n in Names(c.chains[t]);
    RoutesIff(c.chains, n);
    NamesAreAllNames(c.chains, t, n);
  }
}
