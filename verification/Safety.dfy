// What no run can break: an order is paid out at most once, on the terms of its stored record and
// with the key of its own account; and no order becomes paid without evidence on a chain.
module Safety {
  import opened Definitions
  import opened Ledger
  import opened Chains
  import opened Watching
  import opened Protocol
  import opened Replies

  // --- The invariant ---

  function InvoiceOf(c: Config, id: Id, o: OrderInfo): Option<Invoice> {
    match WatchOf(c, id, o, StateTask)
    case None => None
    case Some(w) => Some(FromRequest(w))
  }

  /** The invoice asks for what some version of the order's record asked for. */
  ghost predicate Genuine(c: Config, d: Durable, i: Invoice) {
    exists o :: (i.id, o) in d.versions && InvoiceOf(c, i.id, o) == Some(i)
  }

  /** Some tracker fetched a balance that covers a genuine invoice of this order. */
  ghost predicate Evidenced(d: Durable, id: Id) {
    exists e :: e in d.evidence && e.invoice.id == id
  }

  function AsPending(o: OrderInfo): OrderInfo { o.(paymentStatus := Pending) }

  ghost predicate VersionsOk(c: Config, d: Durable) {
    && (forall id, o :: (id, o) in d.versions ==>
          && id in d.db && o.paymentStatus.Pending? && o.paymentAccount == d.db[id].paymentAccount
          && c.fromBase58(o.paymentAccount) == Some(c.account(c.recipient, id)))
    && (forall id :: id in d.db ==>
          (id, AsPending(d.db[id])) in d.versions && d.db[id].withdrawalStatus.Waiting?)
  }

  /** The balance is what the invoice's account held at that block in that asset, and it covers the amount. */
  ghost predicate Observed(c: Config, e: Evidence) {
    e.balance == c.block(e.chain, e.at).balance(e.invoice.address, e.asset) && e.balance >= e.invoice.amount
  }

  ghost predicate EvidenceGenuine(c: Config, d: Durable) {
    forall e :: e in d.evidence ==> Genuine(c, d, e.invoice) && Observed(c, e)
  }

  ghost predicate PaidEvidenced(d: Durable) {
    forall id :: id in d.db && d.db[id].paymentStatus.Paid? ==> Evidenced(d, id)
  }

  ghost predicate EvidenceOk(c: Config, d: Durable) {
    EvidenceGenuine(c, d) && PaidEvidenced(d)
  }

  /** The payout request carries the terms of the stored, paid record. */
  ghost predicate Faithful(c: Config, d: Durable, w: Watch) {
    w.id in d.db && d.db[w.id].paymentStatus.Paid? && WatchOf(c, w.id, d.db[w.id], StateTask) == Some(w)
  }

  ghost predicate AllFaithful(c: Config, d: Durable) {
    forall j :: 0 <= j < |d.issued| ==> Faithful(c, d, d.issued[j])
  }

  ghost predicate IssuedOnce(issued: seq<Watch>) {
    forall j, k :: 0 <= j < k < |issued| ==> issued[j].id != issued[k].id
  }

  ghost predicate StartedOnce(started: seq<Payout>) {
    forall j, k :: 0 <= j < k < |started| ==> started[j].id != started[k].id
  }

  ghost predicate FromIssued(c: Config, issued: seq<Watch>, p: Payout) {
    exists k :: 0 <= k < |issued| && p == PayoutOf(c, issued[k])
  }

  ghost predicate AllFromIssued(c: Config, issued: seq<Watch>, started: seq<Payout>) {
    forall j :: 0 <= j < |started| ==> FromIssued(c, issued, started[j])
  }

  ghost predicate PayoutsOk(c: Config, d: Durable) {
    AllFaithful(c, d) && IssuedOnce(d.issued) && StartedOnce(d.started) && AllFromIssued(c, d.issued, d.started)
  }

  ghost predicate DurableOk(c: Config, d: Durable) {
    VersionsOk(c, d) && EvidenceOk(c, d) && PayoutsOk(c, d)
  }

  /** A payout request on its way: issued, not started. */
  ghost predicate InFlight(d: Durable, w: Watch) {
    && w in d.issued && w.caller.StateTask?
    && forall j :: 0 <= j < |d.started| ==> d.started[j].id != w.id
  }

  ghost predicate CtlOk(c: Config, d: Durable, ctl: StateCtl) {
    ctl.Sending? ==>
      match ctl.m
      case MWatch(w) => Genuine(c, d, FromRequest(w))
      case MReap(w) => Faithful(c, d, w) && forall j :: 0 <= j < |d.issued| ==> d.issued[j].id != w.id
      case MShutdown => true
  }

  ghost predicate ManagerMsgOk(c: Config, d: Durable, m: ManagerMsg) {
    match m
    case MWatch(w) => Genuine(c, d, FromRequest(w))
    case MReap(w) => InFlight(d, w)
    case MShutdown => true
  }

  ghost predicate TrackerMsgOk(c: Config, d: Durable, m: TrackerMsg) {
    match m
    case TWatch(w) => Genuine(c, d, FromRequest(w))
    case TReap(w) => InFlight(d, w)
    case TNewBlock => true
    case TShutdown => true
  }

  ghost predicate PhaseOk(d: Durable, p: Phase) {
    p.Checking? ==> forall id :: id in p.reports ==> Evidenced(d, id)
  }

  ghost predicate WatchedOk(c: Config, d: Durable, watched: map<Id, Invoice>) {
    forall id :: id in watched ==> watched[id].id == id && Genuine(c, d, watched[id])
  }

  ghost predicate TrackerOk(c: Config, d: Durable, x: TrackerState) {
    && PhaseOk(d, x.phase)
    && WatchedOk(c, d, x.watched)
    && forall m :: m in x.queue ==> TrackerMsgOk(c, d, m)
  }

  ghost predicate StateQOk(d: Durable, q: seq<StateMsg>) {
    forall m :: m in q && m.OrderPaid? ==> Evidenced(d, m.id)
  }

  ghost predicate RestoreOk(d: Durable, rows: seq<(Id, OrderInfo)>) {
    forall row :: row in rows ==> row in d.versions
  }

  ghost predicate VolatileOk(c: Config, d: Durable, s: World) {
    && StateQOk(d, s.stateQ)
    && RestoreOk(d, s.restore)
    && (forall m :: m in s.managerQ ==> ManagerMsgOk(c, d, m))
    && (s.mctl.Forwarding? ==> TrackerMsgOk(c, d, s.mctl.m))
    && |s.trackers| == |c.chains|
    && (forall t :: 0 <= t < |s.trackers| ==> TrackerOk(c, d, s.trackers[t]))
    && (forall k :: 0 <= k < |s.tasks| ==> InFlight(d, s.tasks[k].w))
  }

  ghost predicate Inv(c: Config, s: World) {
    && Conserved(s)
    && DurableOk(c, s.d)
    && CtlOk(c, s.d, s.ctl)
    && VolatileOk(c, s.d, s)
  }

  // --- The durable state only grows ---

  ghost predicate Grows(d: Durable, d': Durable) {
    && d.versions <= d'.versions
    && d.evidence <= d'.evidence
    && (forall id :: id in d.db ==> id in d'.db && (d.db[id].paymentStatus.Paid? ==> d'.db[id] == d.db[id]))
    && d.issued <= d'.issued
  }

  lemma GenuineGrows(c: Config, d: Durable, d': Durable, i: Invoice)
    requires Grows(d, d') && Genuine(c, d, i)
    ensures Genuine(c, d', i)
  {
  }

  lemma MsgGrows(c: Config, d: Durable, d': Durable, m: TrackerMsg)
    requires Grows(d, d') && d'.started == d.started && TrackerMsgOk(c, d, m)
    ensures TrackerMsgOk(c, d', m)
  {
    hide InvoiceOf;
  }

  lemma TrackerGrows(c: Config, d: Durable, d': Durable, x: TrackerState)
    requires Grows(d, d') && d'.started == d.started && TrackerOk(c, d, x)
    ensures TrackerOk(c, d', x)
  {
    hide Genuine, TrackerMsgOk;
    forall id | id in x.watched ensures Genuine(c, d', x.watched[id]) {
      GenuineGrows(c, d, d', x.watched[id]);
    }
    forall m | m in x.queue ensures TrackerMsgOk(c, d', m) {
      MsgGrows(c, d, d', m);
    }
  }

  lemma VolatileGrows(c: Config, d: Durable, d': Durable, s: World)
    requires Grows(d, d') && d'.started == d.started && VolatileOk(c, d, s)
    ensures VolatileOk(c, d', s)
  {
    hide Genuine, TrackerMsgOk, TrackerOk;
    forall m | m in s.managerQ ensures ManagerMsgOk(c, d', m) {
      if m.MWatch? {
        GenuineGrows(c, d, d', FromRequest(m.w));
      }
    }
    if s.mctl.Forwarding? {
      MsgGrows(c, d, d', s.mctl.m);
    }
    forall t | 0 <= t < |s.trackers| ensures TrackerOk(c, d', s.trackers[t]) {
      TrackerGrows(c, d, d', s.trackers[t]);
    }
  }

  lemma EvidenceGrows(c: Config, d: Durable, d': Durable)
    requires Grows(d, d') && EvidenceOk(c, d)
    requires forall e :: e in d'.evidence && e !in d.evidence ==> Genuine(c, d', e.invoice) && Observed(c, e)
    requires forall id :: id in d'.db && d'.db[id].paymentStatus.Paid? ==> Evidenced(d, id)
    ensures EvidenceOk(c, d')
  {
    hide Genuine, Observed;
    forall e | e in d'.evidence ensures Genuine(c, d', e.invoice) && Observed(c, e) {
      if e in d.evidence {
        GenuineGrows(c, d, d', e.invoice);
      }
    }
    forall id | id in d'.db && d'.db[id].paymentStatus.Paid? ensures Evidenced(d', id) {
      var e :| e in d.evidence && e.invoice.id == id;
      assert e in d'.evidence;
    }
  }

  lemma FaithfulGrows(c: Config, d: Durable, d': Durable, w: Watch)
    requires Grows(d, d') && Faithful(c, d, w)
    ensures Faithful(c, d', w)
  {
  }

  lemma PayoutsGrow(c: Config, d: Durable, d': Durable)
    requires Grows(d, d') && PayoutsOk(c, d) && d'.started == d.started && d'.issued == d.issued
    ensures PayoutsOk(c, d')
  {
    hide Faithful, IssuedOnce, StartedOnce, AllFromIssued;
    forall j | 0 <= j < |d'.issued| ensures Faithful(c, d', d'.issued[j]) {
      FaithfulGrows(c, d, d', d.issued[j]);
    }
  }

  // --- The four changes of the durable state ---

  lemma StoredVersions(c: Config, d: Durable, id: Id, o: OrderInfo)
    requires VersionsOk(c, d)
    requires id in d.db ==> o.paymentAccount == d.db[id].paymentAccount
    requires o.paymentStatus.Pending? && o.withdrawalStatus.Waiting?
    requires c.fromBase58(o.paymentAccount) == Some(c.account(c.recipient, id))
    ensures VersionsOk(c, StoreVersion(d, id, o))
  {
    assert AsPending(o) == o;
  }

  lemma StoreGrows(d: Durable, id: Id, o: OrderInfo)
    requires id in d.db ==> d.db[id].paymentStatus.Pending?
    ensures Grows(d, StoreVersion(d, id, o))
  {
  }

  /** The evidence and the payouts stay what they are. */
  lemma StoredOk(c: Config, d: Durable, d': Durable)
    requires DurableOk(c, d) && VersionsOk(c, d') && Grows(d, d')
    requires d' == d.(db := d'.db, versions := d'.versions)
    requires forall id :: id in d'.db && d'.db[id].paymentStatus.Paid? ==> Evidenced(d, id)
    ensures DurableOk(c, d')
  {
    hide Genuine, Evidenced, VersionsOk, PayoutsOk, EvidenceGenuine, Grows, Observed;
    EvidenceGrows(c, d, d');
    PayoutsGrow(c, d, d');
  }

  lemma StoreEvidenced(c: Config, d: Durable, id: Id, o: OrderInfo)
    requires EvidenceOk(c, d) && o.paymentStatus.Pending?
    ensures var d' := StoreVersion(d, id, o);
            forall x :: x in d'.db && d'.db[x].paymentStatus.Paid? ==> Evidenced(d, x)
  {
    hide Evidenced, EvidenceGenuine;
  }

  lemma StoreVersionOk(c: Config, d: Durable, id: Id, o: OrderInfo)
    requires DurableOk(c, d)
    requires id in d.db ==> d.db[id].paymentStatus.Pending? && o.paymentAccount == d.db[id].paymentAccount
    requires o.paymentStatus.Pending? && o.withdrawalStatus.Waiting?
    requires c.fromBase58(o.paymentAccount) == Some(c.account(c.recipient, id))
    ensures DurableOk(c, StoreVersion(d, id, o))
    ensures Grows(d, StoreVersion(d, id, o))
  {
    hide EvidenceOk, VersionsOk, PayoutsOk, Grows, Evidenced;
    StoredVersions(c, d, id, o);
    StoreGrows(d, id, o);
    StoreEvidenced(c, d, id, o);
    StoredOk(c, d, StoreVersion(d, id, o));
  }

  function StorePaid(d: Durable, id: Id): Durable {
    d.(db := MarkPaid(d.db, id).0)
  }

  lemma PaidVersions(c: Config, d: Durable, id: Id)
    requires VersionsOk(c, d) && id in d.db && d.db[id].paymentStatus.Pending?
    ensures VersionsOk(c, StorePaid(d, id))
  {
    assert AsPending(StorePaid(d, id).db[id]) == AsPending(d.db[id]);
  }

  lemma PaidGrows(c: Config, d: Durable, id: Id)
    requires EvidenceOk(c, d) && Evidenced(d, id) && id in d.db && d.db[id].paymentStatus.Pending?
    ensures Grows(d, StorePaid(d, id)) && StorePaid(d, id) == d.(db := StorePaid(d, id).db)
    ensures var d' := StorePaid(d, id);
            forall x :: x in d'.db && d'.db[x].paymentStatus.Paid? ==> Evidenced(d, x)
  {
    hide Evidenced, EvidenceGenuine;
  }

  lemma StorePaidOk(c: Config, d: Durable, id: Id)
    requires DurableOk(c, d) && Evidenced(d, id)
    requires id in d.db && d.db[id].paymentStatus.Pending?
    ensures DurableOk(c, StorePaid(d, id)) && Grows(d, StorePaid(d, id))
    ensures StorePaid(d, id) == d.(db := StorePaid(d, id).db)
    ensures forall j :: 0 <= j < |d.issued| ==> d.issued[j].id != id
  {
    hide EvidenceOk, VersionsOk, PayoutsOk, Grows, Evidenced, StorePaid;
    PaidVersions(c, d, id);
    NotIssued(c, d, id);
    PaidGrows(c, d, id);
    StoredOk(c, d, StorePaid(d, id));
  }

  lemma NotIssued(c: Config, d: Durable, id: Id)
    requires PayoutsOk(c, d) && id in d.db && d.db[id].paymentStatus.Pending?
    ensures forall j :: 0 <= j < |d.issued| ==> d.issued[j].id != id
  {
    hide WatchOf;
    forall j | 0 <= j < |d.issued| ensures d.issued[j].id != id {
      assert Faithful(c, d, d.issued[j]);
    }
  }

  lemma NewEvidence(c: Config, t: nat, at: nat, assets: Assets, i: Invoice, v: Visit)
    requires Answered(c.block(t, at), assets, i, v)
    ensures var added := EvidenceOf(t, at, AssetOf(assets, i.currency), i, v);
            && (forall e :: e in added ==> e.invoice == i && Observed(c, e))
            && (Reports(i, v) > 0 ==> exists e :: e in added && e.invoice == i)
  {
    var asset := AssetOf(assets, i.currency);
    if v.transfer && Covers(i, v.atTransfer) {
      assert Evidence(t, at, asset, i, v.atTransfer.value) in EvidenceOf(t, at, asset, i, v);
    } else if v.due && Covers(i, v.atDue) {
      assert Evidence(t, at, asset, i, v.atDue.value) in EvidenceOf(t, at, asset, i, v);
    }
  }

  lemma AddEvidenceOk(c: Config, d: Durable, t: nat, at: nat, assets: Assets, i: Invoice, v: Visit)
    requires DurableOk(c, d) && Genuine(c, d, i) && Answered(c.block(t, at), assets, i, v)
    ensures var d' := d.(evidence := d.evidence + EvidenceOf(t, at, AssetOf(assets, i.currency), i, v));
            DurableOk(c, d') && Grows(d, d') && (Reports(i, v) > 0 ==> Evidenced(d', i.id))
  {
    var d' := d.(evidence := d.evidence + EvidenceOf(t, at, AssetOf(assets, i.currency), i, v));
    NewEvidence(c, t, at, assets, i, v);
    assert VersionsOk(c, d');
    hide Genuine, VersionsOk, EvidenceOf, Reports, PayoutsOk, EvidenceGenuine, Observed, Answered;
    assert Grows(d, d');
    GenuineGrows(c, d, d', i);
    EvidenceGrows(c, d, d');
    PayoutsGrow(c, d, d');
  }

  lemma NotStarted(c: Config, d: Durable, w: Watch)
    requires AllFromIssued(c, d.issued, d.started)
    requires forall j :: 0 <= j < |d.issued| ==> d.issued[j].id != w.id
    ensures forall j :: 0 <= j < |d.started| ==> d.started[j].id != w.id
  {
    forall j | 0 <= j < |d.started| ensures d.started[j].id != w.id {
      assert FromIssued(c, d.issued, d.started[j]);
      var k :| 0 <= k < |d.issued| && d.started[j] == PayoutOf(c, d.issued[k]);
    }
  }

  lemma FromMoreIssued(c: Config, issued: seq<Watch>, w: Watch, started: seq<Payout>)
    requires AllFromIssued(c, issued, started)
    ensures AllFromIssued(c, issued + [w], started)
  {
    hide PayoutOf;
    forall j | 0 <= j < |started| ensures FromIssued(c, issued + [w], started[j]) {
      var k :| 0 <= k < |issued| && started[j] == PayoutOf(c, issued[k]);
      assert (issued + [w])[k] == issued[k];
    }
  }

  lemma IssuePayoutsOk(c: Config, d: Durable, w: Watch)
    requires PayoutsOk(c, d) && Faithful(c, d, w)
    requires forall j :: 0 <= j < |d.issued| ==> d.issued[j].id != w.id
    ensures PayoutsOk(c, d.(issued := d.issued + [w]))
  {
    var d' := d.(issued := d.issued + [w]);
    FromMoreIssued(c, d.issued, w, d.started);
    hide Faithful, AllFromIssued, StartedOnce;
    forall j | 0 <= j < |d'.issued| ensures Faithful(c, d', d'.issued[j]) {
      FaithfulGrows(c, d, d', if j < |d.issued| then d.issued[j] else w) by {
        assert Grows(d, d');
      }
    }
  }

  lemma IssueOk(c: Config, d: Durable, w: Watch)
    requires DurableOk(c, d) && Faithful(c, d, w)
    requires forall j :: 0 <= j < |d.issued| ==> d.issued[j].id != w.id
    ensures var d' := d.(issued := d.issued + [w]);
            DurableOk(c, d') && Grows(d, d') && InFlight(d', w)
  {
    var d' := d.(issued := d.issued + [w]);
    assert VersionsOk(c, d');
    NotStarted(c, d, w);
    CallerIsKept(c, w.id, d.db[w.id], StateTask);
    hide WatchOf, Genuine, PayoutsOk, VersionsOk, EvidenceGenuine;
    assert Grows(d, d');
    assert d'.issued[|d.issued|] == w;
    EvidenceGrows(c, d, d');
    IssuePayoutsOk(c, d, w);
  }

  lemma PayoutIsOf(c: Config, w: Watch)
    ensures PayoutOf(c, w).id == w.id
  {
  }

  lemma CallerIsKept(c: Config, id: Id, o: OrderInfo, k: Caller)
    ensures WatchOf(c, id, o, k).Some? ==> WatchOf(c, id, o, k).value.caller == k && WatchOf(c, id, o, k).value.id == id
  {
  }

  lemma StartPayoutsOk(c: Config, d: Durable, w: Watch)
    requires PayoutsOk(c, d) && InFlight(d, w)
    ensures PayoutsOk(c, d.(started := d.started + [PayoutOf(c, w)]))
  {
    var d' := d.(started := d.started + [PayoutOf(c, w)]);
    PayoutIsOf(c, w);
    hide Faithful, PayoutOf, IssuedOnce, FromIssued;
    var k :| 0 <= k < |d.issued| && d.issued[k] == w;
    IssuedAt(c, d.issued, k);
    forall j | 0 <= j < |d'.issued| ensures Faithful(c, d', d'.issued[j]) {
      FaithfulGrows(c, d, d', d.issued[j]) by {
        assert Grows(d, d');
      }
    }
  }

  lemma IssuedAt(c: Config, issued: seq<Watch>, k: nat)
    requires k < |issued|
    ensures FromIssued(c, issued, PayoutOf(c, issued[k]))
  {
  }

  lemma StartOk(c: Config, d: Durable, w: Watch)
    requires DurableOk(c, d) && InFlight(d, w)
    ensures var d' := d.(started := d.started + [PayoutOf(c, w)]);
            DurableOk(c, d') && Grows(d, d')
  {
    var d' := d.(started := d.started + [PayoutOf(c, w)]);
    assert VersionsOk(c, d');
    StartPayoutsOk(c, d, w);
    hide WatchOf, Genuine, VersionsOk, EvidenceGenuine, PayoutsOk, PayoutOf, InFlight;
    assert Grows(d, d');
    EvidenceGrows(c, d, d');
  }

  // --- Steps ---

  ghost predicate Sound(c: Config, s: World) {
    DurableOk(c, s.d) && CtlOk(c, s.d, s.ctl) && VolatileOk(c, s.d, s)
  }

  /** Only the durable state and the handler's control state changed. */
  lemma StateSound(c: Config, s: World, s': World)
    requires VolatileOk(c, s'.d, s) && DurableOk(c, s'.d) && CtlOk(c, s'.d, s'.ctl)
    requires s' == s.(d := s'.d, ctl := s'.ctl)
    ensures Sound(c, s')
  {
    hide DurableOk, CtlOk, TrackerOk, StateQOk, RestoreOk, ManagerMsgOk, TrackerMsgOk, InFlight;
  }

  lemma GenuineWatch(c: Config, d: Durable, id: Id, o: OrderInfo, k: Caller)
    requires (id, o) in d.versions && WatchOf(c, id, o, k).Some?
    ensures Genuine(c, d, FromRequest(WatchOf(c, id, o, k).value))
  {
    assert InvoiceOf(c, id, o) == Some(FromRequest(WatchOf(c, id, o, k).value));
  }

  lemma VersionStoredSound(c: Config, s: World, id: Id, o: OrderInfo, ss58: u16)
    requires c.Valid() && Sound(c, s)
    requires o.paymentStatus.Pending? && o.withdrawalStatus.Waiting?
    requires if id in s.d.db
             then s.d.db[id].paymentStatus.Pending? && o.paymentAccount == s.d.db[id].paymentAccount
             else o.paymentAccount == c.toBase58(c.account(c.recipient, id), ss58)
    ensures var d' := StoreVersion(s.d, id, o);
            VolatileOk(c, d', s) && DurableOk(c, d')
  {
    hide WatchOf, CtlOk, VolatileOk;
    StoredParses(c, s.d, id, o, ss58);
    StoreVersionOk(c, s.d, id, o);
    VolatileGrows(c, s.d, StoreVersion(s.d, id, o), s);
  }

  lemma TakeCreateSound(c: Config, s: World, q: OrderQuery, now: u64)
    requires c.Valid() && Sound(c, s) && s.ctl.Idle?
    ensures Sound(c, TakeCreate(c, s, q, now))
  {
    if q.currency in s.currencies {
      var id := q.order;
      var currency := s.currencies[q.currency].Info(q.currency);
      var account := c.toBase58(c.account(c.recipient, id), currency.ss58);
      var response := CreateOrder(s.d.db, id, q, currency, account, DeathAt(now, c.lifetime)).1;
      if !response.Collision? {
        var o := response.info;
        assert id in s.d.db ==> s.d.db[id].withdrawalStatus.Waiting?;
        VersionStoredSound(c, s, id, o, currency.ss58);
        if response.New? && WatchOf(c, id, o, StateTask).Some? {
          GenuineWatch(c, StoreVersion(s.d, id, o), id, o, StateTask);
        }
        hide DurableOk, Genuine, VolatileOk, WatchOf, Sound;
        StateSound(c, s, TakeCreate(c, s, q, now));
      }
    }
  }

  /** A new record has a freshly printed account, a modified one keeps its own; either parses back. */
  lemma StoredParses(c: Config, d: Durable, id: Id, o: OrderInfo, ss58: u16)
    requires c.Valid() && VersionsOk(c, d)
    requires if id in d.db then o.paymentAccount == d.db[id].paymentAccount
             else o.paymentAccount == c.toBase58(c.account(c.recipient, id), ss58)
    ensures c.fromBase58(o.paymentAccount) == Some(c.account(c.recipient, id))
  {
    if id in d.db {
      assert (id, AsPending(d.db[id])) in d.versions;
    }
  }

  lemma PaidFaithful(c: Config, d: Durable, id: Id)
    requires id in d.db && d.db[id].paymentStatus.Pending?
    ensures var o := MarkPaid(d.db, id).1.value;
            WatchOf(c, id, o, StateTask).Some? ==> Faithful(c, StorePaid(d, id), WatchOf(c, id, o, StateTask).value)
  {
    CallerIsKept(c, id, MarkPaid(d.db, id).1.value, StateTask);
    hide WatchOf;
  }

  /** What a payment notification does: nothing, or the record is paid and a payout may follow. */
  lemma PaidShape(c: Config, s: World, id: Id)
    ensures var s' := TakePaid(c, s, id);
            if id in s.d.db && s.d.db[id].paymentStatus.Pending? then
              var o := s.d.db[id].(paymentStatus := Paid);
              && MarkPaid(s.d.db, id).1 == Ok(o)
              && s'.d == StorePaid(s.d, id)
              && s' == s.(d := s'.d, ctl := s'.ctl)
              && s'.ctl == match WatchOf(c, id, o, StateTask) case None => s.ctl case Some(w) => Sending(MReap(w))
            else s' == s
  {
    hide WatchOf;
  }

  lemma TakePaidSound(c: Config, s: World, id: Id)
    requires Sound(c, s) && s.ctl.Idle? && Evidenced(s.d, id)
    ensures Sound(c, TakePaid(c, s, id))
  {
    PaidShape(c, s, id);
    hide DurableOk, VolatileOk, WatchOf, Evidenced, TakePaid, MarkPaid, StorePaid;
    if id in s.d.db && s.d.db[id].paymentStatus.Pending? {
      var d' := StorePaid(s.d, id);
      var s' := TakePaid(c, s, id);
      StorePaidOk(c, s.d, id);
      VolatileGrows(c, s.d, d', s);
      PaidFaithful(c, s.d, id);
      CallerIsKept(c, id, s.d.db[id].(paymentStatus := Paid), StateTask);
      hide Faithful, Grows;
      assert CtlOk(c, d', s'.ctl);
      hide Sound, CtlOk;
      StateSound(c, s, s');
    }
  }

  lemma TakeStateMsgSound(c: Config, s: World, now: u64)
    requires c.Valid() && Sound(c, s) && s.ctl.Idle? && |s.stateQ| > 0
    ensures Sound(c, TakeStateMsg(c, s, now))
  {
    hide DurableOk, TakeCreate, TakePaid, TrackerOk, Genuine;
    var s1 := s.(stateQ := s.stateQ[1..]);
    assert s.stateQ[0] in s.stateQ;
    assert Sound(c, s1);
    match s.stateQ[0] {
      case ConnectChain(assets) =>
      case OrderPaid(id) => TakePaidSound(c, s1, id);
      case CreateInvoice(q) => TakeCreateSound(c, s1, q, now);
      case Inquiry =>
    }
  }

  lemma SendSound(c: Config, s: World)
    requires Sound(c, s) && s.ctl.Sending?
    ensures Sound(c, SendToManager(s))
  {
    hide DurableOk, TrackerOk, Genuine, InFlight;
    if s.ctl.m.MReap? && !s.mctl.Gone? {
      var d' := s.d.(issued := s.d.issued + [s.ctl.m.w]);
      IssueOk(c, s.d, s.ctl.m.w);
      VolatileGrows(c, s.d, d', s);
    }
  }

  lemma SubmitSound(c: Config, s: World)
    requires Sound(c, s) && |s.restore| > 0
    ensures Sound(c, SubmitRestored(c, s))
  {
    hide DurableOk, TrackerOk, InFlight;
    var (id, o) := s.restore[0];
    assert s.restore[0] in s.restore;
    var w := WatchOf(c, id, o, RestoreTask);
    if w.Some? {
      assert InvoiceOf(c, id, o) == Some(FromRequest(w.value));
      assert Genuine(c, s.d, FromRequest(w.value));
    }
  }

  lemma ManagerPopped(c: Config, s: World, s': World)
    requires Sound(c, s) && |s.managerQ| > 0
    requires s' == s.(mctl := s'.mctl, managerQ := s.managerQ[1..], replies := s'.replies)
    requires s'.mctl.Forwarding? ==> TrackerMsgOk(c, s.d, s'.mctl.m)
    ensures Sound(c, s')
  {
    hide DurableOk, TrackerOk, InFlight, CtlOk, StateQOk, RestoreOk, TrackerMsgOk, ManagerMsgOk;
  }

  lemma HeadOk(c: Config, s: World)
    requires Sound(c, s) && |s.managerQ| > 0
    ensures ManagerMsgOk(c, s.d, s.managerQ[0])
    ensures s.mctl.Forwarding? ==> TrackerMsgOk(c, s.d, s.mctl.m)
  {
    hide DurableOk, TrackerOk, InFlight, CtlOk, StateQOk, RestoreOk, TrackerMsgOk, ManagerMsgOk;
  }

  lemma TakeManagerMsgSound(c: Config, s: World)
    requires Sound(c, s) && |s.managerQ| > 0
    ensures Sound(c, TakeManagerMsg(c, s))
  {
    hide Sound, InFlight, Genuine, Route, Drained;
    HeadOk(c, s);
    ManagerPopped(c, s, TakeManagerMsg(c, s));
  }

  lemma TrackersSound(c: Config, s: World, s': World, t: nat)
    requires Sound(c, s) && s'.d == s.d && t < |s.trackers|
    requires s'.ctl == s.ctl && s'.stateQ == s.stateQ && s'.restore == s.restore && s'.managerQ == s.managerQ
    requires s'.mctl == s.mctl || !s'.mctl.Forwarding?
    requires |s'.trackers| == |s.trackers|
    requires forall u :: 0 <= u < |s.trackers| && u != t ==> s'.trackers[u] == s.trackers[u]
    requires TrackerOk(c, s.d, s'.trackers[t])
    requires forall k :: 0 <= k < |s'.tasks| ==> InFlight(s.d, s'.tasks[k].w)
    ensures Sound(c, s')
  {
    hide DurableOk, TrackerOk, InFlight, CtlOk, StateQOk, RestoreOk, ManagerMsgOk, TrackerMsgOk;
  }

  lemma EnqueueSound(c: Config, s: World, s': World, t: nat, m: TrackerMsg)
    requires Sound(c, s) && t < |s.trackers| && TrackerMsgOk(c, s.d, m)
    requires s' == s || (s' == s.(mctl := s'.mctl) && !s'.mctl.Forwarding?)
    ensures Sound(c, Enqueue(s', t, m))
  {
    assert TrackerOk(c, s.d, s.trackers[t]);
    hide DurableOk, InFlight, Genuine, VolatileOk, PhaseOk, WatchedOk, TrackerMsgOk, CtlOk;
    QueueGrowsOk(c, s.d, s.trackers[t], m);
    TasksInFlight(c, s);
    TrackersSound(c, s, Enqueue(s', t, m), t);
  }

  lemma TasksInFlight(c: Config, s: World)
    requires Sound(c, s)
    ensures |s.trackers| == |c.chains|
    ensures forall t :: 0 <= t < |s.trackers| ==> TrackerOk(c, s.d, s.trackers[t])
    ensures forall k :: 0 <= k < |s.tasks| ==> InFlight(s.d, s.tasks[k].w)
  {
  }

  lemma QueueGrowsOk(c: Config, d: Durable, x: TrackerState, m: TrackerMsg)
    requires TrackerOk(c, d, x) && TrackerMsgOk(c, d, m)
    ensures TrackerOk(c, d, x.(queue := x.queue + [m]))
  {
    hide PhaseOk, WatchedOk, TrackerMsgOk;
  }

  lemma ForwardSound(c: Config, s: World)
    requires Sound(c, s) && s.mctl.Forwarding? && s.mctl.t < |s.trackers|
    ensures Sound(c, ForwardToTracker(s))
  {
    if s.trackers[s.mctl.t].phase.Ended? {
      hide DurableOk, TrackerOk, InFlight, CtlOk, StateQOk, RestoreOk, ManagerMsgOk, TrackerMsgOk;
    } else {
      hide DurableOk, TrackerOk, TrackerMsgOk;
      EnqueueSound(c, s, s.(mctl := Ready), s.mctl.t, s.mctl.m);
    }
  }

  lemma EndTrackerSound(c: Config, s: World, t: nat)
    requires Sound(c, s) && t < |s.trackers|
    ensures Sound(c, EndTracker(s, t))
  {
    TasksInFlight(c, s);
    hide DurableOk, InFlight, Genuine, VolatileOk, CtlOk, CallersIn;
    assert TrackerOk(c, s.d, s.trackers[t].(phase := Ended, queue := []));
    TrackersSound(c, s, EndTracker(s, t), t);
  }

  /** What a visit makes of the tracker. */
  function Visited(x: TrackerState, id: Id, v: Visit): TrackerState
    requires x.phase.Checking? && id in x.watched
  {
    var i := x.watched[id];
    x.(phase := x.phase.(todo := x.phase.todo - {id}, reports := Repeat(id, Reports(i, v)),
                         removals := if Dropped(i, v) then x.phase.removals + {id} else x.phase.removals))
  }

  lemma VisitedTrackerOk(c: Config, d: Durable, x: TrackerState, id: Id, v: Visit)
    requires TrackerOk(c, d, x) && x.phase.Checking? && id in x.watched
    requires Reports(x.watched[id], v) > 0 ==> Evidenced(d, id)
    ensures TrackerOk(c, d, Visited(x, id, v))
  {
    hide WatchedOk, TrackerMsgOk, Evidenced, Reports, Dropped;
  }

  lemma WatchedGenuine(c: Config, s: World, t: nat, id: Id)
    requires Sound(c, s) && t < |s.trackers| && id in s.trackers[t].watched
    ensures s.trackers[t].watched[id].id == id && Genuine(c, s.d, s.trackers[t].watched[id])
  {
    assert TrackerOk(c, s.d, s.trackers[t]);
  }

  /** New evidence alone keeps everything sound. */
  lemma SightSound(c: Config, s: World, t: nat, at: nat, assets: Assets, i: Invoice, v: Visit)
    requires Sound(c, s) && Genuine(c, s.d, i) && Answered(c.block(t, at), assets, i, v)
    ensures var d' := s.d.(evidence := s.d.evidence + EvidenceOf(t, at, AssetOf(assets, i.currency), i, v));
            Sound(c, s.(d := d')) && (Reports(i, v) > 0 ==> Evidenced(d', i.id))
  {
    hide DurableOk, VolatileOk, CtlOk, Genuine, EvidenceOf, Reports, Evidenced, Answered, Grows;
    var d' := s.d.(evidence := s.d.evidence + EvidenceOf(t, at, AssetOf(assets, i.currency), i, v));
    AddEvidenceOk(c, s.d, t, at, assets, i, v);
    VolatileGrows(c, s.d, d', s);
    CtlGrows(c, s.d, d', s.ctl);
    StateSound(c, s, s.(d := d'));
  }

  /** The world once the visit's evidence is kept. */
  function Sighted(s: World, t: nat, id: Id, v: Visit): World
    requires t < |s.trackers| && s.trackers[t].phase.Checking? && id in s.trackers[t].watched
  {
    var p := s.trackers[t].phase;
    var i := s.trackers[t].watched[id];
    s.(d := s.d.(evidence := s.d.evidence + EvidenceOf(t, p.at, AssetOf(p.assets, i.currency), i, v)))
  }

  lemma VisitIs(s: World, t: nat, id: Id, v: Visit)
    requires t < |s.trackers| && s.trackers[t].phase.Checking? && id in s.trackers[t].watched
    ensures VisitInvoice(s, t, id, v)
         == Sighted(s, t, id, v).(trackers := s.trackers[t := Visited(s.trackers[t], id, v)])
    ensures Sighted(s, t, id, v) == s.(d := Sighted(s, t, id, v).d)
  {
    hide EvidenceOf, Reports, Dropped, Repeat, AssetOf;
  }

  lemma NewTrackerSound(c: Config, s: World, t: nat, x: TrackerState)
    requires Sound(c, s) && t < |s.trackers| && TrackerOk(c, s.d, x)
    ensures Sound(c, s.(trackers := s.trackers[t := x]))
  {
    TasksInFlight(c, s);
    hide Sound, TrackerOk, InFlight;
    TrackersSound(c, s, s.(trackers := s.trackers[t := x]), t);
  }

  lemma VisitSound(c: Config, s: World, t: nat, id: Id, v: Visit)
    requires Sound(c, s) && t < |s.trackers| && s.trackers[t].phase.Checking? && id in s.trackers[t].watched
    requires var p := s.trackers[t].phase; Answered(c.block(t, p.at), p.assets, s.trackers[t].watched[id], v)
    ensures Sound(c, VisitInvoice(s, t, id, v))
  {
    var p := s.trackers[t].phase;
    var i := s.trackers[t].watched[id];
    hide Sound, Genuine, EvidenceOf, Reports, Evidenced, TrackerOk, Answered, VisitInvoice, Visited, AssetOf;
    WatchedGenuine(c, s, t, id);
    SightSound(c, s, t, p.at, p.assets, i, v);
    var s1 := Sighted(s, t, id, v);
    VisitIs(s, t, id, v);
    SoundTracker(c, s1, t);
    VisitedTrackerOk(c, s1.d, s.trackers[t], id, v);
    NewTrackerSound(c, s1, t, Visited(s.trackers[t], id, v));
  }

  lemma SoundTracker(c: Config, s: World, t: nat)
    requires Sound(c, s) && t < |s.trackers|
    ensures TrackerOk(c, s.d, s.trackers[t])
  {
  }

  lemma CtlGrows(c: Config, d: Durable, d': Durable, ctl: StateCtl)
    requires CtlOk(c, d, ctl) && Grows(d, d') && d'.issued == d.issued
    ensures CtlOk(c, d', ctl)
  {
    hide WatchOf, InvoiceOf;
  }

  lemma OneLessReport(c: Config, d: Durable, x: TrackerState)
    requires TrackerOk(c, d, x) && x.phase.Checking? && x.phase.reports != []
    ensures Evidenced(d, x.phase.reports[0])
    ensures TrackerOk(c, d, x.(phase := x.phase.(reports := x.phase.reports[1..])))
  {
    hide WatchedOk, TrackerMsgOk, Evidenced;
    assert x.phase.reports[0] in x.phase.reports;
  }

  lemma NotifySound(c: Config, s: World, id: Id)
    requires Sound(c, s) && Evidenced(s.d, id)
    ensures Sound(c, s.(stateQ := s.stateQ + [OrderPaid(id)]))
  {
    hide DurableOk, CtlOk, TrackerOk, InFlight, Evidenced, RestoreOk, ManagerMsgOk, TrackerMsgOk;
  }

  lemma ReportSound(c: Config, s: World, t: nat)
    requires Sound(c, s) && t < |s.trackers| && s.trackers[t].phase.Checking? && s.trackers[t].phase.reports != []
    ensures Sound(c, SendReport(s, t))
  {
    TasksInFlight(c, s);
    hide Sound, TrackerOk, InFlight, Evidenced;
    var id := s.trackers[t].phase.reports[0];
    OneLessReport(c, s.d, s.trackers[t]);
    NotifySound(c, s, id);
    var s1 := if s.ctl.Stopped? then s else s.(stateQ := s.stateQ + [OrderPaid(id)]);
    TrackersSound(c, s1, SendReport(s, t), t);
  }

  lemma PoppedTrackerOk(c: Config, d: Durable, x: TrackerState)
    requires TrackerOk(c, d, x) && |x.queue| > 0
    ensures TrackerMsgOk(c, d, x.queue[0])
    ensures TrackerOk(c, d, x.(queue := x.queue[1..]))
  {
    hide WatchedOk, PhaseOk, TrackerMsgOk;
  }

  lemma AddedTrackerOk(c: Config, d: Durable, x: TrackerState, w: Watch)
    requires TrackerOk(c, d, x) && Genuine(c, d, FromRequest(w))
    ensures TrackerOk(c, d, x.(watched := x.watched[w.id := FromRequest(w)]))
  {
    hide Genuine, PhaseOk, TrackerMsgOk;
  }

  lemma NewPhaseOk(c: Config, d: Durable, x: TrackerState, p: Phase)
    requires TrackerOk(c, d, x) && (p.Checking? ==> p.reports == [])
    ensures TrackerOk(c, d, x.(phase := p))
  {
    hide WatchedOk, TrackerMsgOk;
  }

  lemma TakeBlockSound(c: Config, s: World, t: nat, outcome: BlockOutcome)
    requires Sound(c, s) && t < |s.trackers| && s.trackers[t].phase.Serving? && |s.trackers[t].queue| > 0
    requires s.trackers[t].queue[0].TNewBlock? && !outcome.Die?
    ensures Sound(c, TakeTrackerMsg(s, t, outcome))
  {
    TasksInFlight(c, s);
    hide Sound, TrackerOk, InFlight;
    var x := s.trackers[t];
    var s' := TakeTrackerMsg(s, t, outcome);
    PoppedTrackerOk(c, s.d, x);
    NewPhaseOk(c, s.d, x.(queue := x.queue[1..]), s'.trackers[t].phase);
    TrackersSound(c, s, s', t);
  }

  lemma TakeEndSound(c: Config, s: World, t: nat, outcome: BlockOutcome)
    requires Sound(c, s) && t < |s.trackers| && s.trackers[t].phase.Serving? && |s.trackers[t].queue| > 0
    requires s.trackers[t].queue[0].TShutdown? || (s.trackers[t].queue[0].TNewBlock? && outcome.Die?)
    ensures Sound(c, TakeTrackerMsg(s, t, outcome))
  {
    TasksInFlight(c, s);
    hide Sound, TrackerOk, InFlight, EndTracker;
    var x := s.trackers[t];
    var s1 := s.(trackers := s.trackers[t := x.(queue := x.queue[1..])]);
    PoppedTrackerOk(c, s.d, x);
    TrackersSound(c, s, s1, t);
    EndTrackerSound(c, s1, t);
  }

  lemma TakeRequestSound(c: Config, s: World, t: nat, outcome: BlockOutcome)
    requires Sound(c, s) && t < |s.trackers| && s.trackers[t].phase.Serving? && |s.trackers[t].queue| > 0
    requires s.trackers[t].queue[0].TWatch? || s.trackers[t].queue[0].TReap?
    ensures Sound(c, TakeTrackerMsg(s, t, outcome))
  {
    TasksInFlight(c, s);
    hide Sound, TrackerOk, InFlight, Genuine;
    var x := s.trackers[t];
    PoppedTrackerOk(c, s.d, x);
    if x.queue[0].TWatch? {
      AddedTrackerOk(c, s.d, x.(queue := x.queue[1..]), x.queue[0].w);
    }
    TrackersSound(c, s, TakeTrackerMsg(s, t, outcome), t);
  }

  lemma TakeTrackerMsgSound(c: Config, s: World, t: nat, outcome: BlockOutcome)
    requires Sound(c, s) && t < |s.trackers| && s.trackers[t].phase.Serving? && |s.trackers[t].queue| > 0
    ensures Sound(c, TakeTrackerMsg(s, t, outcome))
  {
    hide Sound, TakeTrackerMsg;
    match s.trackers[t].queue[0] {
      case TNewBlock =>
        if outcome.Die? {
          TakeEndSound(c, s, t, outcome);
        } else {
          TakeBlockSound(c, s, t, outcome);
        }
      case TWatch(_) => TakeRequestSound(c, s, t, outcome);
      case TReap(_) => TakeRequestSound(c, s, t, outcome);
      case TShutdown => TakeEndSound(c, s, t, outcome);
    }
  }

  /** While one payout task holds the State's channel, no other payout request is on its way. */
  lemma OnlyTask(c: Config, s: World, k: nat)
    requires Conserved(s) && k < |s.tasks| && s.tasks[k].w.caller.StateTask?
    ensures !s.ctl.Sending?
    ensures forall m :: m in s.managerQ ==> StateTask !in CallerOfM(m)
    ensures s.mctl.Forwarding? ==> StateTask !in CallerOf(s.mctl.m)
    ensures forall t, m :: 0 <= t < |s.trackers| && m in s.trackers[t].queue ==> StateTask !in CallerOf(m)
    ensures forall j :: 0 <= j < |s.tasks| && j != k ==> !s.tasks[j].w.caller.StateTask?
  {
    hide HeldInM, HeldBy, HeldIn;
    assert Held(s, StateTask) <= 1;
    var rest := s.tasks[..k] + s.tasks[k + 1..];
    HeldRemoved(s.tasks, k, StateTask);
    HeldIffMemberM(s.managerQ, StateTask);
    forall t, m | 0 <= t < |s.trackers| && m in s.trackers[t].queue ensures StateTask !in CallerOf(m) {
      HeldAtLeast(s.trackers, t, StateTask);
      HeldIffMember(s.trackers[t].queue, StateTask);
    }
    forall j | 0 <= j < |s.tasks| && j != k ensures !s.tasks[j].w.caller.StateTask? {
      var i := if j < k then j else j - 1;
      assert rest[i] == s.tasks[j];
      HeldRemoved(rest, i, StateTask);
    }
  }

  lemma OneTask(c: Config, s: World, k: nat)
    requires Conserved(s) && Sound(c, s) && k < |s.tasks|
    ensures |s.tasks| == 1
  {
    hide Conserved, DurableOk, CtlOk;
    assert InFlight(s.d, s.tasks[k].w);
    if |s.tasks| > 1 {
      var j := if k == 0 then 1 else 0;
      assert InFlight(s.d, s.tasks[j].w);
      OnlyTask(c, s, k);
    }
  }

  /** Without a payout request in it, a tracker does not depend on which payouts have started. */
  lemma TrackerWithoutReaps(c: Config, d: Durable, d': Durable, x: TrackerState)
    requires TrackerOk(c, d, x) && Grows(d, d')
    requires forall m :: m in x.queue ==> StateTask !in CallerOf(m)
    ensures TrackerOk(c, d', x)
  {
    hide Genuine;
    forall id | id in x.watched ensures Genuine(c, d', x.watched[id]) {
      GenuineGrows(c, d, d', x.watched[id]);
    }
    forall m | m in x.queue ensures TrackerMsgOk(c, d', m) {
      assert TrackerMsgOk(c, d, m);
      if m.TWatch? {
        GenuineGrows(c, d, d', FromRequest(m.w));
      }
    }
  }

  lemma PayoutSound(c: Config, s: World, k: nat)
    requires Conserved(s) && Sound(c, s) && k < |s.tasks|
    ensures Sound(c, StartPayout(c, s, k))
  {
    TasksInFlight(c, s);
    OnlyTask(c, s, k);
    OneTask(c, s, k);
    StartOk(c, s.d, s.tasks[k].w);
    var s' := StartPayout(c, s, k);
    hide DurableOk, Conserved, PayoutOf, TrackerOk, Genuine;
    assert s'.tasks == [];
    forall t | 0 <= t < |s.trackers| ensures TrackerOk(c, s'.d, s.trackers[t]) {
      TrackerWithoutReaps(c, s.d, s'.d, s.trackers[t]);
    }
    forall m | m in s.managerQ ensures ManagerMsgOk(c, s'.d, m) {
      assert ManagerMsgOk(c, s.d, m) && StateTask !in CallerOfM(m);
      if m.MWatch? {
        GenuineGrows(c, s.d, s'.d, FromRequest(m.w));
      }
    }
    if s.mctl.Forwarding? && s.mctl.m.TWatch? {
      GenuineGrows(c, s.d, s'.d, FromRequest(s.mctl.m.w));
    }
  }

  lemma StartedSound(c: Config, d: Durable)
    requires DurableOk(c, d)
    ensures Sound(c, Started(c, d))
  {
    hide DurableOk;
  }

  lemma BootSound(c: Config, s: World, list: seq<(Id, OrderInfo)>)
    requires Sound(c, s) && ListsPending(s.d.db, list) && s.ctl.Booting?
    ensures Sound(c, Apply(c, s, Boot(list)))
  {
    ListedOk(c, s.d, list);
    hide DurableOk, TrackerOk, ListsPending, InFlight, ManagerMsgOk, TrackerMsgOk, RestoreOk, StateQOk;
  }

  lemma ListedOk(c: Config, d: Durable, list: seq<(Id, OrderInfo)>)
    requires DurableOk(c, d) && ListsPending(d.db, list)
    ensures RestoreOk(d, list)
  {
    hide EvidenceOk, PayoutsOk;
    forall row | row in list ensures row in d.versions {
      var (id, o) := row;
      assert (id, o) in list;
      assert (id, AsPending(d.db[id])) in d.versions && AsPending(o) == o;
    }
  }

  lemma FinishSound(c: Config, s: World)
    requires Sound(c, s)
    ensures Sound(c, s.(mctl := Gone, managerQ := [], replies := s.replies + CallersInM(s.managerQ)))
  {
    hide DurableOk, TrackerOk, CallersInM, CtlOk, InFlight, StateQOk, RestoreOk;
  }

  /** Steps of the State handler, the clients and the restore task that move no order along. */
  lemma IdleStepSound(c: Config, s: World, st: Step)
    requires Sound(c, s) && Enabled(c, s, st)
    requires st.ClientCreate? || st.ClientAsk? || st.Cancel? || st.StateResume? || st.StateCancel?
             || st.StateStop? || st.StateGivesUp? || st.RestoreResume?
    ensures Sound(c, Apply(c, s, st))
  {
    hide DurableOk, TrackerOk, InFlight, Evidenced, RestoreOk, ManagerMsgOk, TrackerMsgOk, ListsPending, Prepare;
  }

  lemma SetPhaseSound(c: Config, s: World, t: nat, p: Phase)
    requires Sound(c, s) && t < |s.trackers| && (p.Checking? ==> p.reports == [])
    ensures Sound(c, SetPhase(s, t, p))
  {
    TasksInFlight(c, s);
    hide Sound, InFlight, TrackerOk;
    NewPhaseOk(c, s.d, s.trackers[t], p);
    TrackersSound(c, s, SetPhase(s, t, p), t);
  }

  lemma AnnounceSound(c: Config, s: World, t: nat, p: Phase, assets: Assets)
    requires Sound(c, s) && t < |s.trackers| && (p.Checking? ==> p.reports == [])
    ensures Sound(c, SetPhase(s, t, p).(stateQ := s.stateQ + [ConnectChain(assets)]))
  {
    var s1 := s.(stateQ := s.stateQ + [ConnectChain(assets)]);
    AnnounceQueueSound(c, s, s1);
    SetPhaseSound(c, s1, t, p);
    hide Sound;
    assert SetPhase(s1, t, p) == SetPhase(s, t, p).(stateQ := s1.stateQ);
  }

  lemma SettledTrackerOk(c: Config, d: Durable, x: TrackerState, removals: set<Id>)
    requires TrackerOk(c, d, x)
    ensures TrackerOk(c, d, x.(watched := x.watched - removals))
  {
    hide Genuine, PhaseOk, TrackerMsgOk;
  }

  lemma SettleSound(c: Config, s: World, t: nat)
    requires Sound(c, s) && t < |s.trackers| && s.trackers[t].phase.Checking?
    ensures var x := s.trackers[t];
            Sound(c, s.(trackers := s.trackers[t := x.(watched := x.watched - x.phase.removals, phase := Serving(x.phase.assets))]))
  {
    TasksInFlight(c, s);
    hide Sound, InFlight, TrackerOk;
    var x := s.trackers[t];
    var x1 := x.(watched := x.watched - x.phase.removals);
    SettledTrackerOk(c, s.d, x, x.phase.removals);
    NewPhaseOk(c, s.d, x1, Serving(x.phase.assets));
    TrackersSound(c, s, s.(trackers := s.trackers[t := x1.(phase := Serving(x.phase.assets))]), t);
  }

  lemma AnnounceQueueSound(c: Config, s: World, s1: World)
    requires Sound(c, s) && s1 == s.(stateQ := s1.stateQ)
    requires s1.stateQ == s.stateQ || exists assets :: s1.stateQ == s.stateQ + [ConnectChain(assets)]
    ensures Sound(c, s1)
  {
    hide DurableOk, CtlOk, TrackerOk, InFlight, Evidenced, RestoreOk, ManagerMsgOk, TrackerMsgOk;
  }

  lemma ConnectionStepSound(c: Config, s: World, st: Step)
    requires Sound(c, s) && Enabled(c, s, st)
    requires st.BlockArrives? || st.TrackerQuit? || st.TrackerConnect? || st.TrackerAnnounce? || st.TrackerTimeout?
    ensures Sound(c, Apply(c, s, st))
  {
    hide Sound, Prepare, EndTracker, SetPhase;
    match st {
      case BlockArrives(t) => EnqueueSound(c, s, s, t, TNewBlock);
      case TrackerQuit(t) => EndTrackerSound(c, s, t);
      case TrackerConnect(t, report) => SetPhaseSound(c, s, t, Announcing(Prepare(c.chains[t], report).value));
      case TrackerAnnounce(t, at) =>
        var x := s.trackers[t];
        var p := Checking(x.phase.assets, false, at, x.watched.Keys, [], {});
        SetPhaseSound(c, s, t, p);
        AnnounceSound(c, s, t, p, x.phase.assets);
      case TrackerTimeout(t) => SetPhaseSound(c, s, t, Connecting);
    }
  }

  lemma RoundStepSound(c: Config, s: World, st: Step)
    requires Sound(c, s) && Enabled(c, s, st)
    requires st.TrackerVisit? || st.TrackerReport? || st.TrackerTake? || st.TrackerSettle?
    ensures Sound(c, Apply(c, s, st))
  {
    hide Sound, TakeTrackerMsg, VisitInvoice, SendReport;
    match st {
      case TrackerVisit(t, id, _, v) => VisitSound(c, s, t, id, v);
      case TrackerReport(t) => ReportSound(c, s, t);
      case TrackerTake(t, outcome) => TakeTrackerMsgSound(c, s, t, outcome);
      case TrackerSettle(t) => SettleSound(c, s, t);
    }
  }

  lemma TrackerStepSound(c: Config, s: World, st: Step)
    requires Sound(c, s) && Enabled(c, s, st) && OfTrackers(st)
    ensures Sound(c, Apply(c, s, st))
  {
    hide Sound, Apply, Enabled;
    if st.TrackerVisit? || st.TrackerReport? || st.TrackerTake? || st.TrackerSettle? {
      RoundStepSound(c, s, st);
    } else {
      ConnectionStepSound(c, s, st);
    }
  }

  lemma StepSound(c: Config, s: World, st: Step)
    requires c.Valid() && Inv(c, s) && Enabled(c, s, st)
    ensures Sound(c, Apply(c, s, st))
  {
    assert Sound(c, s);
    ConservedOf(c, s);
    hide Inv, Sound, Conserved;
    if OfTrackers(st) {
      hide Apply, Enabled;
      TrackerStepSound(c, s, st);
    } else {
      RestStepSound(c, s, st);
      hide Apply, Enabled;
    }
  }

  lemma RestStepSound(c: Config, s: World, st: Step)
    requires c.Valid() && Sound(c, s) && Conserved(s) && Enabled(c, s, st) && !OfTrackers(st)
    ensures Sound(c, Apply(c, s, st))
  {
    hide Sound, Conserved, ListsPending, TakeStateMsg, TakeManagerMsg, StartPayout, SubmitRestored, SendToManager, CallersInM;
    match st {
      case Crash => DurableStays(c, s); StartedSound(c, s.d);
      case Boot(list) => BootSound(c, s, list);
      case StateTake(now) => TakeStateMsgSound(c, s, now);
      case StateSend => SendSound(c, s);
      case RestoreSend => SubmitSound(c, s);
      case ManagerTake => TakeManagerMsgSound(c, s);
      case ManagerForward => ForwardSound(c, s);
      case ManagerDrain(t) => DrainSound(c, s, t);
      case ManagerFinish => FinishSound(c, s);
      case PayoutStart(k) => PayoutSound(c, s, k);
      case _ => IdleStepSound(c, s, st);
    }
  }

  lemma DrainSound(c: Config, s: World, t: nat)
    requires Sound(c, s) && s.mctl.Draining? && t < |s.trackers|
    ensures Sound(c, s.(mctl := Draining(s.mctl.todo - {t})))
    ensures Sound(c, Enqueue(s.(mctl := Draining(s.mctl.todo - {t})), t, TShutdown))
  {
    var s1 := s.(mctl := Draining(s.mctl.todo - {t}));
    EnqueueSound(c, s, s1, t, TShutdown);
    hide DurableOk, CtlOk, TrackerOk, InFlight, StateQOk, RestoreOk, ManagerMsgOk, Enqueue;
  }

  lemma DurableStays(c: Config, s: World)
    requires Sound(c, s)
    ensures DurableOk(c, s.d)
  {
  }

  lemma ConservedOf(c: Config, s: World)
    requires Inv(c, s)
    ensures Conserved(s)
  {
  }

  lemma InvInit(c: Config)
    ensures Inv(c, Init(c))
  {
    ConservedInit(c, NothingYet());
    StartedSound(c, NothingYet());
  }

  lemma {:induction false} InvRuns(c: Config, s: World, steps: seq<Step>, s': World)
    requires c.Valid() && Inv(c, s) && Runs(c, s, steps, s')
    ensures Inv(c, s')
    decreases |steps|
  {
    if |steps| > 0 {
      var s1 := Apply(c, s, steps[0]);
      ConservedOf(c, s);
      StepSound(c, s, steps[0]);
      StepConserves(c, s, steps[0]);
      hide Apply, Enabled, Conserved, DurableOk, VolatileOk, CtlOk;
      InvRuns(c, s1, steps[1..], s');
    }
  }

  lemma InvReachable(c: Config, s: World)
    requires c.Valid() && Reachable(c, s)
    ensures Inv(c, s)
  {
    hide Inv;
    var steps :| Runs(c, Init(c), steps, s);
    InvInit(c);
    InvRuns(c, Init(c), steps, s);
  }

  // --- The theorems ---

  /**
   * At most once: over every interleaving, crash and restart, no order has two payout requests or
   * two payout attempts, and at any time at most one request is on its way, for an order whose
   * payout has not started.
   */
  lemma AtMostOnePayout(c: Config, s: World)
    requires c.Valid() && Reachable(c, s)
    ensures forall j, k :: 0 <= j < k < |s.d.issued| ==> s.d.issued[j].id != s.d.issued[k].id
    ensures forall j, k :: 0 <= j < k < |s.d.started| ==> s.d.started[j].id != s.d.started[k].id
    ensures |s.tasks| <= 1
    ensures forall k :: 0 <= k < |s.tasks| ==>
              s.tasks[k].w in s.d.issued && forall j :: 0 <= j < |s.d.started| ==> s.d.started[j].id != s.tasks[k].w.id
  {
    InvReachable(c, s);
    if |s.tasks| > 0 {
      OneTask(c, s, 0);
    }
    TasksInFlight(c, s);
    hide Conserved, Genuine, VolatileOk, CtlOk, WatchOf, PayoutOf;
  }

  /**
   * No order is paid without evidence: for an invoice made from a version of that very record, some
   * tracker saw the order's own account hold at least its amount. Every watched invoice is made that way.
   */
  lemma PaidHasEvidence(c: Config, s: World, id: Id)
    requires c.Valid() && Reachable(c, s)
    requires id in s.d.db && s.d.db[id].paymentStatus.Paid?
    ensures exists e, o :: e in s.d.evidence && (id, o) in s.d.versions
                        && InvoiceOf(c, id, o) == Some(e.invoice) && Observed(c, e)
                        && e.invoice.address == c.account(c.recipient, id)
  {
    InvReachable(c, s);
    hide Conserved, VolatileOk, CtlOk, Observed;
    var e :| e in s.d.evidence && e.invoice.id == id;
    assert Genuine(c, s.d, e.invoice) && Observed(c, e);
    var o :| (id, o) in s.d.versions && InvoiceOf(c, id, o) == Some(e.invoice);
    assert e.invoice.address == c.account(c.recipient, id);
  }

  /** These terms ask for less than those, or for another currency. */
  predicate AsksLess(terms: (Text, u128), record: (Text, u128)) {
    terms.0 != record.0 || terms.1 < record.1
  }

  /** This evidence is of the order's account, in the currency of its record, and at least its amount. */
  ghost predicate CoversRecord(c: Config, d: Durable, id: Id, e: Evidence)
    requires id in d.db
  {
    && e in d.evidence && e.invoice.id == id && Observed(c, e)
    && e.invoice.address == c.account(c.recipient, id)
    && e.invoice.currency == Terms(c, d.db[id]).0 && e.balance >= Terms(c, d.db[id]).1
  }

  /**
   * An order no version of which asked for less than its record, or for another currency, is paid
   * only on evidence that covers the record. Otherwise a run pays it without: Uncovered.UncoveredIff.
   */
  lemma PaidIsCovered(c: Config, s: World, id: Id)
    requires c.Valid() && Reachable(c, s)
    requires id in s.d.db && s.d.db[id].paymentStatus.Paid?
    requires forall o :: (id, o) in s.d.versions ==> !AsksLess(Terms(c, o), Terms(c, s.d.db[id]))
    ensures exists e :: CoversRecord(c, s.d, id, e)
  {
    PaidHasEvidence(c, s, id);
    hide Reachable, Observed;
    var e, o :| e in s.d.evidence && (id, o) in s.d.versions
                && InvoiceOf(c, id, o) == Some(e.invoice) && Observed(c, e)
                && e.invoice.address == c.account(c.recipient, id);
    assert !AsksLess(Terms(c, o), Terms(c, s.d.db[id]));
    ObservedCovers(c, e);
    assert CoversRecord(c, s.d, id, e);
  }

  lemma ObservedCovers(c: Config, e: Evidence)
    requires Observed(c, e)
    ensures e.balance >= e.invoice.amount
  {
  }

  lemma WatchedIsGenuine(c: Config, s: World, t: nat, id: Id)
    requires c.Valid() && Reachable(c, s)
    requires t < |s.trackers| && id in s.trackers[t].watched
    ensures id in s.d.db && s.trackers[t].watched[id].id == id && Genuine(c, s.d, s.trackers[t].watched[id])
    ensures s.trackers[t].watched[id].address == c.account(c.recipient, id)
    ensures s.trackers[t].watched[id].recipient == c.recipient
    ensures exists o :: (id, o) in s.d.versions && WatchedFor(c, s.trackers[t].watched[id], o)
  {
    InvReachable(c, s);
    WatchedGenuine(c, s, t, id);
    var i := s.trackers[t].watched[id];
    var o :| (id, o) in s.d.versions && InvoiceOf(c, id, o) == Some(i);
    assert WatchedFor(c, i, o);
  }

  /** The invoice is watched for the currency, the amount and the deadline of this record. */
  ghost predicate WatchedFor(c: Config, i: Invoice, o: OrderInfo) {
    i.currency == o.currency.currency && i.amount == c.units(o.amount, o.currency.decimals) && i.death == o.death
  }

  lemma EvidencedIsKey(c: Config, d: Durable, id: Id)
    requires VersionsOk(c, d) && EvidenceOk(c, d) && Evidenced(d, id)
    ensures id in d.db
  {
    hide InvoiceOf;
    var e :| e in d.evidence && e.invoice.id == id;
    assert Genuine(c, d, e.invoice);
  }

  lemma GenuineIsKey(c: Config, d: Durable, i: Invoice)
    requires VersionsOk(c, d) && Genuine(c, d, i)
    ensures i.id in d.db
  {
    hide InvoiceOf;
  }

  /** A tracker knows of no order but those in the database: watched, queued, or about to be reported. */
  lemma TrackerIdsAreKeys(c: Config, s: World, t: nat)
    requires c.Valid() && Reachable(c, s) && t < |s.trackers|
    ensures var x := s.trackers[t];
            && (forall id :: id in x.watched ==> id in s.d.db)
            && (forall w :: TWatch(w) in x.queue || TReap(w) in x.queue ==> w.id in s.d.db)
            && (x.phase.Checking? ==> forall id :: id in x.phase.reports ==> id in s.d.db)
  {
    InvReachable(c, s);
    hide Conserved, CtlOk, Genuine, Evidenced, Faithful, Reachable;
    var x := s.trackers[t];
    assert TrackerOk(c, s.d, x);
    forall id | id in x.watched ensures id in s.d.db {
      GenuineIsKey(c, s.d, x.watched[id]);
    }
    forall w | TWatch(w) in x.queue || TReap(w) in x.queue ensures w.id in s.d.db {
      if TWatch(w) in x.queue {
        assert TrackerMsgOk(c, s.d, TWatch(w));
        GenuineIsKey(c, s.d, FromRequest(w));
      } else {
        assert TrackerMsgOk(c, s.d, TReap(w));
        IssuedIsKey(c, s.d, w);
      }
    }
    if x.phase.Checking? {
      forall id | id in x.phase.reports ensures id in s.d.db {
        EvidencedIsKey(c, s.d, id);
      }
    }
  }

  lemma IssuedIsKey(c: Config, d: Durable, w: Watch)
    requires PayoutsOk(c, d) && w in d.issued
    ensures w.id in d.db
  {
    hide WatchOf;
    var j :| 0 <= j < |d.issued| && d.issued[j] == w;
    assert Faithful(c, d, d.issued[j]);
  }

  /** Nor does the State handler hear of any other, or the restore task or the manager pass one on. */
  lemma ReportedIdsAreKeys(c: Config, s: World)
    requires c.Valid() && Reachable(c, s)
    ensures forall id :: OrderPaid(id) in s.stateQ ==> id in s.d.db
    ensures forall row :: row in s.restore ==> row.0 in s.d.db
    ensures forall w :: MWatch(w) in s.managerQ || MReap(w) in s.managerQ ==> w.id in s.d.db
  {
    InvReachable(c, s);
    hide Conserved, CtlOk, Genuine, Evidenced, Faithful, Reachable, TrackerOk;
    forall id | OrderPaid(id) in s.stateQ ensures id in s.d.db {
      EvidencedIsKey(c, s.d, OrderPaid(id).id);
    }
    forall row | row in s.restore ensures row.0 in s.d.db {
      assert (row.0, row.1) in s.d.versions;
    }
    forall w | MWatch(w) in s.managerQ || MReap(w) in s.managerQ ensures w.id in s.d.db {
      if MWatch(w) in s.managerQ {
        assert ManagerMsgOk(c, s.d, MWatch(w));
        GenuineIsKey(c, s.d, FromRequest(w));
      } else {
        assert ManagerMsgOk(c, s.d, MReap(w));
        IssuedIsKey(c, s.d, w);
      }
    }
  }

  /** What a payout must be, given the order's record: its terms, from its own account, signed by that account's key. */
  ghost predicate PaysRecord(c: Config, id: Id, o: OrderInfo, p: Payout) {
    && p.id == id
    && p.author == p.signer == c.account(c.recipient, id)
    && p.currency == o.currency.currency
    && p.amount == c.units(o.amount, o.currency.decimals)
    && p.recipient == c.recipient
  }

  /**
   * Payout integrity: at every later state too, each payout attempt is the payment of the stored,
   * paid record of its order, and its author is the account of the key the signer derives, even
   * when a modification changed the currency and with it the address prefix.
   */
  lemma PayoutIntegrity(c: Config, s: World, j: nat)
    requires c.Valid() && Reachable(c, s) && j < |s.d.started|
    ensures var id := s.d.started[j].id;
            id in s.d.db && s.d.db[id].paymentStatus.Paid? && PaysRecord(c, id, s.d.db[id], s.d.started[j])
  {
    InvReachable(c, s);
    hide Conserved, VolatileOk, CtlOk, EvidenceOk;
    var k := IssuedAs(c, s.d, j);
    IssuedOwnsAccount(c, s.d, k);
  }

  lemma IssuedAs(c: Config, d: Durable, j: nat) returns (k: nat)
    requires PayoutsOk(c, d) && j < |d.started|
    ensures k < |d.issued| && d.started[j] == PayoutOf(c, d.issued[k])
  {
    hide PayoutOf, Faithful;
    assert FromIssued(c, d.issued, d.started[j]);
    k :| 0 <= k < |d.issued| && d.started[j] == PayoutOf(c, d.issued[k]);
  }

  lemma IssuedOwnsAccount(c: Config, d: Durable, k: nat)
    requires VersionsOk(c, d) && PayoutsOk(c, d) && k < |d.issued|
    ensures var w := d.issued[k];
            Faithful(c, d, w) && w.address == c.account(c.recipient, w.id)
  {
    var w := d.issued[k];
    assert Faithful(c, d, w);
    assert (w.id, AsPending(d.db[w.id])) in d.versions;
  }

  /** A payout request still on its way carries the terms of the stored, paid record. */
  lemma RequestIntegrity(c: Config, s: World, w: Watch)
    requires c.Valid() && Reachable(c, s)
    requires MReap(w) in s.managerQ || (s.mctl.Forwarding? && s.mctl.m == TReap(w))
             || (exists t :: 0 <= t < |s.trackers| && TReap(w) in s.trackers[t].queue)
             || (exists k :: 0 <= k < |s.tasks| && s.tasks[k].w == w)
    ensures Faithful(c, s.d, w) && w.address == c.account(c.recipient, w.id)
  {
    InvReachable(c, s);
    hide Conserved, CtlOk, EvidenceOk, Genuine;
    assert InFlight(s.d, w) by {
      if t :| 0 <= t < |s.trackers| && TReap(w) in s.trackers[t].queue {
        assert TrackerOk(c, s.d, s.trackers[t]);
        assert TrackerMsgOk(c, s.d, TReap(w));
      } else if MReap(w) in s.managerQ {
        assert ManagerMsgOk(c, s.d, MReap(w));
      }
    }
    hide VolatileOk, TrackerOk, VersionsOk, PayoutsOk, Faithful;
    var k :| 0 <= k < |s.d.issued| && s.d.issued[k] == w;
    IssuedOwnsAccount(c, s.d, k);
  }
}
