// From order to payout: database, State handler, restore task, chain manager, trackers and payout
// tasks as one state machine. A step is one action of one of them, up to the next point where it
// waits; every interleaving, failing connection, shutdown, crash and restart is a run.
//
// The State handler is the only client of the database and waits for each answer, so a database
// request is part of the step that makes it. Inserted rows survive a crash, nothing else does.
module Protocol {
  import opened Definitions
  import opened Ledger
  import opened Chains
  import opened Watching

  /**
   * What does not change over restarts: the configuration, the recipient, the seed (as the account
   * of the key derived from recipient and order id), address printing and parsing, the conversion
   * of an amount to the smallest unit, and the capacity of the queues (1024 in the code). The chains
   * themselves are a given history: what block holds what, by chain and block.
   */
  datatype Config = Config(
    chains: seq<Chain>,
    recipient: Account,
    account: (Account, Id) -> Account,
    toBase58: (Account, u16) -> Text,
    fromBase58: Text -> Option<Account>,
    units: (F64, u8) -> u128,
    lifetime: u64,
    capacity: nat,
    block: (nat, nat) -> BlockData)
  {
    /** The manager started, so the configuration is acceptable; printed addresses parse back. */
    ghost predicate Valid() {
      && Acceptable(chains)
      && capacity > 0
      && forall a: Account, p: u16 :: fromBase58(toBase58(a, p)) == Some(a)
    }
  }

  /** WatchAccount::new: fails when the stored address does not parse. */
  function WatchOf(c: Config, id: Id, o: OrderInfo, caller: Caller): Option<Watch> {
    match c.fromBase58(o.paymentAccount)
    case None => None
    case Some(a) =>
      Some(Watch(id, a, o.currency.currency, c.units(o.amount, o.currency.decimals), c.recipient, o.death, caller))
  }

  /** What an order asks for: a currency, and an amount in its smallest unit. */
  function Terms(c: Config, o: OrderInfo): (Text, u128) {
    (o.currency.currency, c.units(o.amount, o.currency.decimals))
  }

  // --- The world ---

  datatype StateMsg = ConnectChain(assets: Assets) | OrderPaid(id: Id) | CreateInvoice(query: OrderQuery) | Inquiry

  datatype ManagerMsg = MWatch(w: Watch) | MReap(w: Watch) | MShutdown

  datatype TrackerMsg = TWatch(w: Watch) | TReap(w: Watch) | TNewBlock | TShutdown

  /** Sending: about to call the manager. AwaitingReply: until it is answered. Stopping: for the manager's shutdown. */
  datatype StateCtl = Booting | Idle | Sending(m: ManagerMsg) | AwaitingReply | Stopping | Stopped

  datatype ManagerCtl = Ready | Forwarding(t: nat, m: TrackerMsg) | Draining(todo: set<nat>) | Gone

  /** Announcing and Checking end when the State queue takes the message; Checking is one round over the map. */
  datatype Phase =
    | Connecting
    | Announcing(assets: Assets)
    | Checking(assets: Assets, block: bool, at: nat, todo: set<Id>, reports: seq<Id>, removals: set<Id>)
    | Serving(assets: Assets)
    | Ended

  datatype TrackerState = TrackerState(phase: Phase, watched: map<Id, Invoice>, queue: seq<TrackerMsg>)

  /** A spawned payout that has not answered its request yet, with the assets of the connection that spawned it. */
  datatype Task = Task(chain: nat, assets: Assets, w: Watch)

  /** A balance some tracker fetched for a watched invoice: on which chain, at which block, and in which asset. */
  datatype Evidence = Evidence(chain: nat, at: nat, asset: Option<u32>, invoice: Invoice, balance: u128)

  /** A payout attempt: the transaction's author, the account of the signing key, and what is to be paid to whom. */
  datatype Payout = Payout(id: Id, author: Account, signer: Account, currency: Text, amount: u128, recipient: Account)

  /**
   * The order table, and the history of all lives of the daemon: every record stored for an order,
   * every balance that covered an invoice, every payout request and every payout attempt.
   */
  datatype Durable = Durable(
    db: Orders,
    versions: seq<(Id, OrderInfo)>,
    evidence: set<Evidence>,
    issued: seq<Watch>,
    started: seq<Payout>)

  datatype World = World(
    d: Durable,
    ctl: StateCtl,
    stateQ: seq<StateMsg>,
    currencies: Assets,
    restore: seq<(Id, OrderInfo)>,
    restoreWaits: bool,
    booted: seq<(Id, OrderInfo)>,
    submitted: seq<Watch>,
    mctl: ManagerCtl,
    managerQ: seq<ManagerMsg>,
    trackers: seq<TrackerState>,
    tasks: seq<Task>,
    replies: set<Caller>,
    cancelled: bool)

  function FreshTrackers(n: nat): (r: seq<TrackerState>)
    ensures |r| == n && forall t :: 0 <= t < n ==> r[t] == TrackerState(Connecting, map[], [])
  {
    seq(n, _ => TrackerState(Connecting, map[], []))
  }

  /** A newly started daemon over this durable state. */
  function Started(c: Config, d: Durable): World {
    World(d, Booting, [], map[], [], false, [], [], Ready, [], FreshTrackers(|c.chains|), [], {}, false)
  }

  function NothingYet(): Durable {
    Durable(map[], [], {}, [], [])
  }

  function Init(c: Config): World {
    Started(c, NothingYet())
  }

  // --- Steps ---

  /** A block whose events can be read is processed; otherwise the connection, or the whole task, ends. */
  datatype BlockOutcome = Process(at: nat) | Reconnect | Die

  datatype Step =
    | ClientCreate(q: OrderQuery)
    | ClientAsk
    | Cancel
    | Crash
    | Boot(list: seq<(Id, OrderInfo)>)
    | StateTake(now: u64)
    | StateSend
    | StateResume
    | StateCancel
    | StateStop
    | StateGivesUp
    | RestoreSend
    | RestoreResume
    | ManagerTake
    | ManagerForward
    | ManagerDrain(t: nat)
    | ManagerFinish
    | BlockArrives(t: nat)
    | TrackerConnect(t: nat, report: NodeReport)
    | TrackerQuit(t: nat)
    | TrackerAnnounce(t: nat, at: nat)
    | TrackerVisit(t: nat, id: Id, now: u64, v: Visit)
    | TrackerReport(t: nat)
    | TrackerSettle(t: nat)
    | TrackerTake(t: nat, outcome: BlockOutcome)
    | TrackerTimeout(t: nat)
    | PayoutStart(k: nat)

  predicate StateTakesMessages(c: Config, s: World) {
    s.ctl.Stopped? || |s.stateQ| < c.capacity
  }

  /** Nobody can call the manager any more: the State handler ended without asking it to, and the restore task is done. */
  predicate NoSenders(s: World) {
    s.ctl.Stopped? && s.restore == [] && !s.restoreWaits
  }

  /** What one visit of the round can learn, at the block the round is about. */
  ghost predicate VisitAllowed(c: Config, t: nat, p: Phase, i: Invoice, now: u64, v: Visit)
    requires p.Checking?
  {
    if p.block then BlockVisit(c.block(t, p.at), p.assets, i, now, v)
    else CatchUpVisit(c.block(t, p.at), p.assets, i, v)
  }

  ghost predicate Enabled(c: Config, s: World, st: Step) {
    match st
    case ClientCreate(_) => !s.ctl.Stopped? && |s.stateQ| < c.capacity
    case ClientAsk => !s.ctl.Stopped? && |s.stateQ| < c.capacity
    case Cancel => true
    case Crash => true
    case Boot(list) => s.ctl.Booting? && ListsPending(s.d.db, list)
    case StateTake(_) => s.ctl.Idle? && |s.stateQ| > 0
    case StateSend => s.ctl.Sending? && (s.mctl.Gone? || |s.managerQ| < c.capacity)
    case StateResume => s.ctl.AwaitingReply? && StateTask in s.replies
    case StateCancel => s.ctl.Idle? && s.cancelled && |s.stateQ| == 0
    case StateStop => s.ctl.Stopping? && s.mctl.Gone?
    case StateGivesUp => s.ctl.Idle?
    case RestoreSend => |s.restore| > 0 && !s.restoreWaits && (s.mctl.Gone? || |s.managerQ| < c.capacity)
    case RestoreResume => s.restoreWaits && RestoreTask in s.replies
    case ManagerTake => s.mctl.Ready? && |s.managerQ| > 0
    case ManagerForward =>
      && s.mctl.Forwarding? && s.mctl.t < |s.trackers|
      && (s.trackers[s.mctl.t].phase.Ended? || |s.trackers[s.mctl.t].queue| < c.capacity)
    case ManagerDrain(t) =>
      && s.mctl.Draining? && t in s.mctl.todo && t < |s.trackers|
      && (s.trackers[t].phase.Ended? || |s.trackers[t].queue| < c.capacity)
    case ManagerFinish => (s.mctl.Draining? && s.mctl.todo == {}) || (s.mctl.Ready? && s.managerQ == [] && NoSenders(s))
    case BlockArrives(t) =>
      t < |s.trackers| && !s.trackers[t].phase.Ended? && |s.trackers[t].queue| < c.capacity
    case TrackerConnect(t, report) =>
      && t < |s.trackers| && t < |c.chains| && s.trackers[t].phase.Connecting?
      && Prepare(c.chains[t], report).Ok?
    case TrackerQuit(t) => t < |s.trackers| && s.trackers[t].phase.Connecting? && s.cancelled
    case TrackerAnnounce(t, _) =>
      t < |s.trackers| && s.trackers[t].phase.Announcing? && StateTakesMessages(c, s)
    case TrackerVisit(t, id, now, v) =>
      && t < |s.trackers| && s.trackers[t].phase.Checking?
      && id in s.trackers[t].phase.todo && id in s.trackers[t].watched && s.trackers[t].phase.reports == []
      && VisitAllowed(c, t, s.trackers[t].phase, s.trackers[t].watched[id], now, v)
    case TrackerReport(t) =>
      && t < |s.trackers| && s.trackers[t].phase.Checking? && s.trackers[t].phase.reports != []
      && StateTakesMessages(c, s)
    case TrackerSettle(t) =>
      && t < |s.trackers| && s.trackers[t].phase.Checking?
      && s.trackers[t].phase.reports == [] && s.trackers[t].phase.todo == {}
    case TrackerTake(t, outcome) =>
      && t < |s.trackers| && s.trackers[t].phase.Serving? && |s.trackers[t].queue| > 0
      && (s.trackers[t].queue[0].TNewBlock? && outcome.Process? ==> c.block(t, outcome.at).eventsReadable)
    case TrackerTimeout(t) => t < |s.trackers| && s.trackers[t].phase.Serving?
    case PayoutStart(k) => k < |s.tasks|
  }

  // --- Effects of the State handler ---

  /** A record inserted under its id, and what history keeps of it. */
  function StoreVersion(d: Durable, id: Id, o: OrderInfo): Durable {
    d.(db := d.db[id := o], versions := d.versions + [(id, o)])
  }

  /** create_invoice up to the call of the manager; the record is stored before anything is watched. */
  function TakeCreate(c: Config, s: World, q: OrderQuery, now: u64): World {
    if q.currency !in s.currencies then s
    else
      var currency := s.currencies[q.currency].Info(q.currency);
      var account := c.toBase58(c.account(c.recipient, q.order), currency.ss58);
      match CreateOrder(s.d.db, q.order, q, currency, account, DeathAt(now, c.lifetime)).1
      case New(o) =>
        var s' := s.(d := StoreVersion(s.d, q.order, o));
        (match WatchOf(c, q.order, o, StateTask)
         case None => s'
         case Some(w) => s'.(ctl := Sending(MWatch(w))))
      case Modified(o) => s.(d := StoreVersion(s.d, q.order, o))
      case Collision(_) => s
  }

  /** The payment notification: only the database's Ok leads to a payout request. */
  function TakePaid(c: Config, s: World, id: Id): World {
    var (db, r) := MarkPaid(s.d.db, id);
    match r
    case Err(_) => s
    case Ok(o) =>
      var s' := s.(d := s.d.(db := db));
      match WatchOf(c, id, o, StateTask)
      case None => s'
      case Some(w) => s'.(ctl := Sending(MReap(w)))
  }

  function TakeStateMsg(c: Config, s: World, now: u64): World
    requires |s.stateQ| > 0
  {
    var s' := s.(stateQ := s.stateQ[1..]);
    match s.stateQ[0]
    case ConnectChain(assets) => s'.(currencies := s.currencies + assets)
    case OrderPaid(id) => TakePaid(c, s', id)
    case CreateInvoice(q) => TakeCreate(c, s', q, now)
    case Inquiry => s'
  }

  function SendToManager(s: World): World
    requires s.ctl.Sending?
  {
    match s.ctl.m
    case MShutdown =>
      if s.mctl.Gone? then s.(ctl := Stopping) else s.(managerQ := s.managerQ + [MShutdown], ctl := Stopping)
    case MWatch(w) =>
      if s.mctl.Gone? then s.(ctl := Idle) else s.(managerQ := s.managerQ + [MWatch(w)], ctl := AwaitingReply)
    case MReap(w) =>
      if s.mctl.Gone? then s.(ctl := Idle)
      else s.(managerQ := s.managerQ + [MReap(w)], ctl := AwaitingReply, d := s.d.(issued := s.d.issued + [w]))
  }

  function SubmitRestored(c: Config, s: World): World
    requires |s.restore| > 0
  {
    var (id, o) := s.restore[0];
    var s' := s.(restore := s.restore[1..]);
    match WatchOf(c, id, o, RestoreTask)
    case None => s'
    case Some(w) =>
      if s.mctl.Gone? then s'
      else s'.(managerQ := s.managerQ + [MWatch(w)], restoreWaits := true, submitted := s.submitted + [w])
  }

  // --- Effects of the manager ---

  /** A request without a tracker is answered with an error, which is a reply all the same. */
  function TakeManagerMsg(c: Config, s: World): World
    requires |s.managerQ| > 0
  {
    var s' := s.(managerQ := s.managerQ[1..]);
    match s.managerQ[0]
    case MShutdown => s'.(mctl := Draining(Drained(c.chains)))
    case MWatch(w) =>
      (match Route(c.chains, w.currency)
       case None => s'.(replies := s.replies + {w.caller})
       case Some(t) => s'.(mctl := Forwarding(t, TWatch(w))))
    case MReap(w) =>
      (match Route(c.chains, w.currency)
       case None => s'.(replies := s.replies + {w.caller})
       case Some(t) => s'.(mctl := Forwarding(t, TReap(w))))
  }

  function CallerOf(m: TrackerMsg): set<Caller> {
    match m
    case TWatch(w) => {w.caller}
    case TReap(w) => {w.caller}
    case TNewBlock => {}
    case TShutdown => {}
  }

  function CallerOfM(m: ManagerMsg): set<Caller> {
    match m
    case MWatch(w) => {w.caller}
    case MReap(w) => {w.caller}
    case MShutdown => {}
  }

  /** Dropping a queue drops the reply channels in it, which wakes their callers. */
  function CallersIn(q: seq<TrackerMsg>): set<Caller> {
    set m, k | m in q && k in CallerOf(m) :: k
  }

  function CallersInM(q: seq<ManagerMsg>): set<Caller> {
    set m, k | m in q && k in CallerOfM(m) :: k
  }

  function Enqueue(s: World, t: nat, m: TrackerMsg): World
    requires t < |s.trackers|
  {
    s.(trackers := s.trackers[t := s.trackers[t].(queue := s.trackers[t].queue + [m])])
  }

  function ForwardToTracker(s: World): World
    requires s.mctl.Forwarding? && s.mctl.t < |s.trackers|
  {
    var s' := s.(mctl := Ready);
    if s.trackers[s.mctl.t].phase.Ended? then s'.(replies := s.replies + CallerOf(s.mctl.m))
    else Enqueue(s', s.mctl.t, s.mctl.m)
  }

  // --- Effects of a tracker ---

  function SetPhase(s: World, t: nat, p: Phase): World
    requires t < |s.trackers|
  {
    s.(trackers := s.trackers[t := s.trackers[t].(phase := p)])
  }

  function EndTracker(s: World, t: nat): World
    requires t < |s.trackers|
  {
    s.(trackers := s.trackers[t := s.trackers[t].(phase := Ended, queue := [])],
       replies := s.replies + CallersIn(s.trackers[t].queue))
  }

  function Repeat(id: Id, n: nat): (r: seq<Id>)
    ensures |r| == n && forall x :: x in r ==> x == id
  {
    seq(n, _ => id)
  }

  function EvidenceOf(t: nat, at: nat, asset: Option<u32>, i: Invoice, v: Visit): set<Evidence> {
    (if v.transfer && Covers(i, v.atTransfer) then {Evidence(t, at, asset, i, v.atTransfer.value)} else {})
    + (if v.due && Covers(i, v.atDue) then {Evidence(t, at, asset, i, v.atDue.value)} else {})
  }

  function VisitInvoice(s: World, t: nat, id: Id, v: Visit): World
    requires t < |s.trackers| && s.trackers[t].phase.Checking? && id in s.trackers[t].watched
  {
    var p := s.trackers[t].phase;
    var i := s.trackers[t].watched[id];
    SetPhase(s, t, p.(todo := p.todo - {id},
                      reports := Repeat(id, Reports(i, v)),
                      removals := if Dropped(i, v) then p.removals + {id} else p.removals))
    .(d := s.d.(evidence := s.d.evidence + EvidenceOf(t, p.at, AssetOf(p.assets, i.currency), i, v)))
  }

  function SendReport(s: World, t: nat): World
    requires t < |s.trackers| && s.trackers[t].phase.Checking? && s.trackers[t].phase.reports != []
  {
    var p := s.trackers[t].phase;
    var s' := SetPhase(s, t, p.(reports := p.reports[1..]));
    if s.ctl.Stopped? then s' else s'.(stateQ := s.stateQ + [OrderPaid(p.reports[0])])
  }

  function TakeTrackerMsg(s: World, t: nat, outcome: BlockOutcome): World
    requires t < |s.trackers| && s.trackers[t].phase.Serving? && |s.trackers[t].queue| > 0
  {
    var x := s.trackers[t];
    var x' := x.(queue := x.queue[1..]);
    var s' := s.(trackers := s.trackers[t := x']);
    match x.queue[0]
    case TNewBlock =>
      (match outcome
       case Process(at) => SetPhase(s', t, Checking(x.phase.assets, true, at, x.watched.Keys, [], {}))
       case Reconnect => SetPhase(s', t, Connecting)
       case Die => EndTracker(s', t))
    case TWatch(w) =>
      s.(trackers := s.trackers[t := x'.(watched := x.watched[w.id := FromRequest(w)])],
         replies := s.replies + {w.caller})
    case TReap(w) => s'.(tasks := s.tasks + [Task(t, x.phase.assets, w)])
    case TShutdown => EndTracker(s', t)
  }

  /** The author is the watched address; the signer derives its key from recipient and order id. */
  function PayoutOf(c: Config, w: Watch): Payout {
    Payout(w.id, w.address, c.account(c.recipient, w.id), w.currency, w.amount, w.recipient)
  }

  function StartPayout(c: Config, s: World, k: nat): World
    requires k < |s.tasks|
  {
    var w := s.tasks[k].w;
    s.(tasks := s.tasks[..k] + s.tasks[k + 1..],
       replies := s.replies + {w.caller},
       d := s.d.(started := s.d.started + [PayoutOf(c, w)]))
  }

  ghost function Apply(c: Config, s: World, st: Step): World
    requires Enabled(c, s, st)
  {
    match st
    case ClientCreate(q) => s.(stateQ := s.stateQ + [CreateInvoice(q)])
    case ClientAsk => s.(stateQ := s.stateQ + [Inquiry])
    case Cancel => s.(cancelled := true)
    case Crash => Started(c, s.d)
    case Boot(list) => s.(ctl := Idle, restore := list, booted := list)
    case StateTake(now) => TakeStateMsg(c, s, now)
    case StateSend => SendToManager(s)
    case StateResume => s.(ctl := Idle, replies := s.replies - {StateTask})
    case StateCancel => s.(ctl := Sending(MShutdown))
    case StateStop => s.(ctl := Stopped, stateQ := [])
    case StateGivesUp => s.(ctl := Stopped, stateQ := [])
    case RestoreSend => SubmitRestored(c, s)
    case RestoreResume => s.(restoreWaits := false, replies := s.replies - {RestoreTask})
    case ManagerTake => TakeManagerMsg(c, s)
    case ManagerForward => ForwardToTracker(s)
    case ManagerDrain(t) =>
      var s' := s.(mctl := Draining(s.mctl.todo - {t}));
      if s.trackers[t].phase.Ended? then s' else Enqueue(s', t, TShutdown)
    case ManagerFinish => s.(mctl := Gone, managerQ := [], replies := s.replies + CallersInM(s.managerQ))
    case BlockArrives(t) => Enqueue(s, t, TNewBlock)
    case TrackerConnect(t, report) => SetPhase(s, t, Announcing(Prepare(c.chains[t], report).value))
    case TrackerQuit(t) => EndTracker(s, t)
    case TrackerAnnounce(t, at) =>
      var x := s.trackers[t];
      var s' := SetPhase(s, t, Checking(x.phase.assets, false, at, x.watched.Keys, [], {}));
      if s.ctl.Stopped? then s' else s'.(stateQ := s.stateQ + [ConnectChain(x.phase.assets)])
    case TrackerVisit(t, id, _, v) => VisitInvoice(s, t, id, v)
    case TrackerReport(t) => SendReport(s, t)
    case TrackerSettle(t) =>
      var x := s.trackers[t];
      s.(trackers := s.trackers[t := x.(watched := x.watched - x.phase.removals, phase := Serving(x.phase.assets))])
    case TrackerTake(t, outcome) => TakeTrackerMsg(s, t, outcome)
    case TrackerTimeout(t) => SetPhase(s, t, Connecting)
    case PayoutStart(k) => StartPayout(c, s, k)
  }

  // --- What an actor's step can touch ---

  predicate OfTrackers(st: Step) {
    st.BlockArrives? || st.TrackerConnect? || st.TrackerQuit? || st.TrackerAnnounce? || st.TrackerVisit?
    || st.TrackerReport? || st.TrackerSettle? || st.TrackerTake? || st.TrackerTimeout?
  }

  lemma StoreVersionFrame(d: Durable, id: Id, o: OrderInfo)
    ensures var d' := StoreVersion(d, id, o);
            d' == d.(db := d'.db, versions := d'.versions)
  {
  }

  lemma TakeCreateFrame(c: Config, s: World, q: OrderQuery, now: u64)
    requires s.ctl.Idle?
    ensures var s' := TakeCreate(c, s, q, now);
            && s' == s.(d := s'.d, ctl := s'.ctl)
            && s'.d == s.d.(db := s'.d.db, versions := s'.d.versions)
            && (s'.ctl.Idle? || (s'.ctl.Sending? && s'.ctl.m.MWatch?))
  {
    forall id, o { StoreVersionFrame(s.d, id, o); }
    hide CreateOrder, WatchOf, StoreVersion, DeathAt;
  }

  lemma TakePaidFrame(c: Config, s: World, id: Id)
    requires s.ctl.Idle?
    ensures var s' := TakePaid(c, s, id);
            && s' == s.(d := s.d.(db := s'.d.db), ctl := s'.ctl)
            && (s'.ctl.Idle? || (s'.ctl.Sending? && s'.ctl.m.MReap?))
  {
    hide MarkPaid, WatchOf;
  }

  /** The State handler's step on a message writes the order table, its currencies and its own control state. */
  lemma TakeStateMsgFrame(c: Config, s: World, now: u64)
    requires s.ctl.Idle? && |s.stateQ| > 0
    ensures var s' := TakeStateMsg(c, s, now);
            && s' == s.(d := s'.d, ctl := s'.ctl, stateQ := s.stateQ[1..], currencies := s'.currencies)
            && s'.d == s.d.(db := s'.d.db, versions := s'.d.versions)
            && (s'.ctl.Idle? || (s'.ctl.Sending? && !s'.ctl.m.MShutdown?))
  {
    hide TakeCreate, TakePaid;
    var s1 := s.(stateQ := s.stateQ[1..]);
    match s.stateQ[0] {
      case ConnectChain(_) =>
      case OrderPaid(id) => TakePaidFrame(c, s1, id);
      case CreateInvoice(q) => TakeCreateFrame(c, s1, q, now);
      case Inquiry =>
    }
  }

  lemma EndTrackerFrame(s: World, t: nat)
    requires t < |s.trackers|
    ensures var s' := EndTracker(s, t);
            s' == s.(trackers := s.trackers[t := s'.trackers[t]], replies := s'.replies)
  {
    hide CallersIn;
  }

  lemma TakeTrackerMsgFrame(s: World, t: nat, outcome: BlockOutcome)
    requires t < |s.trackers| && s.trackers[t].phase.Serving? && |s.trackers[t].queue| > 0
    ensures var s' := TakeTrackerMsg(s, t, outcome);
            s' == s.(trackers := s.trackers[t := s'.trackers[t]], tasks := s'.tasks, replies := s'.replies)
  {
    hide CallersIn, EndTracker;
    var x := s.trackers[t];
    EndTrackerFrame(s.(trackers := s.trackers[t := x.(queue := x.queue[1..])]), t);
  }

  ghost predicate OnlyTracker(s: World, s': World, t: nat) {
    && s' == s.(d := s.d.(evidence := s'.d.evidence), trackers := s'.trackers, stateQ := s'.stateQ,
                tasks := s'.tasks, replies := s'.replies)
    && s.d.evidence <= s'.d.evidence
    && t < |s.trackers| == |s'.trackers| && s'.trackers == s.trackers[t := s'.trackers[t]]
  }

  lemma PhaseFrame(c: Config, s: World, st: Step)
    requires Enabled(c, s, st) && (st.BlockArrives? || st.TrackerConnect? || st.TrackerQuit? || st.TrackerTimeout?)
    ensures OnlyTracker(s, Apply(c, s, st), st.t)
  {
    hide Prepare, CallersIn;
  }

  lemma NotifyFrame(c: Config, s: World, st: Step)
    requires Enabled(c, s, st) && (st.TrackerAnnounce? || st.TrackerReport?)
    ensures OnlyTracker(s, Apply(c, s, st), st.t)
  {
  }

  lemma RoundFrame(c: Config, s: World, st: Step)
    requires Enabled(c, s, st) && (st.TrackerVisit? || st.TrackerSettle?)
    ensures OnlyTracker(s, Apply(c, s, st), st.t)
  {
    hide EvidenceOf, Reports, Dropped, VisitAllowed;
  }

  lemma TakeFrame(c: Config, s: World, st: Step)
    requires Enabled(c, s, st) && st.TrackerTake?
    ensures OnlyTracker(s, Apply(c, s, st), st.t)
  {
    hide TakeTrackerMsg;
    TakeTrackerMsgFrame(s, st.t, st.outcome);
  }

  /** A tracker writes its own state, the State's queue, payout tasks, replies and evidence, nothing else. */
  lemma TrackerFrame(c: Config, s: World, st: Step)
    requires Enabled(c, s, st) && OfTrackers(st)
    ensures OnlyTracker(s, Apply(c, s, st), st.t)
  {
    hide Apply, Enabled, OnlyTracker, OnlyManager, OnlyState;
    match st {
      case TrackerAnnounce(_, _) => NotifyFrame(c, s, st);
      case TrackerReport(_) => NotifyFrame(c, s, st);
      case TrackerVisit(_, _, _, _) => RoundFrame(c, s, st);
      case TrackerSettle(_) => RoundFrame(c, s, st);
      case TrackerTake(_, _) => TakeFrame(c, s, st);
      case BlockArrives(_) => PhaseFrame(c, s, st);
      case TrackerConnect(_, _) => PhaseFrame(c, s, st);
      case TrackerQuit(_) => PhaseFrame(c, s, st);
      case TrackerTimeout(_) => PhaseFrame(c, s, st);
    }
  }

  predicate OfManager(st: Step) {
    st.ManagerTake? || st.ManagerForward? || st.ManagerDrain? || st.ManagerFinish?
  }

  ghost predicate OnlyManager(s: World, s': World) {
    && s' == s.(mctl := s'.mctl, managerQ := s'.managerQ, trackers := s'.trackers, replies := s'.replies)
    && (s'.managerQ == s.managerQ || s'.managerQ == [] || (|s.managerQ| > 0 && s'.managerQ == s.managerQ[1..]))
    && s.replies <= s'.replies
    && |s'.trackers| == |s.trackers|
    && forall t :: 0 <= t < |s.trackers| ==>
         && s.trackers[t].queue <= s'.trackers[t].queue
         && s'.trackers[t] == s.trackers[t].(queue := s'.trackers[t].queue)
  }

  lemma ManagerTakeFrame(c: Config, s: World)
    requires Enabled(c, s, ManagerTake)
    ensures OnlyManager(s, Apply(c, s, ManagerTake))
  {
    hide Route, Drained;
    assert Apply(c, s, ManagerTake).trackers == s.trackers;
  }

  lemma ManagerForwardFrame(c: Config, s: World)
    requires Enabled(c, s, ManagerForward)
    ensures OnlyManager(s, Apply(c, s, ManagerForward))
  {
    hide CallerOf;
  }

  lemma ManagerDrainFrame(c: Config, s: World, t: nat)
    requires Enabled(c, s, ManagerDrain(t))
    ensures OnlyManager(s, Apply(c, s, ManagerDrain(t)))
  {
  }

  lemma ManagerFinishFrame(c: Config, s: World)
    requires Enabled(c, s, ManagerFinish)
    ensures OnlyManager(s, Apply(c, s, ManagerFinish))
  {
    hide CallersInM;
  }

  /** The manager shortens its own queue, lengthens those of trackers and answers callers. */
  lemma ManagerFrame(c: Config, s: World, st: Step)
    requires Enabled(c, s, st) && OfManager(st)
    ensures OnlyManager(s, Apply(c, s, st))
  {
    hide Apply, Enabled, OnlyTracker, OnlyManager, OnlyState;
    match st {
      case ManagerTake => ManagerTakeFrame(c, s);
      case ManagerForward => ManagerForwardFrame(c, s);
      case ManagerDrain(t) => ManagerDrainFrame(c, s, t);
      case ManagerFinish => ManagerFinishFrame(c, s);
    }
  }

  lemma PayoutFrame(c: Config, s: World, st: Step)
    requires Enabled(c, s, st) && st.PayoutStart?
    ensures var s' := Apply(c, s, st);
            s' == s.(tasks := s'.tasks, replies := s'.replies, d := s.d.(started := s'.d.started))
  {
    hide PayoutOf;
  }

  /** The steps of clients, of the restore task and of the State handler between two messages. */
  predicate OfState(st: Step) {
    st.ClientCreate? || st.ClientAsk? || st.Cancel? || st.Boot? || st.StateSend? || st.StateResume? || st.StateCancel?
    || st.StateStop? || st.StateGivesUp? || st.RestoreSend? || st.RestoreResume?
  }

  ghost predicate OnlyState(s: World, s': World) {
    && s' == s.(d := s.d.(issued := s'.d.issued), ctl := s'.ctl, stateQ := s'.stateQ, restore := s'.restore,
                restoreWaits := s'.restoreWaits, booted := s'.booted, submitted := s'.submitted,
                managerQ := s'.managerQ, replies := s'.replies, cancelled := s'.cancelled)
    && s.managerQ <= s'.managerQ
  }

  lemma ClientFrame(c: Config, s: World, st: Step)
    requires Enabled(c, s, st)
    requires st.ClientCreate? || st.ClientAsk? || st.Cancel? || st.StateResume? || st.RestoreResume? || st.Boot?
    ensures OnlyState(s, Apply(c, s, st))
  {
    hide ListsPending;
  }

  lemma StopFrame(c: Config, s: World, st: Step)
    requires Enabled(c, s, st) && (st.StateCancel? || st.StateStop? || st.StateGivesUp?)
    ensures OnlyState(s, Apply(c, s, st))
  {
  }

  lemma SendFrame(c: Config, s: World)
    requires Enabled(c, s, StateSend)
    ensures OnlyState(s, Apply(c, s, StateSend))
  {
  }

  lemma SubmitFrame(c: Config, s: World)
    requires Enabled(c, s, RestoreSend)
    ensures OnlyState(s, Apply(c, s, RestoreSend))
  {
    hide WatchOf;
  }

  lemma StateFrame(c: Config, s: World, st: Step)
    requires Enabled(c, s, st) && OfState(st)
    ensures OnlyState(s, Apply(c, s, st))
  {
    hide Apply, Enabled, OnlyTracker, OnlyManager, OnlyState;
    match st {
      case RestoreSend => SubmitFrame(c, s);
      case StateCancel => StopFrame(c, s, st);
      case StateStop => StopFrame(c, s, st);
      case StateGivesUp => StopFrame(c, s, st);
      case StateSend => SendFrame(c, s);
      case ClientCreate(_) => ClientFrame(c, s, st);
      case ClientAsk => ClientFrame(c, s, st);
      case Cancel => ClientFrame(c, s, st);
      case StateResume => ClientFrame(c, s, st);
      case RestoreResume => ClientFrame(c, s, st);
      case Boot(_) => ClientFrame(c, s, st);
    }
  }

  // --- Runs ---

  /** s' is reached from s by these steps, each enabled when taken. */
  ghost predicate Runs(c: Config, s: World, steps: seq<Step>, s': World)
    decreases |steps|
  {
    if |steps| == 0 then s == s'
    else Enabled(c, s, steps[0]) && Runs(c, Apply(c, s, steps[0]), steps[1..], s')
  }

  lemma {:induction false} RunsOn(c: Config, s: World, one: seq<Step>, s1: World, two: seq<Step>, s2: World)
    requires Runs(c, s, one, s1) && Runs(c, s1, two, s2)
    ensures Runs(c, s, one + two, s2)
    decreases |one|
  {
    hide Apply, Enabled;
    if |one| == 0 {
      assert one + two == two;
    } else {
      RunsOn(c, Apply(c, s, one[0]), one[1..], s1, two, s2);
      assert (one + two)[1..] == one[1..] + two;
    }
  }

  ghost predicate Reachable(c: Config, s: World) {
    exists steps :: Runs(c, Init(c), steps, s)
  }
}
