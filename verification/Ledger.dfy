// What the database server promises, on a plain map from order id to record: each request as a
// function, and what holds over any sequence of requests.
module Ledger {
  import opened Definitions

  type Orders = map<Id, OrderInfo>

  datatype DbError =
    | AlreadyPaid(order: Id)
    | OrderNotFound(order: Id)
    | NotPaid(order: Id)
    | WithdrawalWasAttempted(order: Id)
    | CodecError

  datatype OrderCreateResponse = New(info: OrderInfo) | Modified(info: OrderInfo) | Collision(info: OrderInfo)

  /** The deadline of an order: 64-bit addition, which wraps in a release build. */
  function DeathAt(now: u64, lifetime: u64): u64 {
    (now + lifetime) % 0x1_0000_0000_0000_0000
  }

  function NewOrder(query: OrderQuery, currency: CurrencyInfo, account: Text, death: u64): OrderInfo {
    OrderInfo(Waiting, Pending, query.amount, currency, query.callback, [], account, death)
  }

  function CreateOrder(m: Orders, id: Id, query: OrderQuery, currency: CurrencyInfo, account: Text, death: u64)
    : (Orders, OrderCreateResponse)
  {
    if id !in m then
      var o := NewOrder(query, currency, account, death);
      (m[id := o], New(o))
    else if m[id].paymentStatus.Pending? then
      var o := m[id].(death := death, currency := currency, amount := query.amount);
      (m[id := o], Modified(o))
    else
      (m, Collision(m[id]))
  }

  function MarkPaid(m: Orders, id: Id): (Orders, Result<OrderInfo, DbError>) {
    if id !in m then (m, Err(OrderNotFound(id)))
    else if m[id].paymentStatus.Paid? then (m, Err(AlreadyPaid(id)))
    else
      var o := m[id].(paymentStatus := Paid);
      (m[id := o], Ok(o))
  }

  /** Why a withdrawal result cannot be recorded on this record, if it cannot. */
  function Refusal(o: OrderInfo, id: Id): Option<DbError> {
    if o.paymentStatus.Pending? then Some(NotPaid(id))
    else if o.withdrawalStatus != Waiting then Some(WithdrawalWasAttempted(id))
    else None
  }

  /** Recording a withdrawal result with one key for reading and writing. */
  function Settle(m: Orders, id: Id, target: WithdrawalStatus): (Orders, Result<(), DbError>) {
    if id !in m then (m, Err(OrderNotFound(id)))
    else
      match Refusal(m[id], id)
      case Some(e) => (m, Err(e))
      case None => (m[id := m[id].(withdrawalStatus := target)], Ok(()))
  }

  /** The restore list: every pending order with its record, each once, and nothing else. */
  ghost predicate ListsPending(m: Orders, list: seq<(Id, OrderInfo)>) {
    && (forall i, j :: 0 <= i < j < |list| ==> list[i].0 != list[j].0)
    && (forall id, o :: (id, o) in list <==> id in m && m[id] == o && o.paymentStatus.Pending?)
  }

  // --- What a request stores and answers, field by field ---

  /** A record as first stored for this request. */
  predicate RecordsRequest(o: OrderInfo, query: OrderQuery, currency: CurrencyInfo, account: Text, now: u64, lifetime: u64) {
    && o.callback == query.callback && o.amount == query.amount && o.currency == currency && o.paymentAccount == account
    && o.death == (now + lifetime) % 0x1_0000_0000_0000_0000 && o.transactions == []
    && o.paymentStatus == Pending && o.withdrawalStatus == Waiting
  }

  /** A record modified by this request: amount, currency and deadline are new, nothing else is. */
  predicate Amends(before: OrderInfo, o: OrderInfo, query: OrderQuery, currency: CurrencyInfo, now: u64, lifetime: u64) {
    && o.amount == query.amount && o.currency == currency && o.death == (now + lifetime) % 0x1_0000_0000_0000_0000
    && o.callback == before.callback && o.paymentAccount == before.paymentAccount && o.transactions == before.transactions
    && o.paymentStatus == before.paymentStatus && o.withdrawalStatus == before.withdrawalStatus
  }

  /** The records of all other orders are what they were, this one is o. */
  ghost predicate OnlyStores(m: Orders, m': Orders, id: Id, o: OrderInfo) {
    m'.Keys == m.Keys + {id} && m'[id] == o && forall other :: other in m && other != id ==> m'[other] == m[other]
  }

  /** Three answers: a new record, a modified one that was pending, or the paid one left alone. */
  lemma CreateStores(m: Orders, id: Id, query: OrderQuery, currency: CurrencyInfo, account: Text, now: u64, lifetime: u64)
    ensures var (m', r) := CreateOrder(m, id, query, currency, account, DeathAt(now, lifetime));
            if id !in m then r.New? && RecordsRequest(r.info, query, currency, account, now, lifetime) && OnlyStores(m, m', id, r.info)
            else if m[id].paymentStatus == Pending then
              r.Modified? && Amends(m[id], r.info, query, currency, now, lifetime) && OnlyStores(m, m', id, r.info)
            else r == Collision(m[id]) && m' == m
  {
    hide ValidUtf8;
  }

  /** A payment is recorded on a pending order and changes its payment status only; the two refusals change nothing. */
  lemma PayStores(m: Orders, id: Id)
    ensures var (m', r) := MarkPaid(m, id);
            if id !in m then r == Err(OrderNotFound(id)) && m' == m
            else if m[id].paymentStatus == Paid then r == Err(AlreadyPaid(id)) && m' == m
            else r == Ok(m[id].(paymentStatus := Paid)) && OnlyStores(m, m', id, m[id].(paymentStatus := Paid))
  {
    hide ValidUtf8;
  }

  /** What recording a withdrawal is meant to do: completed or stuck, once, on a paid order; each refusal has its error. */
  lemma SettlesAsMeant(lifetime: u64, m: Orders, id: Id, r: Request)
    requires r == Withdrawn(id) || r == Stuck(id)
    ensures var m' := Serve(lifetime, m, r);
            var target := if r.Withdrawn? then Completed else Failed;
            if id in m && m[id].paymentStatus == Paid && m[id].withdrawalStatus == Waiting
            then OnlyStores(m, m', id, m[id].(withdrawalStatus := target)) && Settle(m, id, target).1 == Ok(())
            else m' == m && Settle(m, id, target).1 == Err(
              if id !in m then OrderNotFound(id)
              else if m[id].paymentStatus == Pending then NotPaid(id) else WithdrawalWasAttempted(id))
  {
    hide ValidUtf8;
  }

  // --- Any sequence of requests ---

  datatype Request =
    | Create(id: Id, query: OrderQuery, currency: CurrencyInfo, account: Text, now: u64)
    | Read(id: Id)
    | Pay(id: Id)
    | Withdrawn(id: Id)
    | Stuck(id: Id)
    | List
    | Stop

  /** The records after one request; withdrawal results recorded under one key. */
  function Serve(lifetime: u64, m: Orders, r: Request): Orders {
    match r
    case Create(id, query, currency, account, now) =>
      CreateOrder(m, id, query, currency, account, DeathAt(now, lifetime)).0
    case Pay(id) => MarkPaid(m, id).0
    case Withdrawn(id) => Settle(m, id, Completed).0
    case Stuck(id) => Settle(m, id, Failed).0
    case Read(_) => m
    case List => m
    case Stop => m
  }

  function ServeAll(lifetime: u64, m: Orders, rs: seq<Request>): Orders {
    if |rs| == 0 then m
    else Serve(lifetime, ServeAll(lifetime, m, rs[..|rs| - 1]), rs[|rs| - 1])
  }

  /** Only a paid order can have a withdrawal result. */
  ghost predicate PendingWaits(m: Orders) {
    forall id :: id in m && m[id].paymentStatus.Pending? ==> m[id].withdrawalStatus.Waiting?
  }

  /** How one record may change: account and callback never; a paid record only from Waiting to a result. */
  ghost predicate Evolves(before: OrderInfo, after: OrderInfo) {
    && after.paymentAccount == before.paymentAccount
    && after.callback == before.callback
    && after.transactions == before.transactions
    && (before.paymentStatus.Paid? ==> after == before.(withdrawalStatus := after.withdrawalStatus))
    && (!before.withdrawalStatus.Waiting? ==> after.withdrawalStatus == before.withdrawalStatus)
  }

  ghost predicate AllEvolve(m: Orders, m': Orders) {
    forall id :: id in m ==> id in m' && Evolves(m[id], m'[id])
  }

  lemma ServeEvolves(lifetime: u64, m: Orders, r: Request)
    requires PendingWaits(m)
    ensures PendingWaits(Serve(lifetime, m, r))
    ensures AllEvolve(m, Serve(lifetime, m, r))
  {
    hide ValidUtf8;
    var m' := Serve(lifetime, m, r);
    forall id | id in m ensures id in m' && Evolves(m[id], m'[id]) {
    }
  }

  lemma AllEvolveTrans(m: Orders, m1: Orders, m2: Orders)
    requires AllEvolve(m, m1) && AllEvolve(m1, m2)
    ensures AllEvolve(m, m2)
  {
    forall id | id in m ensures id in m2 && Evolves(m[id], m2[id]) {
      assert id in m1 && Evolves(m[id], m1[id]) && Evolves(m1[id], m2[id]);
    }
  }

  /** Whatever the clients and trackers ask, every record follows its lifecycle and none is lost. */
  lemma {:induction false} Lifecycle(lifetime: u64, m: Orders, rs: seq<Request>)
    requires PendingWaits(m)
    ensures PendingWaits(ServeAll(lifetime, m, rs))
    ensures AllEvolve(m, ServeAll(lifetime, m, rs))
  {
    if |rs| > 0 {
      var m1 := ServeAll(lifetime, m, rs[..|rs| - 1]);
      Lifecycle(lifetime, m, rs[..|rs| - 1]);
      ServeEvolves(lifetime, m1, rs[|rs| - 1]);
      hide Serve, AllEvolve, PendingWaits;
      AllEvolveTrans(m, m1, ServeAll(lifetime, m, rs));
    } else {
    }
  }

  ghost predicate PaidIn(m: Orders, id: Id) {
    id in m && m[id].paymentStatus.Paid?
  }

  /** How many payment notifications of this order were answered Ok. */
  ghost function PaidReplies(lifetime: u64, m: Orders, rs: seq<Request>, id: Id): nat {
    if |rs| == 0 then 0
    else
      var before := rs[..|rs| - 1];
      PaidReplies(lifetime, m, before, id)
      + (if rs[|rs| - 1] == Pay(id) && MarkPaid(ServeAll(lifetime, m, before), id).1.Ok? then 1 else 0)
  }

  /** Only an Ok answer to its own notification makes an order paid. */
  lemma PaidStep(lifetime: u64, m: Orders, r: Request, id: Id)
    ensures r == Pay(id) && MarkPaid(m, id).1.Ok? ==> !PaidIn(m, id) && PaidIn(Serve(lifetime, m, r), id)
    ensures !(r == Pay(id) && MarkPaid(m, id).1.Ok?) ==> PaidIn(Serve(lifetime, m, r), id) == PaidIn(m, id)
  {
    hide ValidUtf8;
  }

  /**
   * However often an order is reported paid, the first report alone is answered Ok: the number of
   * Ok answers is one exactly when the order became paid during the run.
   */
  lemma {:induction false} PaidOnce(lifetime: u64, m: Orders, rs: seq<Request>, id: Id)
    ensures PaidReplies(lifetime, m, rs, id)
         == (if PaidIn(ServeAll(lifetime, m, rs), id) && !PaidIn(m, id) then 1 else 0)
    ensures PaidIn(m, id) ==> PaidIn(ServeAll(lifetime, m, rs), id)
  {
    if |rs| > 0 {
      PaidOnce(lifetime, m, rs[..|rs| - 1], id);
      PaidStep(lifetime, ServeAll(lifetime, m, rs[..|rs| - 1]), rs[|rs| - 1], id);
      hide Serve, PaidIn, MarkPaid;
    }
  }
}
