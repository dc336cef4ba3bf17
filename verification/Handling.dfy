// The State handler as an object over the database and the signer, proved against the steps of the
// protocol: what it stores, and which request it sends to the chain manager.
module Handling {
  import opened Definitions
  import opened Ledger
  import opened Chains
  import opened Watching
  import opened Protocol
  import opened Intake
  import Store
  import Signing

  /** The signer's derivation and printing are those of the configuration. */
  ghost predicate Derives(c: Config, crypto: Signing.Crypto, entropy: Signing.Entropy) {
    && crypto.toBase58 == c.toBase58
    && forall id :: crypto.derive(entropy, c.recipient, id) == c.account(c.recipient, id)
  }

  /** A start over a table that survived: new objects are the newly started daemon. */
  method Restart(c: Config, db: Store.Database, ghost d: Durable, crypto: Signing.Crypto, entropy: Signing.Entropy)
    returns (h: StateData)
    requires db.accountLifetime == c.lifetime && Store.Represents(db.format, db.orders, d.db)
    requires Derives(c, crypto, entropy)
    ensures fresh(h) && fresh(h.signer) && h.db == db && h.signer.serving && h.Models(c, Started(c, d))
  {
    hide Store.Represents;
    var signer := new Signing.Signer(crypto, c.recipient, entropy);
    h := new StateData(c.recipient, db, signer);
  }

  /** The first start. */
  method Start(c: Config, crypto: Signing.Crypto, entropy: Signing.Entropy) returns (h: StateData)
    requires Derives(c, crypto, entropy)
    ensures fresh(h) && fresh(h.signer) && fresh(h.db) && h.signer.serving && h.Models(c, Init(c))
  {
    hide Store.Represents;
    var db := new Store.Database(c.lifetime);
    h := Restart(c, db, NothingYet(), crypto, entropy);
  }

  /** What the database answers to an order request. */
  function AnswerTo(c: Config, s: World, q: OrderQuery, now: u64): OrderCreateResponse
    requires q.currency in s.currencies
  {
    var currency := s.currencies[q.currency].Info(q.currency);
    var account := c.toBase58(c.account(c.recipient, q.order), currency.ss58);
    Ledger.CreateOrder(s.d.db, q.order, q, currency, account, DeathAt(now, c.lifetime)).1
  }

  /** The answer alone decides what is stored and whether a watch is asked for. */
  lemma AnswerDecides(c: Config, s: World, q: OrderQuery, now: u64)
    requires q.currency in s.currencies && s.ctl.Idle?
    ensures var currency := s.currencies[q.currency].Info(q.currency);
            var account := c.toBase58(c.account(c.recipient, q.order), currency.ss58);
            var r := AnswerTo(c, s, q, now);
            var s' := TakeCreate(c, s, q, now);
            && s'.d.db == Ledger.CreateOrder(s.d.db, q.order, q, currency, account, DeathAt(now, c.lifetime)).0
            && s'.currencies == s.currencies
            && s'.ctl == (if r.New? && WatchOf(c, q.order, r.info, StateTask).Some?
                          then Sending(MWatch(WatchOf(c, q.order, r.info, StateTask).value)) else Idle)
            && (r.New? <==> q.order !in s.d.db)
  {
    hide WatchOf, ValidUtf8;
  }

  /** The record and the request of a new order. */
  ghost predicate StartsOrder(c: Config, o: OrderInfo, m: ManagerMsg, q: OrderQuery, p: CurrencyProperties, now: u64) {
    && m.MWatch? && MeantFor(c, m.w, q, p, now)
    && RecordsRequest(o, q, o.currency, o.paymentAccount, now, c.lifetime)
    && IsCurrency(o.currency, q.currency, p) && PrintsOwnAccount(c, o, q.order, p)
  }

  lemma NewOrderStarts(c: Config, s: World, q: OrderQuery, now: u64)
    requires c.Valid() && s.ctl.Idle? && q.currency in s.currencies && q.order !in s.d.db
    ensures var r := AnswerTo(c, s, q, now);
            && r.New? && WatchOf(c, q.order, r.info, StateTask).Some?
            && StartsOrder(c, r.info, MWatch(WatchOf(c, q.order, r.info, StateTask).value), q, s.currencies[q.currency], now)
  {
    AnswerDecides(c, s, q, now);
    NewOrderIsAsked(c, s, q, now);
    assert AnswerTo(c, s, q, now).info == TakeCreate(c, s, q, now).d.db[q.order];
    hide TakeCreate, Ledger.CreateOrder, AnswerTo, WatchOf, MeantFor, RecordsRequest, IsCurrency, PrintsOwnAccount, OnlyStores, ValidUtf8;
  }

  datatype CreateError = UnknownCurrency | SignerDown | Db(error: DbError)

  class StateData {
    const recipient: Account
    const db: Store.Database
    const signer: Signing.Signer
    var currencies: Assets

    constructor (recipient: Account, db: Store.Database, signer: Signing.Signer)
      ensures this.recipient == recipient && this.db == db && this.signer == signer && currencies == map[]
    {
      this.recipient, this.db, this.signer, currencies := recipient, db, signer, map[];
    }

    /** The objects hold what the state machine calls its world: the same currencies, and its orders as bytes. */
    ghost predicate Models(c: Config, s: World)
      reads this, db, signer
    {
      && recipient == c.recipient && currencies == s.currencies
      && db.accountLifetime == c.lifetime && Store.Represents(db.format, db.orders, s.d.db)
      && signer.recipient == c.recipient && signer.crypto.toBase58 == c.toBase58
      && forall id :: signer.Account(id) == c.account(c.recipient, id)
    }

    /** extend: an entry of a later connection replaces an earlier one of the same name. */
    method UpdateCurrencies(assets: Assets)
      modifies this
      ensures currencies == old(currencies) + assets
    {
      var rest := assets.Keys;
      while rest != {}
        invariant rest <= assets.Keys
        invariant currencies == old(currencies) + (map n | n in assets && n !in rest :: assets[n])
        decreases rest
      {
        var n :| n in rest;
        rest := rest - {n};
        currencies := currencies[n := assets[n]];
      }
      assert (map n | n in assets && n !in rest :: assets[n]) == assets;
    }

    /** ChainManager::add_invoice and reap build the request; it fails if the stored address does not parse. */
    method RequestFor(c: Config, id: Id, o: OrderInfo) returns (w: Option<Watch>)
      requires recipient == c.recipient
      ensures w == WatchOf(c, id, o, StateTask)
    {
      var address := c.fromBase58(o.paymentAccount);
      if address.None? {
        return None;
      }
      w := Some(Watch(id, address.value, o.currency.currency, c.units(o.amount, o.currency.decimals), recipient, o.death, StateTask));
    }

    /**
     * The record is stored before the manager is asked to have it watched; only a new order is. A
     * signer that is down is an error that changes nothing.
     */
    method CreateInvoice(c: Config, ghost s: World, query: OrderQuery, now: u64)
      returns (r: Result<OrderCreateResponse, CreateError>, out: Option<ManagerMsg>)
      requires Models(c, s) && s.ctl.Idle?
      modifies db
      ensures signer.serving ==> Models(c, TakeCreate(c, s, query, now))
      ensures signer.serving ==> TakeCreate(c, s, query, now).ctl == (if out.Some? then Sending(out.value) else Idle)
      ensures !signer.serving ==> Models(c, s) && out.None?
      ensures query.currency !in currencies || query.order in s.d.db ==> out.None?
      ensures r == Err(UnknownCurrency) <==> query.currency !in currencies
      ensures r == Err(SignerDown) <==> query.currency in currencies && !signer.serving
      ensures out.Some? ==> r.Ok? && r.value.New?
      ensures signer.serving && c.Valid() && query.currency in currencies && query.order !in s.d.db ==>
                out.Some? && r.Ok? && r.value.New?
                && StartsOrder(c, r.value.info, out.value, query, currencies[query.currency], now)
      ensures r.Ok? ==> r.value == AnswerTo(c, s, query, now)
    {
      hide Store.Represents, ValidUtf8, TakeCreate, Ledger.CreateOrder, WatchOf, DeathAt, StartsOrder, Config.Valid;
      hide RecordsRequest, Amends;
      out := None;
      if query.currency !in currencies {
        UnknownCurrencyIsRefused(c, s, query, now);
        return Err(UnknownCurrency), None;
      }
      AnswerDecides(c, s, query, now);
      if c.Valid() && query.order !in s.d.db {
        NewOrderStarts(c, s, query, now);
      }
      var currency := currencies[query.currency].Info(query.currency);
      var paymentAccount := signer.Public(query.order, currency.ss58);
      if paymentAccount.None? {
        return Err(SignerDown), None;
      }
      var response := db.CreateOrder(query.order, query, currency, paymentAccount.value, now);
      match response {
        case Err(error) =>
          r := Err(Db(error));
        case Ok(created) =>
          r := Ok(created);
          match created {
            case New(info) =>
              var w := RequestFor(c, query.order, info);
              if w.Some? {
                out := Some(MWatch(w.value));
              }
            case Modified(_) =>
            case Collision(_) =>
          }
      }
    }

    /** Only a payment that was recorded leads to a payout request. */
    method OrderPaid(c: Config, ghost s: World, id: Id) returns (out: Option<ManagerMsg>)
      requires Models(c, s) && s.ctl.Idle?
      modifies db
      ensures Models(c, TakePaid(c, s, id))
      ensures TakePaid(c, s, id).ctl == (if out.Some? then Sending(out.value) else Idle)
      ensures out.Some? <==> id in s.d.db && s.d.db[id].paymentStatus == Pending && c.fromBase58(s.d.db[id].paymentAccount).Some?
      ensures out.Some? ==> out.value.MReap? && AsksFor(c, out.value.w, id, s.d.db[id]) && out.value.w.caller == StateTask
    {
      hide Store.Represents, ValidUtf8, AsksFor;
      PaymentIsAsked(c, s, id);
      out := None;
      var marked := db.MarkPaid(id);
      match marked {
        case Ok(order) =>
          var w := RequestFor(c, id, order);
          if w.Some? {
            out := Some(MReap(w.value));
          }
        case Err(_) =>
      }
    }

    /** One message from the queue, as the step of the state machine takes it while the signer serves. */
    method TakeMessage(c: Config, ghost s: World, m: StateMsg, now: u64) returns (out: Option<ManagerMsg>)
      requires Models(c, s) && s.ctl.Idle? && |s.stateQ| > 0 && s.stateQ[0] == m
      modifies this, db
      ensures signer.serving || !m.CreateInvoice? ==>
                && Models(c, TakeStateMsg(c, s, now))
                && TakeStateMsg(c, s, now).ctl == (if out.Some? then Sending(out.value) else Idle)
      ensures !signer.serving && m.CreateInvoice? ==> Models(c, s) && out.None?
      ensures m.CreateInvoice? && signer.serving && c.Valid() && m.query.currency in s.currencies && m.query.order !in s.d.db ==>
                out.Some? && out.value.MWatch? && MeantFor(c, out.value.w, m.query, s.currencies[m.query.currency], now)
      ensures m.CreateInvoice? && (m.query.currency !in s.currencies || m.query.order in s.d.db) ==> out.None?
      ensures m.OrderPaid? ==>
                (out.Some? <==> m.id in s.d.db && s.d.db[m.id].paymentStatus == Pending
                                && c.fromBase58(s.d.db[m.id].paymentAccount).Some?)
      ensures m.OrderPaid? && out.Some? ==>
                out.value.MReap? && AsksFor(c, out.value.w, m.id, s.d.db[m.id]) && out.value.w.caller == StateTask
      ensures m.ConnectChain? ==> out.None? && currencies == old(currencies) + m.assets
      ensures m.Inquiry? ==> out.None?
    {
      hide Store.Represents, TakeCreate, TakePaid, MeantFor, AsksFor, ValidUtf8, Config.Valid;
      ghost var s' := s.(stateQ := s.stateQ[1..]);
      out := None;
      match m {
        case ConnectChain(assets) =>
          UpdateCurrencies(assets);
        case OrderPaid(id) =>
          out := OrderPaid(c, s', id);
        case CreateInvoice(query) =>
          var _, request := CreateInvoice(c, s', query, now);
          out := request;
        case Inquiry =>
      }
    }

    /** The restore list of a start: the pending orders, each once. */
    method RestoreList(c: Config, ghost s: World) returns (list: seq<(Id, OrderInfo)>)
      requires Models(c, s) && s.ctl.Booting?
      ensures Enabled(c, s, Boot(list)) && Apply(c, s, Boot(list)).restore == list
    {
      hide Store.Represents;
      list := db.ActiveOrderList();
    }
  }
}
