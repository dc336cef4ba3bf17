// What the State handler does with a client's request and with a payment notification, field by
// field: the record it keeps and the request it makes of the chain manager.
module Intake {
  import opened Definitions
  import opened Ledger
  import opened Chains
  import opened Watching
  import opened Protocol

  /** The request carries the terms of this record of the order. */
  ghost predicate AsksFor(c: Config, w: Watch, id: Id, o: OrderInfo) {
    && w.id == id
    && c.fromBase58(o.paymentAccount) == Some(w.address)
    && w.currency == o.currency.currency
    && w.amount == c.units(o.amount, o.currency.decimals)
    && w.recipient == c.recipient
    && w.death == o.death
  }

  /** A request can be made of exactly the records whose address parses. */
  lemma RequestIff(c: Config, id: Id, o: OrderInfo, k: Caller)
    ensures WatchOf(c, id, o, k).Some? <==> c.fromBase58(o.paymentAccount).Some?
    ensures WatchOf(c, id, o, k).Some? ==> AsksFor(c, WatchOf(c, id, o, k).value, id, o) && WatchOf(c, id, o, k).value.caller == k
  {
  }

  /** The record's currency is the one known under this name. */
  predicate IsCurrency(info: CurrencyInfo, name: Text, p: CurrencyProperties) {
    && info.currency == name && info.chainName == p.chainName && info.kind == p.kind && info.decimals == p.decimals
    && info.rpcUrl == p.rpcUrl && info.assetId == p.assetId && info.ss58 == p.ss58
  }

  lemma InfoIs(p: CurrencyProperties, name: Text)
    ensures IsCurrency(p.Info(name), name, p)
  {
  }

  /** The request to watch the order at its own account, for what the client asked for. */
  ghost predicate MeantFor(c: Config, w: Watch, q: OrderQuery, p: CurrencyProperties, now: u64) {
    && w.id == q.order
    && w.address == c.account(c.recipient, q.order)
    && w.currency == q.currency
    && w.amount == c.units(q.amount, p.decimals)
    && w.recipient == c.recipient
    && w.death == (now + c.lifetime) % 0x1_0000_0000_0000_0000
    && w.caller == StateTask
  }

  /** The record's address is that of the order's own account, printed with the prefix of the currency. */
  ghost predicate PrintsOwnAccount(c: Config, o: OrderInfo, id: Id, p: CurrencyProperties) {
    o.paymentAccount == c.toBase58(c.account(c.recipient, id), p.ss58)
  }

  ghost predicate StoresNew(c: Config, d: Durable, d': Durable, q: OrderQuery, p: CurrencyProperties, now: u64) {
    q.order in d'.db && var o := d'.db[q.order];
    && OnlyStores(d.db, d'.db, q.order, o)
    && RecordsRequest(o, q, o.currency, o.paymentAccount, now, c.lifetime)
    && IsCurrency(o.currency, q.currency, p) && PrintsOwnAccount(c, o, q.order, p)
    && d' == d.(db := d'.db, versions := d.versions + [(q.order, o)])
  }

  ghost predicate StoresAmended(c: Config, d: Durable, d': Durable, q: OrderQuery, p: CurrencyProperties, now: u64) {
    q.order in d.db && q.order in d'.db && var o := d'.db[q.order];
    && OnlyStores(d.db, d'.db, q.order, o)
    && Amends(d.db[q.order], o, q, o.currency, now, c.lifetime)
    && IsCurrency(o.currency, q.currency, p)
    && d' == d.(db := d'.db, versions := d.versions + [(q.order, o)])
  }

  /** A new order is stored, and the handler is about to have it watched at its own account. */
  lemma NewOrderIsAsked(c: Config, s: World, q: OrderQuery, now: u64)
    requires c.Valid() && s.ctl.Idle? && q.currency in s.currencies && q.order !in s.d.db
    ensures var s', p := TakeCreate(c, s, q, now), s.currencies[q.currency];
            && s'.ctl.Sending? && s'.ctl.m.MWatch? && MeantFor(c, s'.ctl.m.w, q, p, now)
            && StoresNew(c, s.d, s'.d, q, p, now)
            && s' == s.(d := s'.d, ctl := s'.ctl)
  {
    hide ValidUtf8;
    var p := s.currencies[q.currency];
    InfoIs(p, q.currency);
    var account := c.toBase58(c.account(c.recipient, q.order), p.ss58);
    CreateStores(s.d.db, q.order, q, p.Info(q.currency), account, now, c.lifetime);
    hide CreateOrder, OnlyStores;
    RequestIff(c, q.order, CreateOrder(s.d.db, q.order, q, p.Info(q.currency), account, DeathAt(now, c.lifetime)).1.info, StateTask);
    hide DeathAt, WatchOf, CurrencyProperties.Info;
  }

  /** Nothing is asked for a known order: a pending record is amended, a paid one is left alone. */
  lemma KnownOrderIsNotAsked(c: Config, s: World, q: OrderQuery, now: u64)
    requires s.ctl.Idle? && q.currency in s.currencies && q.order in s.d.db
    ensures var s' := TakeCreate(c, s, q, now);
            && s' == s.(d := s'.d)
            && if s.d.db[q.order].paymentStatus == Pending then StoresAmended(c, s.d, s'.d, q, s.currencies[q.currency], now)
               else s'.d == s.d
  {
    hide ValidUtf8;
    var p := s.currencies[q.currency];
    InfoIs(p, q.currency);
    CreateStores(s.d.db, q.order, q, p.Info(q.currency), c.toBase58(c.account(c.recipient, q.order), p.ss58), now, c.lifetime);
    hide CreateOrder, OnlyStores, DeathAt, WatchOf, CurrencyProperties.Info;
  }

  /** A currency that no connected chain has announced changes nothing. */
  lemma UnknownCurrencyIsRefused(c: Config, s: World, q: OrderQuery, now: u64)
    requires q.currency !in s.currencies
    ensures TakeCreate(c, s, q, now) == s
  {
  }

  ghost predicate StoresPaid(d: Durable, d': Durable, id: Id) {
    && id in d.db && OnlyStores(d.db, d'.db, id, d.db[id].(paymentStatus := Paid))
    && d' == d.(db := d'.db)
  }

  /** A notification for a pending order is recorded, and the handler is about to have it paid out; any other is ignored. */
  lemma PaymentIsAsked(c: Config, s: World, id: Id)
    requires s.ctl.Idle?
    ensures var s' := TakePaid(c, s, id);
            if id in s.d.db && s.d.db[id].paymentStatus == Pending then
              && StoresPaid(s.d, s'.d, id) && s' == s.(d := s'.d, ctl := s'.ctl)
              && (match c.fromBase58(s.d.db[id].paymentAccount)
                  case None => s'.ctl == Idle
                  case Some(_) =>
                    && s'.ctl.Sending? && s'.ctl.m.MReap?
                    && AsksFor(c, s'.ctl.m.w, id, s.d.db[id]) && s'.ctl.m.w.caller == StateTask)
            else s' == s
  {
    hide ValidUtf8;
    PayStores(s.d.db, id);
    if id in s.d.db {
      RequestIff(c, id, s.d.db[id].(paymentStatus := Paid), StateTask);
    }
    hide MarkPaid, OnlyStores, WatchOf;
  }
}
