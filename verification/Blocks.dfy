// One block as the tracker takes it from a node: the event storage is enumerated and filtered once,
// every watched invoice is looked up in the events, and balances are fetched as needed.
module Blocks {
  import opened Definitions
  import opened Chains
  import opened Watching
  import Events
  import KeyPages

  /** What a node shows of one block. */
  datatype Node = Node(
    balance: (Account, Option<u32>) -> u128,
    keys: KeyPages.KeyNode,
    fetch: Events.Fetch)
  {
    function EventKeys(): seq<seq<KeyPages.Json>> {
      KeyPages.Enumerated(keys, KeyPages.MAX_KEY_PAGES, None)
    }

    ghost predicate Readable() {
      Events.Readable(fetch, EventKeys())
    }

    /** The native token was transferred to nobody; assets may have been. */
    ghost predicate NoNativeTransfer() {
      forall e :: Events.InBlock(fetch, EventKeys(), e) ==> e.pallet != Events.BALANCES || e.variant != Events.TRANSFER
    }

    ghost predicate Transferred(a: Account) {
      Events.PaidTo(fetch, EventKeys(), a)
    }

    /** The block as the state machine knows it. */
    ghost function Data(): BlockData {
      BlockData(balance, Readable(), (a: Account) => Transferred(a))
    }
  }

  /** Invoice::balance: no answer for an unknown currency or when the call fails. */
  function Fetch(node: Node, assets: Assets, i: Invoice, fails: bool): (a: Answer)
    ensures a == None || (i.currency in assets && a == Some(node.balance(i.address, AssetOf(assets, i.currency))))
    ensures a.Some? <==> i.currency in assets && !fails
  {
    if i.currency !in assets || fails then None else Some(node.balance(i.address, assets[i.currency].assetId))
  }

  /** A test that holds gets an answer exactly if the currency is known and its call does not fail. */
  ghost predicate Learned(node: Node, assets: Assets, fails: (Id, bool) -> bool, id: Id, i: Invoice, v: Visit) {
    && (v.transfer ==> (v.atTransfer.Some? <==> i.currency in assets && !fails(id, false)))
    && (v.due ==> (v.atDue.Some? <==> i.currency in assets && !fails(id, true)))
  }

  /** How often the block has this invoice reported. */
  ghost function ReportsOf(node: Node, assets: Assets, now: u64, fails: (Id, bool) -> bool, id: Id, i: Invoice): nat {
    (if node.Transferred(i.address) && !fails(id, false) && HoldsEnough(node.Data(), assets, i) then 1 else 0)
    + (if Due(i, now) && !fails(id, true) && HoldsEnough(node.Data(), assets, i) then 1 else 0)
  }

  lemma VisitReports(node: Node, assets: Assets, now: u64, fails: (Id, bool) -> bool, id: Id, i: Invoice, v: Visit)
    requires BlockVisit(node.Data(), assets, i, now, v) && Learned(node, assets, fails, id, i, v)
    ensures Reports(i, v) == ReportsOf(node, assets, now, fails, id, i)
  {
    hide Events.PaidTo, KeyPages.Enumerated, Events.Readable;
  }

  /** What the loop learns about every invoice; a call fails as the caller of this method says, twice per invoice. */
  method Visits(node: Node, events: seq<Events.Event>, watched: map<Id, Invoice>, assets: Assets, now: u64,
                fails: (Id, bool) -> bool) returns (visits: map<Id, Visit>)
    requires forall a: Account :: node.Transferred(a) <==> exists e :: e in events && Events.SoleReceiver(e.fields, a)
    ensures visits.Keys == watched.Keys
    ensures forall id :: id in watched ==> BlockVisit(node.Data(), assets, watched[id], now, visits[id])
    ensures forall id :: id in watched ==> Learned(node, assets, fails, id, watched[id], visits[id])
  {
    hide Events.PaidTo, Events.SoleReceiver, ValidUtf8;
    visits := map[];
    var rest := watched.Keys;
    while rest != {}
      invariant rest <= watched.Keys && visits.Keys == watched.Keys - rest
      invariant forall id :: id in visits ==> BlockVisit(node.Data(), assets, watched[id], now, visits[id])
      invariant forall id :: id in visits ==> Learned(node, assets, fails, id, watched[id], visits[id])
      decreases rest
    {
      var id :| id in rest;
      rest := rest - {id};
      var i := watched[id];
      var transfer := Events.AnyReceived(events, i.address);
      var atTransfer := if transfer then Fetch(node, assets, i, fails(id, false)) else None;
      var due := i.death >= now;
      var atDue := if due then Fetch(node, assets, i, fails(id, true)) else None;
      visits := visits[id := Visit(transfer, atTransfer, due, atDue)];
    }
  }

  /**
   * The processing of one new block. If some event cannot be read, nothing is done; otherwise every
   * invoice is reported once for a native transfer to it and once for a deadline still ahead, if the
   * call for it answers with enough, and the watch map loses exactly the invoices reported, and those
   * not yet expired whose balance was fetched. So a block in which only assets are transferred has
   * nothing looked at but the invoices whose deadline is ahead.
   */
  method NextBlock(tracker: Tracker, node: Node, assets: Assets, now: u64, fails: (Id, bool) -> bool)
    returns (stop: Option<Events.Stop>)
    modifies tracker
    ensures stop.None? <==> node.Data().eventsReadable
    ensures stop.Some? ==> Events.Stops(node.fetch, node.EventKeys(), stop.value)
    ensures stop.Some? ==> tracker.watched == old(tracker.watched) && tracker.orderPaid == old(tracker.orderPaid)
    ensures stop.None? ==>
              forall id: Id :: multiset(tracker.orderPaid)[id] == multiset(old(tracker.orderPaid))[id]
                + if id in old(tracker.watched) then ReportsOf(node, assets, now, fails, id, old(tracker.watched)[id]) else 0
    ensures tracker.watched.Keys <= old(tracker.watched).Keys
    ensures stop.None? ==>
              forall id :: id in old(tracker.watched) ==>
                var i := old(tracker.watched)[id];
                && (id in tracker.watched ==> tracker.watched[id] == i)
                && (id !in tracker.watched <==>
                      || ReportsOf(node, assets, now, fails, id, i) > 0
                      || (Due(i, now) && i.currency in assets && !fails(id, true)))
    ensures stop.None? && node.NoNativeTransfer() ==>
              forall id :: id in old(tracker.watched) && !Due(old(tracker.watched)[id], now) ==>
                && id in tracker.watched && tracker.watched[id] == old(tracker.watched)[id]
                && multiset(tracker.orderPaid)[id] == multiset(old(tracker.orderPaid))[id]
  {
    hide Events.PaidTo, Events.SoleReceiver, Events.InBlock, Events.Stops, Events.Readable, KeyPages.Enumerated, ValidUtf8;
    hide Due, HoldsEnough, BlockVisit, Reports;
    var keys, _ := KeyPages.GetKeysFromStorage(node.keys);
    var filter := Some(Events.EventFilter(Events.BALANCES, Some(Events.TRANSFER)));
    var events := Events.EventsAtBlock(node.fetch, keys, filter);
    if events.Err? {
      return Some(events.error);
    }
    ReceivedIffTransferred(node, events.value);
    var visits := Visits(node, events.value, tracker.watched, assets, now, fails);
    forall id | id in tracker.watched
      ensures Reports(tracker.watched[id], visits[id]) == ReportsOf(node, assets, now, fails, id, tracker.watched[id])
      ensures Due(tracker.watched[id], now) && visits[id].atDue.Some?
         <==> Due(tracker.watched[id], now) && tracker.watched[id].currency in assets && !fails(id, true)
    {
      VisitReports(node, assets, now, fails, id, tracker.watched[id], visits[id]);
      DueAnswer(node, assets, now, fails, id, tracker.watched[id], visits[id]);
    }
    NothingTransferred(node);
    hide Learned;
    tracker.ProcessBlock(node.Data(), assets, now, visits);
    stop := None;
  }

  lemma DueAnswer(node: Node, assets: Assets, now: u64, fails: (Id, bool) -> bool, id: Id, i: Invoice, v: Visit)
    requires BlockVisit(node.Data(), assets, i, now, v) && Learned(node, assets, fails, id, i, v)
    ensures Due(i, now) && v.atDue.Some? <==> Due(i, now) && i.currency in assets && !fails(id, true)
  {
    hide Events.PaidTo, KeyPages.Enumerated, Events.Readable;
  }

  lemma NothingTransferred(node: Node)
    ensures node.NoNativeTransfer() ==> forall a: Account :: !node.Transferred(a)
  {
    hide Events.InBlock, KeyPages.Enumerated, Events.SoleReceiver, ValidUtf8;
  }

  lemma ReceivedIffTransferred(node: Node, events: seq<Events.Event>)
    requires var filter := Some(Events.EventFilter(Events.BALANCES, Some(Events.TRANSFER)));
             forall e :: e in events <==> Events.InBlock(node.fetch, node.EventKeys(), e) && Events.Passes(filter, e)
    ensures forall a: Account :: node.Transferred(a) <==> exists e :: e in events && Events.SoleReceiver(e.fields, a)
  {
    hide Events.InBlock, Events.SoleReceiver, KeyPages.Enumerated, ValidUtf8;
  }
}
